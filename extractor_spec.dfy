/**
 The code-block extractor as a pure state machine: the state it keeps, the
 effect of one tokenizer callback (Step), a whole event stream (Run) and the
 blocks it produces (Extract). The extractor classes are proved to refine
 this machine; the lemmas here state what the machine guarantees.
 */
module ExtractorSpec {
  import opened Events

  /** `depth` counts the open `pre`/`code` tags, `buf` holds the text
      fragments of the block now open, `blocks` the finished blocks in the
      order they closed. */
  datatype State = State(depth: int, buf: seq<string>, blocks: seq<string>)

  /** The state right after construction. */
  const Init := State(0, [], [])

  /** The separator used when a block is finalized. */
  const Newline := "\n"

  /** Depth is never negative, and no fragments are held outside a block. */
  predicate Inv(s: State)
  {
    s.depth >= 0 && (s.depth == 0 ==> s.buf == [])
  }

  /** The effect of one callback. */
  function Step(s: State, e: Event): State
  {
    match e
    case Start(tag) =>
      if IsCodeTag(tag) then
        State(s.depth + 1, if s.depth == 0 then [] else s.buf, s.blocks)
      else s
    case End(tag) =>
      if IsCodeTag(tag) && s.depth > 0 then
        if s.depth - 1 == 0 then State(0, [], s.blocks + [Join(s.buf, Newline)])
        else s.(depth := s.depth - 1)
      else s
    case Data(text) =>
      if s.depth > 0 then s.(buf := s.buf + [text]) else s
  }

  /** Feeding a stream of callbacks, in order, starting from `s`. */
  function Run(s: State, events: seq<Event>): State
  {
    if events == [] then s
    else Step(Run(s, events[..|events| - 1]), events[|events| - 1])
  }

  /** The blocks a fresh extractor has collected after the whole stream. */
  function Extract(events: seq<Event>): seq<string>
  {
    Run(Init, events).blocks
  }

  // ---------------------------------------------------------------------
  // One callback at a time

  /** A tracked start tag opens one more level; it empties the buffer only
      when no block was open. */
  lemma StartTagStep(s: State, tag: string)
    requires IsCodeTag(tag)
    ensures Step(s, Start(tag)).depth == s.depth + 1
    ensures Step(s, Start(tag)).buf == if s.depth == 0 then [] else s.buf
    ensures Step(s, Start(tag)).blocks == s.blocks
  {
  }

  /** An end tag with no open block changes nothing, so depth cannot fall
      below zero. */
  lemma EndTagAtZeroNoOp(s: State, tag: string)
    requires s.depth == 0
    ensures Step(s, End(tag)) == s
  {
  }

  /** A tracked end tag closing the outermost level emits exactly one block,
      the buffered fragments joined with newlines, and empties the buffer;
      a deeper one only decrements the depth. */
  lemma EndTagStep(s: State, tag: string)
    requires IsCodeTag(tag) && s.depth > 0
    ensures s.depth == 1 ==> Step(s, End(tag)) == State(0, [], s.blocks + [Join(s.buf, Newline)])
    ensures s.depth > 1 ==> Step(s, End(tag)) == State(s.depth - 1, s.buf, s.blocks)
  {
  }

  /** Text is appended verbatim, as one fragment, iff a block is open;
      otherwise it is discarded and nothing changes. */
  lemma DataStep(s: State, text: string)
    ensures s.depth > 0 ==> Step(s, Data(text)) == State(s.depth, s.buf + [text], s.blocks)
    ensures s.depth <= 0 ==> Step(s, Data(text)) == s
  {
  }

  /** Tags other than `pre` and `code` (after lower-casing) change nothing. */
  lemma OtherTagNoOp(s: State, tag: string)
    requires !IsCodeTag(tag)
    ensures Step(s, Start(tag)) == s && Step(s, End(tag)) == s
  {
  }

  /** Start and end tags whose names agree up to case have the same effect. */
  lemma TagCaseIrrelevant(s: State, a: string, b: string)
    requires Lower(a) == Lower(b)
    ensures Step(s, Start(a)) == Step(s, Start(b))
    ensures Step(s, End(a)) == Step(s, End(b))
  {
    CodeTagIgnoresCase(a, b);
  }

  /** Every callback keeps the invariant. */
  lemma StepPreservesInv(s: State, e: Event)
    requires Inv(s)
    ensures Inv(Step(s, e))
  {
  }

  /** Under the invariant, clearing the buffer on a top-level start tag is
      redundant: the tag leaves the buffer as it was. */
  lemma ResetRedundant(s: State, tag: string)
    requires Inv(s) && IsCodeTag(tag)
    ensures Step(s, Start(tag)) == State(s.depth + 1, s.buf, s.blocks)
  {
  }

  /** Finished blocks only grow at the end, by at most one per callback, and
      by one exactly on a tracked end tag taking the depth from 1 to 0. */
  lemma StepBlocks(s: State, e: Event)
    ensures var t := Step(s, e);
      |t.blocks| >= |s.blocks| && t.blocks[..|s.blocks|] == s.blocks
    ensures |Step(s, e).blocks| == |s.blocks| + (if e.End? && IsCodeTag(e.tag) && s.depth == 1 then 1 else 0)
  {
  }

  // ---------------------------------------------------------------------
  // Whole streams

  /** Feeding one more callback is one more step. */
  lemma RunSnoc(s: State, events: seq<Event>, e: Event)
    ensures Run(s, events + [e]) == Step(Run(s, events), e)
  {
    assert (events + [e])[..|events|] == events;
  }

  /** Feeding two streams one after the other is feeding their concatenation. */
  lemma {:induction false} RunAppend(s: State, a: seq<Event>, b: seq<Event>)
    ensures Run(s, a + b) == Run(Run(s, a), b)
  {
    if b == [] {
      assert a + b == a;
    } else {
      var b' := b[..|b| - 1];
      assert (a + b)[..|a + b| - 1] == a + b';
      assert (a + b)[|a + b| - 1] == b[|b| - 1];
      RunAppend(s, a, b');
    }
  }

  /** The invariant holds after any stream started in a state satisfying it. */
  lemma {:induction false} RunPreservesInv(s: State, events: seq<Event>)
    requires Inv(s)
    ensures Inv(Run(s, events))
  {
    if events != [] {
      RunPreservesInv(s, events[..|events| - 1]);
      StepPreservesInv(Run(s, events[..|events| - 1]), events[|events| - 1]);
    }
  }

  /** The machine never reads or alters earlier blocks: running with some
      blocks already collected gives those blocks followed by what a run with
      no collected blocks produces, and the same depth and buffer. */
  lemma {:induction false} RunBlocksFrame(s: State, events: seq<Event>)
    ensures var r := Run(s.(blocks := []), events);
      Run(s, events) == r.(blocks := s.blocks + r.blocks)
  {
    if events != [] {
      var init := events[..|events| - 1];
      var e := events[|events| - 1];
      RunBlocksFrame(s, init);
      var r := Run(s.(blocks := []), init);
      assert Run(s, init) == r.(blocks := s.blocks + r.blocks);
      var t := Step(r, e);
      assert Step(r.(blocks := s.blocks + r.blocks), e) == t.(blocks := s.blocks + t.blocks) by {
        match e
        case Start(_) =>
        case Data(_) =>
        case End(tag) =>
          if IsCodeTag(tag) && r.depth == 1 {
            assert s.blocks + r.blocks + [Join(r.buf, Newline)] == s.blocks + (r.blocks + [Join(r.buf, Newline)]);
          }
      }
    }
  }

  /** Blocks already collected form an unchanged prefix of the final list. */
  lemma RunKeepsEarlierBlocks(s: State, events: seq<Event>)
    ensures |Run(s, events).blocks| >= |s.blocks|
    ensures Run(s, events).blocks[..|s.blocks|] == s.blocks
  {
    RunBlocksFrame(s, events);
    var r := Run(s.(blocks := []), events);
    assert (s.blocks + r.blocks)[..|s.blocks|] == s.blocks;
  }

  /** Once the first stream has closed every block it opened, the blocks of
      the concatenation are the blocks of each part in order: results come
      out in document order and the second part is not influenced by the
      first. */
  lemma ExtractConcat(a: seq<Event>, b: seq<Event>)
    requires Run(Init, a).depth == 0
    ensures Extract(a + b) == Extract(a) + Extract(b)
  {
    RunAppend(Init, a, b);
    var s := Run(Init, a);
    RunPreservesInv(Init, a);
    assert s.(blocks := []) == Init;
    RunBlocksFrame(s, b);
  }

  /** Text arriving while no block is open is discarded: removing it from the
      stream does not change the result. */
  lemma OutsideDataDiscarded(pre: seq<Event>, text: string, post: seq<Event>)
    requires Run(Init, pre).depth == 0
    ensures Extract(pre + [Data(text)] + post) == Extract(pre + post)
  {
    RunAppend(Init, pre + [Data(text)], post);
    RunAppend(Init, pre, [Data(text)]);
    assert Run(Run(Init, pre), [Data(text)]) == Step(Run(Init, pre), Data(text));
    RunAppend(Init, pre, post);
  }

  /** Streams that agree event by event up to the letter case of tag names. */
  predicate SameUpToCase(a: seq<Event>, b: seq<Event>)
  {
    |a| == |b| &&
    forall i :: 0 <= i < |a| ==> match (a[i], b[i])
      case (Start(x), Start(y)) => Lower(x) == Lower(y)
      case (End(x), End(y)) => Lower(x) == Lower(y)
      case (Data(x), Data(y)) => x == y
      case _ => false
  }

  /** Tag matching is case-insensitive for whole streams: `<PRE>` and `<pre>`
      produce the same state and hence the same blocks. */
  lemma {:induction false} RunIgnoresTagCase(s: State, a: seq<Event>, b: seq<Event>)
    requires SameUpToCase(a, b)
    ensures Run(s, a) == Run(s, b)
  {
    if a != [] {
      var n := |a| - 1;
      assert SameUpToCase(a[..n], b[..n]) by {
        forall i | 0 <= i < n ensures a[..n][i] == a[i] && b[..n][i] == b[i] { }
      }
      RunIgnoresTagCase(s, a[..n], b[..n]);
      var r := Run(s, a[..n]);
      match (a[n], b[n])
      case (Start(x), Start(y)) => TagCaseIrrelevant(r, x, y);
      case (End(x), End(y)) => TagCaseIrrelevant(r, x, y);
      case (Data(x), Data(y)) =>
    }
  }

  // ---------------------------------------------------------------------
  // Nesting

  /** +1 for a tracked start tag, -1 for a tracked end tag, 0 otherwise. */
  function Delta(e: Event): int
  {
    match e
    case Start(tag) => if IsCodeTag(tag) then 1 else 0
    case End(tag) => if IsCodeTag(tag) then -1 else 0
    case Data(_) => 0
  }

  /** Open minus closed tracked tags, with no clamping. */
  function Nest(events: seq<Event>): int
  {
    if events == [] then 0 else Nest(events[..|events| - 1]) + Delta(events[|events| - 1])
  }

  /** No prefix closes more tracked tags than it opened. */
  predicate NoStrayEnd(events: seq<Event>)
  {
    forall i :: 0 <= i <= |events| ==> Nest(events[..i]) >= 0
  }

  /** Tracked tags are properly paired. */
  predicate Balanced(events: seq<Event>)
  {
    NoStrayEnd(events) && Nest(events) == 0
  }

  /** The number of top-level tracked elements: tracked start tags that occur
      where no tracked element is open. */
  function TopLevel(events: seq<Event>): nat
  {
    if events == [] then 0
    else
      var init := events[..|events| - 1];
      var e := events[|events| - 1];
      TopLevel(init) + (if e.Start? && IsCodeTag(e.tag) && Nest(init) == 0 then 1 else 0)
  }

  /** The text of every data event, in order. */
  function Texts(events: seq<Event>): seq<string>
  {
    if events == [] then []
    else
      var init := events[..|events| - 1];
      var e := events[|events| - 1];
      Texts(init) + (if e.Data? then [e.text] else [])
  }

  /** A prefix of a stream without stray end tags has none either. */
  lemma NoStrayEndPrefix(events: seq<Event>, n: nat)
    requires NoStrayEnd(events) && n <= |events|
    ensures NoStrayEnd(events[..n])
  {
    forall i | 0 <= i <= n ensures Nest(events[..n][..i]) >= 0 {
      assert events[..n][..i] == events[..i];
    }
  }

  /** Without stray end tags the clamped depth is the plain nesting count,
      and every top-level element either has produced its block or is the
      one still open. */
  lemma {:induction false} RunCounts(events: seq<Event>)
    requires NoStrayEnd(events)
    ensures Run(Init, events).depth == Nest(events)
    ensures |Run(Init, events).blocks| + (if Nest(events) > 0 then 1 else 0) == TopLevel(events)
  {
    if events != [] {
      var n := |events| - 1;
      NoStrayEndPrefix(events, n);
      RunCounts(events[..n]);
      assert events[..|events|] == events;
    }
  }

  /** For balanced streams there is one block per top-level element. */
  lemma BlockCount(events: seq<Event>)
    requires Balanced(events)
    ensures |Extract(events)| == TopLevel(events)
  {
    RunCounts(events);
  }

  /** Inside an open block, a stream without stray end tags keeps the block
      open and only adds its text, in order and verbatim, to the buffer. */
  lemma {:induction false} RunInside(s: State, body: seq<Event>)
    requires s.depth >= 1 && NoStrayEnd(body)
    ensures Run(s, body) == State(s.depth + Nest(body), s.buf + Texts(body), s.blocks)
  {
    if body != [] {
      var n := |body| - 1;
      NoStrayEndPrefix(body, n);
      RunInside(s, body[..n]);
      assert body[..|body|] == body;
      var e := body[n];
      if e.Data? {
        assert s.buf + Texts(body[..n]) + [e.text] == s.buf + (Texts(body[..n]) + [e.text]);
      }
    }
  }

  /** A tracked element whose content is balanced yields exactly one block:
      all the text inside it, nested elements included, joined with
      newlines; afterwards no block is open. */
  lemma Element(open: string, body: seq<Event>, close: string)
    requires IsCodeTag(open) && IsCodeTag(close) && Balanced(body)
    ensures Run(Init, [Start(open)] + body + [End(close)]) == State(0, [], [Join(Texts(body), Newline)])
  {
    var s1 := Run(Init, [Start(open)]);
    assert s1 == State(1, [], []) by {
      assert [Start(open)][..0] == [];
      assert s1 == Step(Run(Init, []), Start(open));
    }
    RunAppend(Init, [Start(open)], body);
    RunInside(s1, body);
    var inside := Run(Init, [Start(open)] + body);
    assert inside == State(1, Texts(body), []);
    var evs := [Start(open)] + body + [End(close)];
    assert evs[..|evs| - 1] == [Start(open)] + body;
    assert Run(Init, evs) == Step(inside, End(close));
  }

  /** Three consecutive top-level elements, each with its own tracked tag
      names, yield their three blocks in document order. */
  lemma ElementsInOrder(o1: string, c1: string, b1: seq<Event>,
                        o2: string, c2: string, b2: seq<Event>,
                        o3: string, c3: string, b3: seq<Event>)
    requires IsCodeTag(o1) && IsCodeTag(c1) && IsCodeTag(o2) && IsCodeTag(c2) && IsCodeTag(o3) && IsCodeTag(c3)
    requires Balanced(b1) && Balanced(b2) && Balanced(b3)
    ensures var e1, e2, e3 := [Start(o1)] + b1 + [End(c1)], [Start(o2)] + b2 + [End(c2)], [Start(o3)] + b3 + [End(c3)];
      Extract(e1 + e2 + e3) == [Join(Texts(b1), Newline), Join(Texts(b2), Newline), Join(Texts(b3), Newline)]
  {
    var e1, e2, e3 := [Start(o1)] + b1 + [End(c1)], [Start(o2)] + b2 + [End(c2)], [Start(o3)] + b3 + [End(c3)];
    Element(o1, b1, c1);
    Element(o2, b2, c2);
    Element(o3, b3, c3);
    ExtractConcat(e1, e2);
    assert Run(Init, e1 + e2).depth == 0 by {
      RunAppend(Init, e1, e2);
      RunBlocksFrame(Run(Init, e1), e2);
      assert Run(Init, e1).(blocks := []) == Init;
    }
    ExtractConcat(e1 + e2, e3);
  }

  /** The stream never opens a `pre` or `code` element (tracked end tags
      and any other tags may occur). */
  predicate NoTrackedStart(events: seq<Event>)
  {
    forall i :: 0 <= i < |events| ==> !(events[i].Start? && IsCodeTag(events[i].tag))
  }

  /** A stream that never opens a tracked element leaves the extractor in its
      initial state, so it yields no blocks, even with stray tracked end tags. */
  lemma {:induction false} NoTagsNoBlocks(events: seq<Event>)
    requires NoTrackedStart(events)
    ensures Run(Init, events) == Init
    ensures Extract(events) == []
  {
    if events != [] {
      var n := |events| - 1;
      assert NoTrackedStart(events[..n]) by {
        forall i | 0 <= i < n ensures events[..n][i] == events[i] { }
      }
      NoTagsNoBlocks(events[..n]);
      assert !(events[n].Start? && IsCodeTag(events[n].tag));
    }
  }
}
