/**
 Small callback streams and the blocks they yield, as a tokenizer would
 deliver them for short markup snippets. Tag names and texts are
 parameters; the requires say which names are tracked, and the first
 lemmas show that `pre`, `PRE` and `code` are while `div` and `p` are not.
 */
module Scenarios {
  import opened Events
  import opened ExtractorSpec

  lemma PreTracked() ensures IsCodeTag("pre") { assert Lower("pre") == "pre"; }
  lemma UpperPreTracked() ensures IsCodeTag("PRE") { assert Lower("PRE") == "pre"; }
  lemma CodeTracked() ensures IsCodeTag("code") { assert Lower("code") == "code"; }
  lemma DivIgnored() ensures !IsCodeTag("div") { assert Lower("div")[0] == 'd'; }
  lemma ParagraphIgnored() ensures !IsCodeTag("p") { assert |Lower("p")| == 1; }

  /** Short streams, step by step. */
  lemma Run2(s: State, a: Event, b: Event)
    ensures Run(s, [a, b]) == Step(Step(s, a), b)
  {
    RunSnoc(s, [], a);
    RunSnoc(s, [a], b);
    assert [a] + [b] == [a, b];
  }

  lemma Run3(s: State, a: Event, b: Event, c: Event)
    ensures Run(s, [a, b, c]) == Step(Step(Step(s, a), b), c)
  {
    assert [a, b, c][..2] == [a, b];
    Run2(s, a, b);
  }

  lemma Run4(s: State, a: Event, b: Event, c: Event, d: Event)
    ensures Run(s, [a, b, c, d]) == Step(Step(Step(Step(s, a), b), c), d)
  {
    assert [a, b, c, d][..3] == [a, b, c];
    Run3(s, a, b, c);
  }

  /** Three fragments joined with newlines. */
  lemma JoinThree(x: string, y: string, z: string)
    ensures Join([x, y, z], Newline) == x + Newline + y + Newline + z
  {
    JoinSnoc([x], y, Newline);
    assert [x] + [y] == [x, y];
    JoinSnoc([x, y], z, Newline);
    assert [x, y] + [z] == [x, y, z];
  }

  /** `<pre>outer<code>`: two levels open, one fragment buffered. */
  lemma NestedOpening(pre: string, code: string, outer: string)
    requires IsCodeTag(pre) && IsCodeTag(code)
    ensures Run(Init, [Start(pre), Data(outer), Start(code)]) == State(2, [outer], [])
  {
    Run3(Init, Start(pre), Data(outer), Start(code));
  }

  /** `inner</code>more</pre>` after that opening: the block closes once. */
  lemma NestedClosing(pre: string, code: string, outer: string, inner: string, more: string)
    requires IsCodeTag(pre) && IsCodeTag(code)
    ensures Run(State(2, [outer], []), [Data(inner), End(code), Data(more), End(pre)])
            == State(0, [], [outer + "\n" + inner + "\n" + more])
  {
    var mid := State(2, [outer], []);
    Run4(mid, Data(inner), End(code), Data(more), End(pre));
    assert Step(mid, Data(inner)) == State(2, [outer, inner], []);
    assert Step(State(2, [outer, inner], []), End(code)) == State(1, [outer, inner], []);
    assert Step(State(1, [outer, inner], []), Data(more)) == State(1, [outer, inner, more], []);
    JoinThree(outer, inner, more);
  }

  /** `<pre>outer<code>inner</code>more</pre>`: the nested element merges
      into the enclosing one, giving the single block `"outer\ninner\nmore"`. */
  lemma NestedMerges(pre: string, code: string, outer: string, inner: string, more: string)
    requires IsCodeTag(pre) && IsCodeTag(code)
    ensures Extract([Start(pre), Data(outer), Start(code), Data(inner), End(code), Data(more), End(pre)])
            == [outer + "\n" + inner + "\n" + more]
  {
    var head := [Start(pre), Data(outer), Start(code)];
    var tail := [Data(inner), End(code), Data(more), End(pre)];
    assert head + tail == [Start(pre), Data(outer), Start(code), Data(inner), End(code), Data(more), End(pre)];
    RunAppend(Init, head, tail);
    NestedOpening(pre, code, outer);
    NestedClosing(pre, code, outer, inner, more);
  }

  /** `<open>x</close>` with tracked names, from a state with no open block:
      one block holding exactly `x` is appended. */
  lemma SingleElement(s: State, open: string, x: string, close: string)
    requires IsCodeTag(open) && IsCodeTag(close) && s.depth == 0
    ensures Run(s, [Start(open), Data(x), End(close)]) == State(0, [], s.blocks + [x])
  {
    Run3(s, Start(open), Data(x), End(close));
    assert Step(s, Start(open)) == State(1, [], s.blocks);
    assert Step(State(1, [], s.blocks), Data(x)) == State(1, [x], s.blocks);
  }

  /** `<PRE>x</PRE>` and `<pre>x</pre>` both yield `[x]`. */
  lemma UpperCaseTags(x: string)
    ensures Extract([Start("PRE"), Data(x), End("PRE")]) == [x]
    ensures Extract([Start("pre"), Data(x), End("pre")]) == [x]
  {
    UpperPreTracked();
    PreTracked();
    SingleElement(Init, "PRE", x, "PRE");
    SingleElement(Init, "pre", x, "pre");
  }

  /** `</code>plain text<pre>x</pre>`: an end tag with nothing open is
      ignored, the text before the block is dropped, and the result is `[x]`. */
  lemma StrayEndTag(code: string, plain: string, pre: string, x: string)
    requires IsCodeTag(pre)
    ensures Extract([End(code), Data(plain), Start(pre), Data(x), End(pre)]) == [x]
  {
    var stray := [End(code), Data(plain)];
    var block := [Start(pre), Data(x), End(pre)];
    assert stray + block == [End(code), Data(plain), Start(pre), Data(x), End(pre)];
    RunAppend(Init, stray, block);
    Run2(Init, End(code), Data(plain));
    SingleElement(Init, pre, x, pre);
  }

  /** `<div><pre>print(1)</pre>`: the first block is finished. */
  lemma MixedFirst(div: string, pre: string, a: string)
    requires !IsCodeTag(div) && IsCodeTag(pre)
    ensures Run(Init, [Start(div), Start(pre), Data(a), End(pre)]) == State(0, [], [a])
  {
    Run4(Init, Start(div), Start(pre), Data(a), End(pre));
    assert Step(Init, Start(div)) == Init;
    assert Step(Init, Start(pre)) == State(1, [], []);
    assert Step(State(1, [], []), Data(a)) == State(1, [a], []);
  }

  /** `<p>text</p>` with no block open changes nothing. */
  lemma MixedParagraph(s: State, p: string, t: string)
    requires !IsCodeTag(p) && s.depth == 0
    ensures Run(s, [Start(p), Data(t), End(p)]) == s
  {
    Run3(s, Start(p), Data(t), End(p));
  }

  /** `<code>x=2</code></div>` appends the second block. */
  lemma MixedSecond(s: State, code: string, b: string, div: string)
    requires IsCodeTag(code) && !IsCodeTag(div) && s.depth == 0
    ensures Run(s, [Start(code), Data(b), End(code), End(div)]) == State(0, [], s.blocks + [b])
  {
    Run4(s, Start(code), Data(b), End(code), End(div));
    SingleElement(s, code, b, code);
    Run3(s, Start(code), Data(b), End(code));
  }

  /** `<div><pre>print(1)</pre><p>text</p><code>x=2</code></div>` yields
      `["print(1)", "x=2"]`: the two blocks in document order, the paragraph
      text dropped. */
  lemma MixedDocument(div: string, pre: string, p: string, code: string, a: string, t: string, b: string)
    requires !IsCodeTag(div) && !IsCodeTag(p) && IsCodeTag(pre) && IsCodeTag(code)
    ensures Extract([Start(div), Start(pre), Data(a), End(pre),
                     Start(p), Data(t), End(p),
                     Start(code), Data(b), End(code), End(div)]) == [a, b]
  {
    var first := [Start(div), Start(pre), Data(a), End(pre)];
    var para := [Start(p), Data(t), End(p)];
    var second := [Start(code), Data(b), End(code), End(div)];
    assert first + para + second == [Start(div), Start(pre), Data(a), End(pre),
                                      Start(p), Data(t), End(p),
                                      Start(code), Data(b), End(code), End(div)];
    MixedFirst(div, pre, a);
    var s := State(0, [], [a]);
    MixedParagraph(s, p, t);
    MixedSecond(s, code, b, div);
    RunAppend(Init, first, para);
    RunAppend(Init, first + para, second);
  }

  /** The same document with its own tag names. */
  lemma MixedDocumentTags(a: string, t: string, b: string)
    ensures Extract([Start("div"), Start("pre"), Data(a), End("pre"),
                     Start("p"), Data(t), End("p"),
                     Start("code"), Data(b), End("code"), End("div")]) == [a, b]
  {
    DivIgnored();
    ParagraphIgnored();
    PreTracked();
    CodeTracked();
    MixedDocument("div", "pre", "p", "code", a, t, b);
  }

  /** No callbacks, or an untracked element followed by a stray tracked end
      tag: no blocks. */
  lemma NoCodeTags(p: string, t: string, code: string)
    requires !IsCodeTag(p)
    ensures Extract([]) == []
    ensures Extract([Start(p), Data(t), End(p), End(code)]) == []
  {
    var evs := [Start(p), Data(t), End(p), End(code)];
    assert NoTrackedStart(evs) by {
      forall i | 0 <= i < |evs| ensures !(evs[i].Start? && IsCodeTag(evs[i].tag)) {
        if i == 0 { assert evs[0] == Start(p); }
      }
    }
    NoTagsNoBlocks(evs);
  }
}
