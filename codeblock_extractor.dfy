/**
 The extractor of `codeblock_extractor.py`: an object whose three callbacks
 update its depth, fragment buffer and block list in place, and the driver
 that builds a fresh extractor and feeds it a whole event stream.
 */
module CodeblockExtractor {
  import opened Events
  import opened ExtractorSpec

  class Extractor {
    var depth: int
    var buf: seq<string>
    var blocks: seq<string>
    /** The callbacks delivered so far, in order. */
    ghost var history: seq<Event>

    /** The fields are the pure machine's state after the callbacks seen so
        far, and they satisfy its invariant. */
    ghost predicate Valid()
      reads this
    {
      State(depth, buf, blocks) == Run(Init, history) && Inv(State(depth, buf, blocks))
    }

    constructor ()
      ensures Valid() && history == []
      ensures depth == 0 && buf == [] && blocks == []
    {
      depth := 0;
      blocks := [];
      buf := [];
      history := [];
    }

    method HandleStartTag(tag: string)
      requires Valid()
      modifies this
      ensures Valid() && history == old(history) + [Start(tag)]
      ensures depth == old(depth) + (if IsCodeTag(tag) then 1 else 0)
      ensures old(depth) == 0 ==> buf == []
      ensures buf == old(buf) && blocks == old(blocks)
    {
      if IsCodeTag(tag) {
        if depth == 0 {
          buf := [];
        }
        depth := depth + 1;
      }
      RunSnoc(Init, history, Start(tag));
      history := history + [Start(tag)];
    }

    method HandleEndTag(tag: string)
      requires Valid()
      modifies this
      ensures Valid() && history == old(history) + [End(tag)]
      ensures !(IsCodeTag(tag) && old(depth) > 0) ==>
        depth == old(depth) && buf == old(buf) && blocks == old(blocks)
      ensures IsCodeTag(tag) && old(depth) == 1 ==>
        depth == 0 && buf == [] && blocks == old(blocks) + [Join(old(buf), Newline)]
      ensures IsCodeTag(tag) && old(depth) > 1 ==>
        depth == old(depth) - 1 && buf == old(buf) && blocks == old(blocks)
    {
      if IsCodeTag(tag) && depth > 0 {
        depth := depth - 1;
        if depth == 0 {
          blocks := blocks + [Join(buf, Newline)];
          buf := [];
        }
      }
      RunSnoc(Init, history, End(tag));
      history := history + [End(tag)];
    }

    method HandleData(data: string)
      requires Valid()
      modifies this
      ensures Valid() && history == old(history) + [Data(data)]
      ensures depth == old(depth) && blocks == old(blocks)
      ensures buf == if old(depth) > 0 then old(buf) + [data] else old(buf)
    {
      if depth > 0 {
        buf := buf + [data];
      }
      RunSnoc(Init, history, Data(data));
      history := history + [Data(data)];
    }

    /** The blocks finished so far: those of the callbacks seen, in closing
        order. */
    method Blocks() returns (r: seq<string>)
      requires Valid()
      ensures r == Extract(history)
    {
      r := blocks;
    }
  }

  /** Deliver one tokenizer callback to the matching handler. */
  method Deliver(parser: Extractor, e: Event)
    requires parser.Valid()
    modifies parser
    ensures parser.Valid() && parser.history == old(parser.history) + [e]
  {
    match e
    case Start(tag) => parser.HandleStartTag(tag);
    case End(tag) => parser.HandleEndTag(tag);
    case Data(text) => parser.HandleData(text);
  }

  /** Build a fresh extractor, feed it the stream and return its blocks. */
  method ExtractCodeBlocks(events: seq<Event>) returns (blocks: seq<string>)
    ensures blocks == Extract(events)
  {
    var parser := new Extractor();
    var i := 0;
    while i < |events|
      invariant 0 <= i <= |events|
      invariant parser.Valid() && parser.history == events[..i]
    {
      Deliver(parser, events[i]);
      assert events[..i + 1] == events[..i] + [events[i]];
      i := i + 1;
    }
    assert events[..|events|] == events;
    blocks := parser.Blocks();
  }

  /** Each call starts from fresh state, so two calls on the same stream
      return the same blocks. */
  method ExtractTwice(events: seq<Event>) returns (first: seq<string>, second: seq<string>)
    ensures first == second
  {
    first := ExtractCodeBlocks(events);
    second := ExtractCodeBlocks(events);
  }
}
