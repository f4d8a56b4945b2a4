/**
 The extractor of `code_block_extractor.py`: the same three in-place
 callbacks as the other copy, and a block accessor that hands out a fresh
 copy of the block list.
 */
module CodeBlockExtractor {
  import opened Events
  import opened ExtractorSpec

  class Extractor {
    var depth: int
    var buf: seq<string>
    var blocks: seq<string>
    /** The callbacks delivered so far, in order. */
    ghost var history: seq<Event>

    /** The fields are the pure machine's state after the callbacks seen so
        far, and they satisfy its invariant. */
    ghost predicate Valid()
      reads this
    {
      State(depth, buf, blocks) == Run(Init, history) && Inv(State(depth, buf, blocks))
    }

    constructor ()
      ensures Valid() && history == []
      ensures depth == 0 && buf == [] && blocks == []
    {
      depth := 0;
      blocks := [];
      buf := [];
      history := [];
    }

    method HandleStartTag(tag: string)
      requires Valid()
      modifies this
      ensures Valid() && history == old(history) + [Start(tag)]
      ensures depth == old(depth) + (if IsCodeTag(tag) then 1 else 0)
      ensures old(depth) == 0 ==> buf == []
      ensures buf == old(buf) && blocks == old(blocks)
    {
      if IsCodeTag(tag) {
        if depth == 0 {
          buf := [];
        }
        depth := depth + 1;
      }
      RunSnoc(Init, history, Start(tag));
      history := history + [Start(tag)];
    }

    method HandleEndTag(tag: string)
      requires Valid()
      modifies this
      ensures Valid() && history == old(history) + [End(tag)]
      ensures !(IsCodeTag(tag) && old(depth) > 0) ==>
        depth == old(depth) && buf == old(buf) && blocks == old(blocks)
      ensures IsCodeTag(tag) && old(depth) == 1 ==>
        depth == 0 && buf == [] && blocks == old(blocks) + [Join(old(buf), Newline)]
      ensures IsCodeTag(tag) && old(depth) > 1 ==>
        depth == old(depth) - 1 && buf == old(buf) && blocks == old(blocks)
    {
      if IsCodeTag(tag) && depth > 0 {
        depth := depth - 1;
        if depth == 0 {
          blocks := blocks + [Join(buf, Newline)];
          buf := [];
        }
      }
      RunSnoc(Init, history, End(tag));
      history := history + [End(tag)];
    }

    method HandleData(data: string)
      requires Valid()
      modifies this
      ensures Valid() && history == old(history) + [Data(data)]
      ensures depth == old(depth) && blocks == old(blocks)
      ensures buf == if old(depth) > 0 then old(buf) + [data] else old(buf)
    {
      if depth > 0 {
        buf := buf + [data];
      }
      RunSnoc(Init, history, Data(data));
      history := history + [Data(data)];
    }

    /** A new list holding the blocks finished so far, in closing order.
        The list is freshly allocated and the extractor keeps no reference
        to it, so nothing a caller does to it reaches the extractor. */
    method Blocks() returns (r: array<string>)
      requires Valid()
      ensures fresh(r)
      ensures r[..] == blocks && r[..] == Extract(history)
    {
      r := new string[|blocks|](i requires 0 <= i < |blocks| reads this => blocks[i]);
    }
  }

  /** Overwriting the copy returned by Blocks leaves the extractor as it was. */
  method OverwriteCopy(parser: Extractor, text: string) returns (copy: array<string>)
    requires parser.Valid()
    ensures fresh(copy) && unchanged(parser) && parser.Valid()
    ensures copy.Length == |parser.blocks|
    ensures forall i :: 0 <= i < copy.Length ==> copy[i] == text
  {
    copy := parser.Blocks();
    var i := 0;
    while i < copy.Length
      invariant 0 <= i <= copy.Length
      invariant forall j :: 0 <= j < i ==> copy[j] == text
      modifies copy
    {
      copy[i] := text;
      i := i + 1;
    }
  }
}
