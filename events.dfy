/**
 The callbacks a markup tokenizer delivers to a code-block extractor, and the
 string helpers the extractor applies to them: ASCII lower-casing of tag
 names, the `pre`/`code` tag test, and joining buffered fragments with a
 separator.
 */
module Events {

  /** One tokenizer callback: a start tag, an end tag or a run of text.
      Tag attributes are not carried; the extractor ignores them. */
  datatype Event = Start(tag: string) | End(tag: string) | Data(text: string)

  /** ASCII case folding of one character. */
  function LowerChar(c: char): (r: char)
    ensures 'A' <= c <= 'Z' ==> r as int == c as int + 32
    ensures !('A' <= c <= 'Z') ==> r == c
    ensures !('A' <= r <= 'Z')
  {
    if 'A' <= c <= 'Z' then (c as int + 32) as char else c
  }

  /** ASCII lower-casing of a string, character by character. */
  function Lower(s: string): (r: string)
    ensures |r| == |s|
    ensures forall i :: 0 <= i < |s| ==> r[i] == LowerChar(s[i])
  {
    if s == [] then [] else [LowerChar(s[0])] + Lower(s[1..])
  }

  /** Lower-casing a lower-cased string changes nothing. */
  lemma LowerIdempotent(s: string)
    ensures Lower(Lower(s)) == Lower(s)
  {
    assert forall i :: 0 <= i < |s| ==> LowerChar(LowerChar(s[i])) == LowerChar(s[i]);
  }

  /** The tag names the extractor tracks, compared after lower-casing. */
  predicate IsCodeTag(tag: string)
  {
    var l := Lower(tag);
    l == "pre" || l == "code"
  }

  /** Tag names that agree up to letter case are tracked alike. */
  lemma CodeTagIgnoresCase(a: string, b: string)
    requires Lower(a) == Lower(b)
    ensures IsCodeTag(a) <==> IsCodeTag(b)
  {
  }

  /** Exactly the case variants of `pre` and `code` are tracked: a name is a
      code tag iff it has the length of one of them and agrees with it letter
      by letter after folding. */
  lemma CodeTagLetters(tag: string)
    ensures IsCodeTag(tag) <==>
      (|tag| == 3 && LowerChar(tag[0]) == 'p' && LowerChar(tag[1]) == 'r' && LowerChar(tag[2]) == 'e') ||
      (|tag| == 4 && LowerChar(tag[0]) == 'c' && LowerChar(tag[1]) == 'o' && LowerChar(tag[2]) == 'd' && LowerChar(tag[3]) == 'e')
  {
    var l := Lower(tag);
    if |tag| == 3 && LowerChar(tag[0]) == 'p' && LowerChar(tag[1]) == 'r' && LowerChar(tag[2]) == 'e' {
      assert l == "pre";
    }
    if |tag| == 4 && LowerChar(tag[0]) == 'c' && LowerChar(tag[1]) == 'o' && LowerChar(tag[2]) == 'd' && LowerChar(tag[3]) == 'e' {
      assert l == "code";
    }
  }

  /** Total number of characters in a list of fragments. */
  function TotalLength(parts: seq<string>): nat
  {
    if parts == [] then 0 else TotalLength(parts[..|parts| - 1]) + |parts[|parts| - 1]|
  }

  /** The fragments in order with `sep` between neighbours (no leading or
      trailing separator; the empty list joins to the empty string). */
  function Join(parts: seq<string>, sep: string): string
  {
    if |parts| == 0 then ""
    else if |parts| == 1 then parts[0]
    else Join(parts[..|parts| - 1], sep) + sep + parts[|parts| - 1]
  }

  /** The empty list joins to the empty string; otherwise the join holds
      every fragment's characters plus one separator between neighbours. */
  lemma {:induction false} JoinLength(parts: seq<string>, sep: string)
    ensures parts == [] ==> Join(parts, sep) == ""
    ensures parts != [] ==> |Join(parts, sep)| == TotalLength(parts) + (|parts| - 1) * |sep|
  {
    if |parts| > 1 {
      var init := parts[..|parts| - 1];
      JoinLength(init, sep);
      assert (|init| - 1) * |sep| + |sep| == (|parts| - 1) * |sep|;
    }
  }

  /** Joining two non-empty lists is joining each and putting one separator
      between them. */
  lemma {:induction false} JoinAppend(a: seq<string>, b: seq<string>, sep: string)
    requires a != [] && b != []
    ensures Join(a + b, sep) == Join(a, sep) + sep + Join(b, sep)
  {
    var ab := a + b;
    if |b| == 1 {
      assert ab[..|ab| - 1] == a;
    } else {
      var b' := b[..|b| - 1];
      assert ab[..|ab| - 1] == a + b';
      JoinAppend(a, b', sep);
    }
  }

  /** One separator goes between the joined prefix and every further fragment. */
  lemma JoinSnoc(a: seq<string>, x: string, sep: string)
    requires a != []
    ensures Join(a + [x], sep) == Join(a, sep) + sep + x
  {
    assert (a + [x])[..|a|] == a;
  }
}
