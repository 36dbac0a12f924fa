/** Locating the JSON array in the provider's free text. The service matches
    the pattern `\[[\s\S]*\]`: the leftmost `[` that has a `]` somewhere after
    it, then (greedily) everything up to the LAST `]` of the text. The span is
    not required to be balanced: text holding two arrays yields one span that
    runs from the first array's `[` to the second array's `]`. */
module Span {
  import opened News

  /** Index of the first occurrence of `c` in `s`, if any. */
  function FirstIndex(s: string, c: char): (r: Option<nat>)
    ensures r.Some? ==> r.value < |s| && s[r.value] == c
    ensures r.Some? ==> forall k :: 0 <= k < r.value ==> s[k] != c
    ensures r.None? <==> c !in s
    decreases |s|
  {
    if |s| == 0 then None
    else if s[0] == c then Some(0)
    else match FirstIndex(s[1..], c)
      case None => None
      case Some(i) => Some(i + 1)
  }

  /** Index of the last occurrence of `c` in `s`, if any. */
  function LastIndex(s: string, c: char): (r: Option<nat>)
    ensures r.Some? ==> r.value < |s| && s[r.value] == c
    ensures r.Some? ==> forall k :: r.value < k < |s| ==> s[k] != c
    ensures r.None? <==> c !in s
    decreases |s|
  {
    if |s| == 0 then None
    else if s[|s| - 1] == c then Some(|s| - 1)
    else LastIndex(s[..|s| - 1], c)
  }

  /** True when some `[` of `text` comes before some `]`: the only condition
      under which the pattern matches at all. */
  predicate HasBracketPair(text: string)
  {
    exists i, j :: 0 <= i < j < |text| && text[i] == '[' && text[j] == ']'
  }

  /** The bounds `(start, end)` of the match, both inclusive. */
  function SpanBounds(text: string): (r: Option<(nat, nat)>)
    ensures r.Some? <==> HasBracketPair(text)
    ensures r.Some? ==> r.value.0 < r.value.1 < |text|
    ensures r.Some? ==> text[r.value.0] == '[' && text[r.value.1] == ']'
    ensures r.Some? ==> forall k :: 0 <= k < r.value.0 ==> text[k] != '['
    ensures r.Some? ==> forall k :: r.value.1 < k < |text| ==> text[k] != ']'
  {
    match (FirstIndex(text, '['), LastIndex(text, ']'))
    case (Some(i), Some(j)) =>
      if i < j then Some((i, j))
      else
        // every `[` sits at or after i, every `]` at or before j <= i
        assert !HasBracketPair(text);
        None
    case _ => None
  }

  /** The matched text, `[` through `]`, or None when nothing matches. */
  function ExtractSpan(text: string): (r: Option<string>)
    ensures r.Some? <==> HasBracketPair(text)
    ensures r.Some? ==> 2 <= |r.value| && r.value[0] == '[' && r.value[|r.value| - 1] == ']'
  {
    match SpanBounds(text)
    case None => None
    case Some((i, j)) => Some(text[i..j + 1])
  }

  /** Commentary around a single array that itself brings no `[` before it
      and no `]` after it does not disturb the match: the whole array, and
      only it, is extracted. */
  lemma {:induction false} ExtractWrapped(prefix: string, body: string, suffix: string)
    requires '[' !in prefix && ']' !in suffix
    ensures ExtractSpan(prefix + "[" + body + "]" + suffix) == Some("[" + body + "]")
  {
    var text := prefix + "[" + body + "]" + suffix;
    var i, j := |prefix|, |prefix| + |body| + 1;
    assert text[i] == '[' && text[j] == ']';
    assert HasBracketPair(text);
    var b := SpanBounds(text).value;
    assert b.0 == i by {
      assert forall k :: 0 <= k < i ==> text[k] == prefix[k];
    }
    assert b.1 == j by {
      assert forall k :: j < k < |text| ==> text[k] == suffix[k - j - 1];
    }
    assert text[i..j + 1] == "[" + body + "]";
  }

  /** The match is greedy rather than balanced: with two arrays in the text
      the span covers both and the commentary between them. */
  lemma TwoArraysGiveOneSpan()
    ensures ExtractSpan("a [1] b [2] c") == Some("[1] b [2]")
  {
    assert "a " + "[" + "1] b [2" + "]" + " c" == "a [1] b [2] c";
    assert "[" + "1] b [2" + "]" == "[1] b [2]";
    ExtractWrapped("a ", "1] b [2", " c");
  }
}
