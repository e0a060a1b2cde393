/**
 * The match of `/\{[\s\S]*\}/` on the AI reply
 * (supabase/functions/analyze-job/index.ts). The pattern has no flags and
 * `[\s\S]` matches any character, so a match is any substring that starts
 * with `{`, ends with a later `}`, and may hold anything between. The regex
 * engine tries start positions from left to right and lets `[\s\S]*` take
 * as much as it can, so the chosen match is the leftmost one and, for that
 * start, the longest one.
 */
module BraceSpan {
  import opened Wrappers

  /** `s[i..j]` is a match of the pattern: it begins with `{` and ends with a `}` after it. */
  ghost predicate IsMatch(s: string, i: int, j: int) {
    0 <= i && i + 2 <= j <= |s| && s[i] == '{' && s[j - 1] == '}'
  }

  /** `s[i..j]` is the match that a leftmost, greedy regex engine reports. */
  ghost predicate IsLeftmostGreedy(s: string, i: int, j: int) {
    && IsMatch(s, i, j)
    && (forall i', j' :: IsMatch(s, i', j') ==> i <= i')
    && (forall j' :: IsMatch(s, i, j') ==> j' <= j)
  }

  /** The first position at or after `from` that holds `c`. */
  function IndexOf(s: string, c: char, from: nat): (r: Option<nat>)
    requires from <= |s|
    ensures r.Some? ==> from <= r.value < |s| && s[r.value] == c
    ensures r.Some? ==> forall k :: from <= k < r.value ==> s[k] != c
    ensures r.None? ==> forall k :: from <= k < |s| ==> s[k] != c
    decreases |s| - from
  {
    if from == |s| then None
    else if s[from] == c then Some(from)
    else IndexOf(s, c, from + 1)
  }

  /** The last position of `s` that holds `c`. */
  function LastIndexOf(s: string, c: char): (r: Option<nat>)
    ensures r.Some? ==> r.value < |s| && s[r.value] == c
    ensures r.Some? ==> forall k :: r.value < k < |s| ==> s[k] != c
    ensures r.None? ==> forall k :: 0 <= k < |s| ==> s[k] != c
  {
    if |s| == 0 then None
    else if s[|s| - 1] == c then Some(|s| - 1)
    else LastIndexOf(s[..|s| - 1], c)
  }

  /**
   * The bounds `(i, j)` of the reported match `s[i..j]`: from the first `{`
   * to the last `}`, provided that `}` comes after that `{`; no match otherwise.
   */
  function MatchBounds(s: string): (r: Option<(nat, nat)>)
    ensures r.Some? ==> IsLeftmostGreedy(s, r.value.0, r.value.1)
    ensures r.None? ==> forall i, j :: !IsMatch(s, i, j)
  {
    match IndexOf(s, '{', 0)
    case None => None
    case Some(i) =>
      match LastIndexOf(s, '}')
      case Some(k) =>
        if i < k then Some((i, k + 1)) else None
      case None => None
  }

  /** `content.match(/\{[\s\S]*\}/)`, with `jsonMatch[0]` as the value: the matched text, or no match. */
  function JsonMatch(content: string): (r: Option<string>)
    ensures r.Some? <==> exists i, j :: IsMatch(content, i, j)
    ensures r.Some? ==> exists i, j :: IsLeftmostGreedy(content, i, j) && r.value == content[i..j]
    ensures r.Some? ==> |r.value| >= 2 && r.value[0] == '{' && r.value[|r.value| - 1] == '}'
  {
    match MatchBounds(content)
    case None => None
    case Some((i, j)) => Some(content[i..j])
  }

  /** There is only one leftmost-greedy match, so the reported span is determined by the reference predicate. */
  lemma LeftmostGreedyUnique(s: string, i1: int, j1: int, i2: int, j2: int)
    requires IsLeftmostGreedy(s, i1, j1) && IsLeftmostGreedy(s, i2, j2)
    ensures i1 == i2 && j1 == j2
  {
  }

  /** Matching again on a matched span returns the whole span: extraction is idempotent. */
  lemma {:induction false} JsonMatchIdempotent(content: string)
    requires JsonMatch(content).Some?
    ensures JsonMatch(JsonMatch(content).value) == JsonMatch(content)
  {
    var span := JsonMatch(content).value;
    var n := |span|;
    assert IsMatch(span, 0, n);
    var i, j := MatchBounds(span).value.0, MatchBounds(span).value.1;
    assert i <= 0 && n <= j;
    assert span[i..j] == span;
  }

  /** When a `}` follows the first `{`, the span runs from that first `{` to the last `}`, both included. */
  lemma JsonMatchFirstToLast(s: string, first: nat, last: nat)
    requires first < last < |s| && s[first] == '{' && s[last] == '}'
    requires forall k :: 0 <= k < first ==> s[k] != '{'
    requires forall k :: last < k < |s| ==> s[k] != '}'
    ensures JsonMatch(s) == Some(s[first..last + 1])
  {
  }

  /** When no `}` follows the first `{`, or there is no `{` at all, nothing matches. */
  lemma JsonMatchNone(s: string)
    requires forall i, k :: 0 <= i < k < |s| && s[i] == '{' ==> s[k] != '}'
    ensures JsonMatch(s) == None
  {
  }
}
