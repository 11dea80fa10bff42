/**
 * Go's `strings.TrimRight`, the one string operation the bot calls, plus the
 * model's own index search used to parse the bot's URLs; over `string` =
 * `seq<char>` (one `char` per Unicode code point of the Go string).
 */
module Strings {

  /** Every character of `s` occurs in `cutset`. */
  predicate AllIn(s: string, cutset: string) {
    forall i :: 0 <= i < |s| ==> s[i] in cutset
  }

  /**
   * `strings.TrimRight(s, cutset)`: the cutset is a SET of characters, not a
   * suffix. The result is the longest prefix of `s` that does not end in a
   * character of the cutset, and everything removed belongs to the cutset.
   */
  function TrimRight(s: string, cutset: string): (r: string)
    ensures r <= s
    ensures r == [] || r[|r| - 1] !in cutset
    ensures AllIn(s[|r|..], cutset)
    decreases |s|
  {
    if s != [] && s[|s| - 1] in cutset then TrimRight(s[..|s| - 1], cutset) else s
  }

  /** The three properties in TrimRight's contract determine its result. */
  lemma TrimRightUnique(s: string, cutset: string, r: string)
    requires r <= s
    requires r == [] || r[|r| - 1] !in cutset
    requires AllIn(s[|r|..], cutset)
    ensures TrimRight(s, cutset) == r
  {
  }

  /** Trimming twice with the same cutset removes nothing more. */
  lemma TrimRightIdempotent(s: string, cutset: string)
    ensures TrimRight(TrimRight(s, cutset), cutset) == TrimRight(s, cutset)
  {
  }

  /** A string whose last character is outside the cutset is returned unchanged. */
  lemma TrimRightKeeps(s: string, cutset: string)
    requires s == [] || s[|s| - 1] !in cutset
    ensures TrimRight(s, cutset) == s
  {
  }

  /**
   * The loop Go's library runs for TrimRight: move an end index backwards
   * while the character before it is in the cutset.
   */
  method TrimRightScan(s: string, cutset: string) returns (r: string)
    ensures r == TrimRight(s, cutset)
  {
    var end := |s|;
    assert s[..end] == s;
    while end > 0 && s[end - 1] in cutset
      invariant 0 <= end <= |s|
      invariant TrimRight(s[..end], cutset) == TrimRight(s, cutset)
    {
      assert s[..end][..end - 1] == s[..end - 1];
      end := end - 1;
    }
    r := s[..end];
  }

  /**
   * Index of the first occurrence of `c` in `s`, or `|s|` when there is none.
   * A helper of the model for ParseGetFileUrl and ParseFileUrl; the bot
   * itself never searches a string.
   */
  function IndexOf(s: string, c: char): (k: nat)
    ensures k <= |s|
    ensures k < |s| ==> s[k] == c
    ensures forall i :: 0 <= i < k ==> s[i] != c
  {
    if s == [] then 0 else if s[0] == c then 0 else 1 + IndexOf(s[1..], c)
  }

  /** In `a + b`, when `a` has no `c`, the first `c` is the first `c` of `b`, shifted by `|a|`. */
  lemma IndexOfAppend(a: string, b: string, c: char)
    requires c !in a
    ensures IndexOf(a + b, c) == |a| + IndexOf(b, c)
  {
    assert (a + b)[|a|..] == b;
  }
}
