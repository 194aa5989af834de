/**
  The PHP string built-ins the controller relies on (`strtolower`,
  `str_contains`, `trim`, `empty`), on ASCII text.
*/
module PhpStrings {

  /** `strtolower` on one character: only 'A'..'Z' change. */
  function LowerChar(c: char): char {
    if 'A' <= c <= 'Z' then (c as int - 'A' as int + 'a' as int) as char else c
  }

  /** `strtolower`: ASCII lower-casing, character by character. */
  function Lower(s: string): (r: string)
    ensures |r| == |s|
    ensures forall i :: 0 <= i < |s| ==> !('A' <= r[i] <= 'Z')
    ensures forall i :: 0 <= i < |s| && !('A' <= s[i] <= 'Z') ==> r[i] == s[i]
    ensures forall i :: 0 <= i < |s| && 'A' <= s[i] <= 'Z' ==> r[i] as int - s[i] as int == 'a' as int - 'A' as int
  {
    seq(|s|, i requires 0 <= i < |s| => LowerChar(s[i]))
  }

  /** Lower-casing twice is lower-casing once. */
  lemma LowerIdempotent(s: string)
    ensures Lower(Lower(s)) == Lower(s)
  {
  }

  predicate StartsWith(s: string, prefix: string) {
    |prefix| <= |s| && s[..|prefix|] == prefix
  }

  /** `str_contains`: the needle occurs somewhere in the haystack; the empty needle occurs in every haystack. */
  predicate Contains(haystack: string, needle: string): (r: bool)
    ensures needle == [] ==> r
    ensures r ==> |needle| <= |haystack|
    ensures StartsWith(haystack, needle) ==> r
    decreases |haystack|
  {
    StartsWith(haystack, needle) || (|haystack| > 0 && Contains(haystack[1..], needle))
  }

  /** The needle occurs in the haystack starting at index i. */
  predicate OccursAt(haystack: string, needle: string, i: int) {
    0 <= i && i + |needle| <= |haystack| && haystack[i..i + |needle|] == needle
  }

  /** `Contains` is exactly "occurs at some index". */
  lemma {:induction false} ContainsIffOccurs(haystack: string, needle: string)
    ensures Contains(haystack, needle) <==> exists i :: OccursAt(haystack, needle, i)
    decreases |haystack|
  {
    if StartsWith(haystack, needle) {
      assert OccursAt(haystack, needle, 0);
    } else if |haystack| > 0 {
      var tail := haystack[1..];
      ContainsIffOccurs(tail, needle);
      if Contains(tail, needle) {
        var i :| OccursAt(tail, needle, i);
        assert tail[i..i + |needle|] == haystack[i + 1..i + 1 + |needle|];
        assert OccursAt(haystack, needle, i + 1);
      } else {
        assert !OccursAt(haystack, needle, 0) by {
          if |needle| <= |haystack| {
            assert haystack[..|needle|] == haystack[0..|needle|];
          }
        }
        forall i | 0 < i && OccursAt(haystack, needle, i)
          ensures OccursAt(tail, needle, i - 1)
        {
          assert tail[i - 1..i - 1 + |needle|] == haystack[i..i + |needle|];
        }
      }
    }
  }

  /** A needle found at some index is contained. */
  lemma ContainsWhereOccurs(haystack: string, needle: string, i: int)
    requires OccursAt(haystack, needle, i)
    ensures Contains(haystack, needle)
  {
    ContainsIffOccurs(haystack, needle);
  }

  /** A needle whose first two characters never stand side by side in the haystack is not contained. */
  lemma NotContainedWithoutOpeningPair(haystack: string, needle: string)
    requires |needle| >= 2
    requires forall i :: 0 <= i < |haystack| - 1 ==> !(haystack[i] == needle[0] && haystack[i + 1] == needle[1])
    ensures !Contains(haystack, needle)
  {
    ContainsIffOccurs(haystack, needle);
  }

  /** Nothing but the empty needle occurs in the empty haystack. */
  lemma ContainsInEmpty(needle: string)
    ensures Contains([], needle) <==> needle == []
  {
  }

  /** The characters PHP's `trim` strips by default: space, tab, newline, carriage return, NUL and vertical tab. */
  predicate IsTrimmable(c: char) {
    c == ' ' || c == '\t' || c == '\n' || c == '\r' || c as int == 0 || c as int == 11
  }

  /** Strips trimmable characters from the front: the result is a suffix and all that was dropped is trimmable. */
  function TrimLeft(s: string): (r: string)
    ensures |r| <= |s| && r == s[|s| - |r|..]
    ensures forall k :: 0 <= k < |s| - |r| ==> IsTrimmable(s[k])
    ensures r != [] ==> !IsTrimmable(r[0])
    decreases |s|
  {
    if |s| > 0 && IsTrimmable(s[0]) then TrimLeft(s[1..]) else s
  }

  /** Strips trimmable characters from the back: the result is a prefix and all that was dropped is trimmable. */
  function TrimRight(s: string): (r: string)
    ensures |r| <= |s| && r == s[..|r|]
    ensures forall k :: |r| <= k < |s| ==> IsTrimmable(s[k])
    ensures r != [] ==> !IsTrimmable(r[|r| - 1])
    decreases |s|
  {
    if |s| > 0 && IsTrimmable(s[|s| - 1]) then TrimRight(s[..|s| - 1]) else s
  }

  /**
    `trim`: the slice of s left once trimmable characters are stripped from both ends.
    The result is empty exactly when s consists of trimmable characters only.
  */
  function Trim(s: string): (r: string)
    ensures exists i, j :: TrimmedSlice(s, r, i, j)
    ensures r != [] ==> !IsTrimmable(r[0]) && !IsTrimmable(r[|r| - 1])
    ensures r == [] <==> forall k :: 0 <= k < |s| ==> IsTrimmable(s[k])
  {
    var left := TrimLeft(s);
    var r := TrimRight(left);
    TrimBothEnds(s, left, r);
    r
  }

  /** r is s[i..j], and everything before i and from j on is trimmable. */
  predicate TrimmedSlice(s: string, r: string, i: int, j: int) {
    0 <= i <= j <= |s| && r == s[i..j] &&
    (forall k :: 0 <= k < i ==> IsTrimmable(s[k])) &&
    (forall k :: j <= k < |s| ==> IsTrimmable(s[k]))
  }

  /** What TrimLeft then TrimRight promise, put together. */
  lemma TrimBothEnds(s: string, left: string, r: string)
    requires |left| <= |s| && left == s[|s| - |left|..]
    requires forall k :: 0 <= k < |s| - |left| ==> IsTrimmable(s[k])
    requires left != [] ==> !IsTrimmable(left[0])
    requires |r| <= |left| && r == left[..|r|]
    requires forall k :: |r| <= k < |left| ==> IsTrimmable(left[k])
    ensures TrimmedSlice(s, r, |s| - |left|, |s| - |left| + |r|)
    ensures r == [] <==> forall k :: 0 <= k < |s| ==> IsTrimmable(s[k])
  {
    var i := |s| - |left|;
    var j := i + |r|;
    assert r == s[i..j];
    forall k | j <= k < |s|
      ensures IsTrimmable(s[k])
    {
      assert s[k] == left[k - i];
    }
    if r != [] {
      assert r[0] == s[i];
    }
  }

  /** PHP's `empty` on a string: true for "" and for "0". */
  predicate PhpEmpty(s: string): (r: bool)
    ensures r ==> |s| <= 1
    ensures |s| == 1 ==> (r <==> s[0] == '0')
    ensures |s| == 0 ==> r
  {
    s == "" || s == "0"
  }
}
