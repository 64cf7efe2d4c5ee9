/**
 * Python's notion of whitespace and of `str.strip()` with no argument, over
 * Unicode scalar values. `IsSpace` is the exact set of characters for which
 * Python 3's `str.isspace()` holds.
 */
module Text {

  /** `c.isspace()` in Python 3. */
  predicate IsSpace(c: char)
  {
    || ('\U{9}' <= c <= '\U{D}')        // tab, line feed, vertical tab, form feed, carriage return
    || ('\U{1C}' <= c <= '\U{20}')      // file/group/record/unit separators and space
    || c == '\U{85}' || c == '\U{A0}' || c == '\U{1680}'
    || ('\U{2000}' <= c <= '\U{200A}')
    || c == '\U{2028}' || c == '\U{2029}' || c == '\U{202F}' || c == '\U{205F}' || c == '\U{3000}'
  }

  predicate AllSpace(s: string)
  {
    forall k :: 0 <= k < |s| ==> IsSpace(s[k])
  }

  /** A string that `strip()` leaves as it is: it neither starts nor ends with whitespace. */
  predicate IsStripped(s: string)
  {
    s == [] || (!IsSpace(s[0]) && !IsSpace(s[|s| - 1]))
  }

  /** The first index at or after `i` that holds no whitespace, or `|s|`. */
  function SkipSpace(s: string, i: nat): (k: nat)
    requires i <= |s|
    ensures i <= k <= |s|
    ensures forall m :: i <= m < k ==> IsSpace(s[m])
    ensures k < |s| ==> !IsSpace(s[k])
    decreases |s| - i
  {
    if i == |s| || !IsSpace(s[i]) then i else SkipSpace(s, i + 1)
  }

  /** The smallest `k <= j` such that `s[k..j]` is all whitespace. */
  function SkipSpaceBack(s: string, j: nat): (k: nat)
    requires j <= |s|
    ensures k <= j
    ensures forall m :: k <= m < j ==> IsSpace(s[m])
    ensures k > 0 ==> !IsSpace(s[k - 1])
  {
    if j == 0 || !IsSpace(s[j - 1]) then j else SkipSpaceBack(s, j - 1)
  }

  /** `s.lstrip()`: the suffix that starts at the first non-whitespace character. */
  function StripLeading(s: string): (r: string)
    ensures |r| <= |s| && r == s[|s| - |r|..]
    ensures AllSpace(s[..|s| - |r|])
    ensures r == [] || !IsSpace(r[0])
  {
    var k := SkipSpace(s, 0);
    assert forall m :: 0 <= m < k ==> s[..k][m] == s[m];
    s[k..]
  }

  /** `s.rstrip()`: the prefix that ends at the last non-whitespace character. */
  function StripTrailing(s: string): (r: string)
    ensures |r| <= |s| && r == s[..|r|]
    ensures AllSpace(s[|r|..])
    ensures r == [] || !IsSpace(r[|r| - 1])
  {
    var k := SkipSpaceBack(s, |s|);
    assert forall m :: k <= m < |s| ==> s[k..][m - k] == s[m];
    s[..k]
  }

  /** `s.strip()`: `s` without its leading and trailing whitespace. */
  function Strip(s: string): (r: string)
    ensures IsStripped(r)
    ensures r == [] <==> AllSpace(s)
  {
    var left := StripLeading(s);
    var r := StripTrailing(left);
    StripEmptyIffBlank(s, left, r);
    assert r != [] ==> r[0] == left[0];
    r
  }

  /** What `strip()` removes is whitespace and nothing else: the result is the
      infix of `s` between a whitespace-only prefix and a whitespace-only suffix. */
  lemma StripRemovesOnlySpace(s: string)
    ensures var r, i := Strip(s), |s| - |StripLeading(s)|;
      0 <= i <= |s| - |r| && r == s[i..i + |r|] && AllSpace(s[..i]) && AllSpace(s[i + |r|..])
  {
    var left := StripLeading(s);
    var r := StripTrailing(left);
    var i := |s| - |left|;
    assert Strip(s) == r;
    assert AllSpace(s[..i]);
    StripIsInfix(s, left, r);
  }

  lemma StripIsInfix(s: string, left: string, r: string)
    requires |left| <= |s| && left == s[|s| - |left|..]
    requires |r| <= |left| && r == left[..|r|] && AllSpace(left[|r|..])
    ensures var i := |s| - |left|; r == s[i..i + |r|] && AllSpace(s[i + |r|..])
  {
    var i := |s| - |left|;
    assert forall k :: 0 <= k < |r| ==> r[k] == s[i + k];
    assert forall k :: i + |r| <= k < |s| ==> s[k] == left[|r|..][k - i - |r|];
  }

  lemma StripEmptyIffBlank(s: string, left: string, r: string)
    requires left == StripLeading(s) && r == StripTrailing(left)
    ensures r == [] <==> AllSpace(s)
  {
    var i := |s| - |left|;
    if r == [] {
      if left != [] {
        assert false;
      }
      forall k | 0 <= k < |s| ensures IsSpace(s[k]) {
        assert s[k] == s[..i][k];
      }
    } else {
      assert s[i] == left[0];
    }
  }

  /** Stripping a string that has no surrounding whitespace gives it back. */
  lemma StripStripped(s: string)
    requires IsStripped(s)
    ensures Strip(s) == s
  {
    if s != [] {
      assert StripLeading(s) == s;
      assert StripTrailing(s) == s;
    }
  }
}
