/** The two JavaScript string primitives the gateway relies on:
    `String.prototype.includes` (substring test) and
    `String.prototype.trim` (whitespace stripping at both ends). */
module Text {

  /** `s.includes(sub)`: some suffix of `s` starts with `sub`. */
  predicate Contains(s: string, sub: string)
    decreases |s|
  {
    sub <= s || (|s| > 0 && Contains(s[1..], sub))
  }

  /** `sub` occurs in `s` starting at index `k`. */
  predicate OccursAt(s: string, sub: string, k: int)
  {
    0 <= k && k + |sub| <= |s| && s[k..k + |sub|] == sub
  }

  /** `includes` is the positional substring relation, both directions. */
  lemma {:induction false} ContainsIffOccurs(s: string, sub: string)
    ensures Contains(s, sub) <==> exists k :: OccursAt(s, sub, k)
    decreases |s|
  {
    if sub <= s {
      assert OccursAt(s, sub, 0);
    } else if |s| == 0 {
      forall k | OccursAt(s, sub, k)
        ensures false
      {
      }
    } else {
      ContainsIffOccurs(s[1..], sub);
      if Contains(s[1..], sub) {
        var k :| OccursAt(s[1..], sub, k);
        assert s[k + 1..k + 1 + |sub|] == s[1..][k..k + |sub|];
        assert OccursAt(s, sub, k + 1);
      }
      if k :| OccursAt(s, sub, k) {
        assert k != 0;
        assert s[1..][k - 1..k - 1 + |sub|] == s[k..k + |sub|];
        assert OccursAt(s[1..], sub, k - 1);
      }
    }
  }

  /** A string that holds `sub` somewhere still holds it after text is
      added on either side. */
  lemma ContainsInContext(before: string, s: string, after: string, sub: string)
    requires Contains(s, sub)
    ensures Contains(before + s + after, sub)
  {
    ContainsIffOccurs(s, sub);
    var k :| OccursAt(s, sub, k);
    var t := before + s + after;
    assert t[|before| + k..|before| + k + |sub|] == s[k..k + |sub|];
    assert OccursAt(t, sub, |before| + k);
    ContainsIffOccurs(t, sub);
  }

  /** Every string contains itself. */
  lemma ContainsSelf(s: string)
    ensures Contains(s, s)
  {
  }

  /** ECMAScript WhiteSpace and LineTerminator code points, the set that
      `String.prototype.trim` removes. */
  predicate IsSpace(c: char)
  {
    || c == '\t' || c == '\n' || c == '\U{000B}' || c == '\U{000C}' || c == '\r'
    || c == ' ' || c == '\U{00A0}' || c == '\U{1680}'
    || ('\U{2000}' <= c <= '\U{200A}')
    || c == '\U{2028}' || c == '\U{2029}' || c == '\U{202F}' || c == '\U{205F}'
    || c == '\U{3000}' || c == '\U{FEFF}'
  }

  predicate AllSpace(s: string)
  {
    forall i :: 0 <= i < |s| ==> IsSpace(s[i])
  }

  /** The position of the first non-whitespace character at or after `i`
      (`|s|` when there is none): what `trim` drops at the front. */
  function SkipSpaceFrom(s: string, i: nat): (j: nat)
    requires i <= |s|
    ensures i <= j <= |s|
    ensures forall k :: i <= k < j ==> IsSpace(s[k])
    ensures j < |s| ==> !IsSpace(s[j])
    decreases |s| - i
  {
    if i < |s| && IsSpace(s[i]) then SkipSpaceFrom(s, i + 1) else i
  }

  /** The end of `s[..j]` once the whitespace before `j`, down to `lo`, is
      dropped: what `trim` drops at the back. */
  function SkipSpaceBack(s: string, lo: nat, j: nat): (e: nat)
    requires lo <= j <= |s|
    ensures lo <= e <= j
    ensures forall k :: e <= k < j ==> IsSpace(s[k])
    ensures lo < e ==> !IsSpace(s[e - 1])
    decreases j
  {
    if lo < j && IsSpace(s[j - 1]) then SkipSpaceBack(s, lo, j - 1) else j
  }

  /** `s.trim()`: empty exactly when `s` is all whitespace; otherwise it
      neither starts nor ends with whitespace. */
  function Trim(s: string): (r: string)
    ensures r == [] <==> AllSpace(s)
    ensures r != [] ==> !IsSpace(r[0]) && !IsSpace(r[|r| - 1])
    ensures |r| <= |s|
  {
    var b := SkipSpaceFrom(s, 0);
    var e := SkipSpaceBack(s, b, |s|);
    assert b < |s| ==> b < e;
    s[b..e]
  }

  /** `trim` removes only the whitespace at the two ends: the result is the
      stretch of `s` between an all-whitespace prefix and an all-whitespace
      suffix. With the ends of a non-empty result not being whitespace
      (the contract of `Trim`), those prefix and suffix are the longest. */
  lemma {:induction false} TrimKeepsMiddle(s: string)
    ensures exists b, e :: 0 <= b <= e <= |s| && Trim(s) == s[b..e] && AllSpace(s[..b]) && AllSpace(s[e..])
  {
    var b := SkipSpaceFrom(s, 0);
    var e := SkipSpaceBack(s, b, |s|);
    assert Trim(s) == s[b..e];
    forall k | 0 <= k < b
      ensures IsSpace(s[..b][k])
    {
      assert s[..b][k] == s[k];
    }
    forall k | 0 <= k < |s| - e
      ensures IsSpace(s[e..][k])
    {
      assert s[e..][k] == s[e + k];
    }
  }
}
