/**
 * The string operations the views and the repository rely on: `toLowerCase`,
 * `includes`, `Number.prototype.toString` on a non-negative integer and
 * `split('.').pop()`.
 */
module Text {

  /** `c.toLowerCase()` for ASCII: 'A'..'Z' become 'a'..'z', everything else is kept. */
  function LowerChar(c: char): (d: char)
    ensures 'A' <= c <= 'Z' ==> 'a' <= d <= 'z' && d as int - c as int == 32
    ensures !('A' <= c <= 'Z') ==> d == c
  {
    if 'A' <= c <= 'Z' then (c as int + 32) as char else c
  }

  /** `s.toLowerCase()`, character by character. */
  function ToLower(s: string): (r: string)
    ensures |r| == |s|
    ensures forall i :: 0 <= i < |s| ==> r[i] == LowerChar(s[i])
  {
    if s == [] then [] else [LowerChar(s[0])] + ToLower(s[1..])
  }

  /** `s.includes(t)`: `t` occurs in `s` as a contiguous piece. */
  predicate Contains(s: string, t: string)
    ensures t <= s ==> Contains(s, t)
    ensures Contains(s, t) ==> |t| <= |s|
    decreases |s|
  {
    t <= s || (s != [] && Contains(s[1..], t))
  }

  /** `Contains` agrees with "`t` is a prefix of some suffix of `s`". */
  lemma {:induction false} ContainsIffSuffix(s: string, t: string)
    ensures Contains(s, t) <==> exists i :: 0 <= i <= |s| && t <= s[i..]
  {
    if t <= s {
      assert s[0..] == s;
    } else if s != [] {
      ContainsIffSuffix(s[1..], t);
      if exists i :: 0 <= i <= |s| && t <= s[i..] {
        var i :| 0 <= i <= |s| && t <= s[i..];
        assert i != 0 && s[1..][i - 1..] == s[i..];
      }
      if Contains(s[1..], t) {
        var i :| 0 <= i <= |s[1..]| && t <= s[1..][i..];
        assert s[1..][i..] == s[i + 1..];
      }
    } else {
      assert forall i :: 0 <= i <= |s| ==> s[i..] == [];
    }
  }

  /** Every piece found in a string of decimal digits consists of digits. */
  lemma {:induction false} ContainedInDigits(s: string, t: string)
    requires IsDigits(s) && Contains(s, t)
    ensures IsDigits(t)
  {
    if t <= s {
      assert forall i :: 0 <= i < |t| ==> t[i] == s[i];
    } else {
      ContainedInDigits(s[1..], t);
    }
  }

  /** Every character is one of '0'..'9'. */
  predicate IsDigits(s: string) {
    forall i :: 0 <= i < |s| ==> '0' <= s[i] <= '9'
  }

  /** Lower-casing leaves a string of digits as it is and only a string of digits becomes one. */
  lemma DigitsUnderLower(s: string)
    ensures IsDigits(ToLower(s)) <==> IsDigits(s)
    ensures IsDigits(s) ==> ToLower(s) == s
  {
    if IsDigits(ToLower(s)) {
      forall i | 0 <= i < |s| ensures '0' <= s[i] <= '9' {
        assert ToLower(s)[i] == LowerChar(s[i]);
      }
    }
  }

  /** Lower-casing twice is lower-casing once. */
  lemma ToLowerIdempotent(s: string)
    ensures ToLower(ToLower(s)) == ToLower(s)
  {
  }

  /** The digit character of `d`. */
  function DigitChar(d: nat): (c: char)
    requires d < 10
    ensures '0' <= c <= '9' && c as int - '0' as int == d
  {
    ('0' as int + d) as char
  }

  /** `n.toString()` for a non-negative integer: its decimal digits, most significant first. */
  function NatToString(n: nat): (r: string)
    ensures 1 <= |r| && IsDigits(r)
    ensures r[|r| - 1] == DigitChar(n % 10)
    ensures n < 10 <==> |r| == 1
  {
    if n < 10 then [DigitChar(n)] else NatToString(n / 10) + [DigitChar(n % 10)]
  }

  /** Distinct numbers print differently. */
  lemma {:induction false} NatToStringInjective(a: nat, b: nat)
    requires NatToString(a) == NatToString(b)
    ensures a == b
  {
    var sa, sb := NatToString(a), NatToString(b);
    assert a % 10 == b % 10 by {
      assert sa[|sa| - 1] == sb[|sb| - 1];
    }
    if 10 <= a {
      assert sa[..|sa| - 1] == NatToString(a / 10);
      assert sb[..|sb| - 1] == NatToString(b / 10);
      NatToStringInjective(a / 10, b / 10);
    }
  }

  /**
   * `s.split('.').pop()`: the part of `s` after its last '.', or the whole
   * of `s` when it has none.
   */
  function LastSegment(s: string): (r: string)
    ensures '.' !in r
    ensures |r| <= |s| && s[|s| - |r|..] == r
    ensures |r| < |s| ==> s[|s| - |r| - 1] == '.'
  {
    if s == [] then []
    else if s[|s| - 1] == '.' then []
    else LastSegment(s[..|s| - 1]) + [s[|s| - 1]]
  }
}
