/**
  The few Python string operations the bot and the adapter rely on:
  `s.startswith(p)`, `t in s`, `any(t in s for t in ts)` and `str(n)` for an int.
 */
module Strings {

  /** Python's `s.startswith(prefix)`; every string starts with "". */
  predicate StartsWith(s: string, prefix: string) {
    |prefix| <= |s| && s[..|prefix|] == prefix
  }

  /** `t` occurs in `s` at position `i`. */
  ghost predicate OccursAt(s: string, t: string, i: int) {
    0 <= i && i + |t| <= |s| && s[i..i + |t|] == t
  }

  /** Reference meaning of Python's `t in s` on strings. */
  ghost predicate Occurs(s: string, t: string) {
    exists i :: OccursAt(s, t, i)
  }

  /** Python's `t in s`, computed by trying every start position in turn. */
  function Contains(s: string, t: string): (r: bool)
    decreases |s|
  {
    if |t| > |s| then false
    else if s[..|t|] == t then true
    else Contains(s[1..], t)
  }

  /** `Contains` is exactly substring occurrence, in both directions. */
  lemma {:induction false} ContainsIsOccurs(s: string, t: string)
    ensures Contains(s, t) <==> Occurs(s, t)
    decreases |s|
  {
    if |t| > |s| {
      assert forall i :: !OccursAt(s, t, i);
    } else if s[..|t|] == t {
      assert OccursAt(s, t, 0);
    } else {
      ContainsIsOccurs(s[1..], t);
      if Occurs(s, t) {
        var i :| OccursAt(s, t, i);
        assert i != 0;
        assert s[1..][i - 1..i - 1 + |t|] == s[i..i + |t|];
        assert OccursAt(s[1..], t, i - 1);
      }
      if Occurs(s[1..], t) {
        var j :| OccursAt(s[1..], t, j);
        assert s[1..][j..j + |t|] == s[j + 1..j + 1 + |t|];
        assert OccursAt(s, t, j + 1);
      }
    }
  }

  /** A needle holding a character that the string lacks does not occur in it. */
  lemma AbsentCharNotContained(s: string, t: string, c: char)
    requires c in t && c !in s
    ensures !Contains(s, t)
  {
    ContainsIsOccurs(s, t);
    forall i | 0 <= i && i + |t| <= |s|
      ensures !OccursAt(s, t, i)
    {
      var j :| 0 <= j < |t| && t[j] == c;
      assert s[i..i + |t|][j] == s[i + j];
    }
  }

  /** Python's `any(t in s for t in needles)`, tried left to right. */
  function AnyContains(s: string, needles: seq<string>): (r: bool)
  {
    |needles| > 0 && (Contains(s, needles[0]) || AnyContains(s, needles[1..]))
  }

  /** `AnyContains` holds exactly when some needle of the list occurs in `s`. */
  lemma {:induction false} AnyContainsIff(s: string, needles: seq<string>)
    ensures AnyContains(s, needles) <==> exists k :: 0 <= k < |needles| && Contains(s, needles[k])
  {
    if |needles| > 0 {
      AnyContainsIff(s, needles[1..]);
      if !Contains(s, needles[0]) && exists k :: 0 <= k < |needles| && Contains(s, needles[k]) {
        var k :| 0 <= k < |needles| && Contains(s, needles[k]);
        assert needles[1..][k - 1] == needles[k];
      }
    }
  }

  function DigitChar(d: nat): (c: char)
    requires d < 10
    ensures '0' <= c <= '9'
  {
    "0123456789"[d]
  }

  /** The decimal digits of `n`, most significant first, without leading zeros. */
  function NatDigits(n: nat): (r: string)
    ensures |r| > 0
    ensures forall i :: 0 <= i < |r| ==> '0' <= r[i] <= '9'
    ensures n < 10 <==> |r| == 1
    decreases n
  {
    if n < 10 then [DigitChar(n)] else NatDigits(n / 10) + [DigitChar(n % 10)]
  }

  lemma DigitCharInjective(a: nat, b: nat)
    requires a < 10 && b < 10 && DigitChar(a) == DigitChar(b)
    ensures a == b
  {
  }

  /** Different numbers have different digit strings. */
  lemma {:induction false} NatDigitsInjective(n: nat, m: nat)
    requires NatDigits(n) == NatDigits(m)
    ensures n == m
    decreases n
  {
    var r := NatDigits(n);
    if n < 10 || m < 10 {
      assert n < 10 && m < 10;
      DigitCharInjective(n, m);
    } else {
      assert r[|r| - 1] == DigitChar(n % 10) == DigitChar(m % 10);
      DigitCharInjective(n % 10, m % 10);
      assert NatDigits(n / 10) == r[..|r| - 1] == NatDigits(m / 10);
      NatDigitsInjective(n / 10, m / 10);
    }
  }

  /** Python's `str(n)` (and an f-string field) for an int: an optional minus sign
      and at least one digit, hence never empty and never containing '/'. */
  function DecimalString(n: int): (r: string)
    ensures |r| > 0 && '/' !in r
    ensures n >= 0 ==> forall i :: 0 <= i < |r| ==> '0' <= r[i] <= '9'
    ensures n < 0 ==> r[0] == '-' && forall i :: 1 <= i < |r| ==> '0' <= r[i] <= '9'
  {
    if n < 0 then "-" + NatDigits(-n) else NatDigits(n)
  }

  /** Different ints print differently. */
  lemma DecimalStringInjective(n: int, m: int)
    requires DecimalString(n) == DecimalString(m)
    ensures n == m
  {
    var r := DecimalString(n);
    if n < 0 && m < 0 {
      assert NatDigits(-n) == r[1..] == NatDigits(-m);
      NatDigitsInjective(-n, -m);
    } else if n >= 0 && m >= 0 {
      NatDigitsInjective(n, m);
    }
  }
}
