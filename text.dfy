/** The small part of JavaScript's string behaviour the scene relies on:
    `Number.prototype.toString` on a nonnegative integer, `String.prototype.padStart`
    and `String.prototype.includes`. */
module Text {

  predicate IsDigit(c: char) {
    '0' <= c <= '9'
  }

  predicate IsDigits(s: string) {
    forall k :: 0 <= k < |s| ==> IsDigit(s[k])
  }

  function DigitChar(d: nat): (c: char)
    requires d < 10
    ensures IsDigit(c) && c as int - '0' as int == d
  {
    ('0' as int + d) as char
  }

  function DigitValue(c: char): (d: nat)
    requires IsDigit(c)
    ensures d < 10 && DigitChar(d) == c
  {
    c as int - '0' as int
  }

  /** The number a string of decimal digits denotes (leading zeros allowed). */
  function DigitsValue(s: string): nat
    requires IsDigits(s)
  {
    if s == [] then 0 else DigitsValue(s[..|s| - 1]) * 10 + DigitValue(s[|s| - 1])
  }

  /** `n.toString()` for a nonnegative integer: decimal, no leading zero except for 0 itself. */
  function NatToString(n: nat): (s: string)
    ensures |s| >= 1 && IsDigits(s)
    ensures |s| > 1 ==> s[0] != '0'
    ensures DigitsValue(s) == n
  {
    if n < 10 then [DigitChar(n)]
    else
      var front := NatToString(n / 10);
      var s := front + [DigitChar(n % 10)];
      assert s[..|s| - 1] == front;
      s
  }

  lemma NatToStringLength(n: nat)
    ensures n < 10 <==> |NatToString(n)| == 1
    ensures 10 <= n < 100 <==> |NatToString(n)| == 2
  {
  }

  /** `s.padStart(width, [c])`: prefix copies of `c` until `s` has `width` characters. */
  function PadStart(s: string, width: nat, c: char): (r: string)
    ensures |r| == if |s| >= width then |s| else width
    ensures r[|r| - |s|..] == s
    ensures forall k :: 0 <= k < |r| - |s| ==> r[k] == c
  {
    if |s| >= width then s else seq(width - |s|, _ => c) + s
  }

  /** A run of leading zeros does not change the number that digits denote. */
  lemma {:induction false} LeadingZeros(z: string, s: string)
    requires forall k :: 0 <= k < |z| ==> z[k] == '0'
    requires IsDigits(s)
    ensures IsDigits(z + s) && DigitsValue(z + s) == DigitsValue(s)
  {
    if s == [] {
      assert z + s == z;
      AllZeros(z);
    } else {
      var t := z + s;
      assert t[..|t| - 1] == z + s[..|s| - 1];
      LeadingZeros(z, s[..|s| - 1]);
    }
  }

  lemma {:induction false} AllZeros(z: string)
    requires forall k :: 0 <= k < |z| ==> z[k] == '0'
    ensures IsDigits(z) && DigitsValue(z) == 0
  {
    if z != [] {
      AllZeros(z[..|z| - 1]);
    }
  }

  lemma {:induction false} PadStartDigits(s: string, width: nat)
    requires IsDigits(s)
    ensures IsDigits(PadStart(s, width, '0'))
    ensures DigitsValue(PadStart(s, width, '0')) == DigitsValue(s)
  {
    var r := PadStart(s, width, '0');
    var z := r[..|r| - |s|];
    assert r == z + s;
    LeadingZeros(z, s);
  }

  /** `sub` stands at offset `k` of `s`. */
  ghost predicate OccursAt(s: string, sub: string, k: int) {
    0 <= k && k + |sub| <= |s| && s[k..k + |sub|] == sub
  }

  /** The offsets of `s[1..]` at which `sub` occurs are those of `s` above 0, shifted by one. */
  lemma ShiftOccurrences(s: string, sub: string)
    requires |s| > 0
    ensures (exists k :: OccursAt(s[1..], sub, k)) <==> (exists k :: k > 0 && OccursAt(s, sub, k))
  {
    if k :| OccursAt(s[1..], sub, k) {
      assert s[k + 1..k + 1 + |sub|] == s[1..][k..k + |sub|];
      assert OccursAt(s, sub, k + 1);
    }
    if k :| k > 0 && OccursAt(s, sub, k) {
      assert s[1..][k - 1..k - 1 + |sub|] == s[k..k + |sub|];
      assert OccursAt(s[1..], sub, k - 1);
    }
  }

  /** `s.includes(sub)`: true exactly when `sub` occurs at some offset of `s`. */
  function Includes(s: string, sub: string): (r: bool)
    ensures r <==> exists k :: OccursAt(s, sub, k)
    decreases |s|
  {
    if |s| < |sub| then
      assert forall k :: !OccursAt(s, sub, k);
      false
    else if s[..|sub|] == sub then
      assert OccursAt(s, sub, 0);
      true
    else
      ShiftOccurrences(s, sub);
      assert !OccursAt(s, sub, 0);
      Includes(s[1..], sub)
  }

  /** A string appended at the end is always found. */
  lemma {:induction false} IncludesSuffix(a: string, sub: string)
    ensures Includes(a + sub, sub)
  {
    assert (a + sub)[|a|..|a| + |sub|] == sub;
    assert OccursAt(a + sub, sub, |a|);
  }

  /** A string that lacks the first character of `sub` cannot include it. */
  lemma {:induction false} ExcludesWithoutFirst(s: string, sub: string)
    requires |sub| > 0 && sub[0] !in s
    ensures !Includes(s, sub)
  {
    if k :| OccursAt(s, sub, k) {
      assert false;
    }
  }
}
