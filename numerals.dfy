/**
 * Rendering of natural numbers in base 10 and base 16, as JavaScript's
 * `String(n)` and `n.toString(16)` do (lower-case digits, no leading zero),
 * and the parsing that inverts it.
 */
module Numerals {

  /** The digit character for `d`, lower-case for 10..15. */
  function DigitChar(d: nat): (c: char)
    requires d < 16
  {
    if d < 10 then ('0' as int + d) as char else ('a' as int + d - 10) as char
  }

  predicate IsDigitChar(c: char, base: nat) {
    || ('0' <= c <= '9' && c as int - '0' as int < base)
    || ('a' <= c <= 'f' && c as int - 'a' as int + 10 < base)
  }

  function DigitValue(c: char): nat {
    if '0' <= c <= '9' then c as int - '0' as int
    else if 'a' <= c <= 'f' then c as int - 'a' as int + 10
    else 0
  }

  /** Non-empty, only digits of `base`, and no leading zero unless it is "0". */
  predicate Canonical(s: string, base: nat) {
    && s != []
    && (forall i :: 0 <= i < |s| ==> IsDigitChar(s[i], base))
    && (|s| == 1 || s[0] != '0')
  }

  /** `n` written in `base`, most significant digit first. */
  function ToBase(n: nat, base: nat): string
    requires 2 <= base <= 16
    decreases n
  {
    if n < base then [DigitChar(n)] else ToBase(n / base, base) + [DigitChar(n % base)]
  }

  /** The value of the digit string `s` in `base`. */
  function FromBase(s: string, base: nat): nat
    decreases |s|
  {
    if s == [] then 0 else FromBase(s[..|s| - 1], base) * base + DigitValue(s[|s| - 1])
  }

  /** `String(n)` for a non-negative integer. */
  function Decimal(n: nat): string {
    ToBase(n, 10)
  }

  lemma DigitRoundTrip(d: nat, base: nat)
    requires d < base <= 16
    ensures IsDigitChar(DigitChar(d), base) && DigitValue(DigitChar(d)) == d
    ensures d > 0 ==> DigitChar(d) != '0'
  {
  }

  lemma DivMod(n: nat, base: nat)
    requires 2 <= base <= n
    ensures 0 < n / base < n && n % base < base && (n / base) * base + n % base == n
  {
  }

  /** ToBase writes a canonical numeral that parses back to the number. */
  lemma {:induction false} ToBaseRoundTrip(n: nat, base: nat)
    requires 2 <= base <= 16
    ensures Canonical(ToBase(n, base), base)
    ensures FromBase(ToBase(n, base), base) == n
    ensures n > 0 ==> ToBase(n, base)[0] != '0'
  {
    var s := ToBase(n, base);
    if n < base {
      DigitRoundTrip(n, base);
      assert s[..|s| - 1] == [];
    } else {
      var q, r := n / base, n % base;
      DivMod(n, base);
      DigitRoundTrip(r, base);
      ToBaseRoundTrip(q, base);
      var p := ToBase(q, base);
      assert s == p + [DigitChar(r)];
      assert s[..|s| - 1] == p;
      assert FromBase(s, base) == q * base + r;
      assert forall i :: 0 <= i < |p| ==> s[i] == p[i];
    }
  }

  /** Two numbers with the same rendering are equal. */
  lemma ToBaseInjective(m: nat, n: nat, base: nat)
    requires 2 <= base <= 16
    requires ToBase(m, base) == ToBase(n, base)
    ensures m == n
  {
    ToBaseRoundTrip(m, base);
    ToBaseRoundTrip(n, base);
  }
}
