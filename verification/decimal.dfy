/** Decimal integers as the standard library prints and parses them (`strconv.Itoa`, `Atoi`, `ParseInt`). */
module Decimal {
  import opened Domain

  predicate IsDigit(c: char) { '0' <= c <= '9' }

  predicate AllDigits(s: string) { forall i :: 0 <= i < |s| ==> IsDigit(s[i]) }

  function DigitChar(d: nat): (c: char)
    requires d < 10
    ensures IsDigit(c) && c as int - '0' as int == d
  {
    ('0' as int + d) as char
  }

  function PrintNat(n: nat): (s: string)
    ensures s != "" && AllDigits(s)
  {
    if n < 10 then [DigitChar(n)] else PrintNat(n / 10) + [DigitChar(n % 10)]
  }

  function Itoa(n: int): string {
    if n < 0 then "-" + PrintNat(-n) else PrintNat(n)
  }

  function Magnitude(s: string): nat
    requires AllDigits(s)
  {
    if s == "" then 0
    else 10 * Magnitude(s[..|s| - 1]) + (s[|s| - 1] as int - '0' as int)
  }

  /** An optional sign, at least one digit, nothing else, and a value of the 64-bit range. */
  function Atoi(s: string): Option<int> {
    var signed := s != "" && (s[0] == '-' || s[0] == '+');
    var digits := if signed then s[1..] else s;
    if digits == "" || !AllDigits(digits) then None
    else
      var m: int := Magnitude(digits);
      var n := if signed && s[0] == '-' then -m else m;
      if IsInt64(n) then Some(n) else None
  }

  lemma {:induction false} MagnitudePrints(n: nat)
    ensures Magnitude(PrintNat(n)) == n
  {
    if n < 10 {
      assert [DigitChar(n)][..0] == "";
    } else {
      MagnitudePrints(n / 10);
      var s := PrintNat(n / 10) + [DigitChar(n % 10)];
      assert s[..|s| - 1] == PrintNat(n / 10);
    }
  }

  /** Parsing undoes printing on the whole 64-bit range. */
  lemma AtoiItoa(n: int)
    requires -9_223_372_036_854_775_808 <= n <= 9_223_372_036_854_775_807
    ensures Atoi(Itoa(n)) == Some(n)
  {
    var digits := PrintNat(if n < 0 then -n else n);
    MagnitudePrints(if n < 0 then -n else n);
    var s := Itoa(n);
    if n < 0 {
      assert s[0] == '-' && s[1..] == digits;
    } else {
      assert IsDigit(s[0]) && s == digits;
    }
  }

  /** Numerals are decimal: a digit prints as itself, and appending one to a numeral makes ten times the number plus the
      digit. */
  lemma NumeralsAreDecimal(n: nat, d: nat)
    requires d < 10
    ensures Itoa(d) == ["0123456789"[d]]
    ensures n > 0 ==> Itoa(10 * n + d) == Itoa(n) + Itoa(d)
  {
    assert (10 * n + d) / 10 == n && (10 * n + d) % 10 == d;
  }

  /** A numeral that parses holds signs and digits only. */
  lemma AtoiAlphabet(s: string)
    requires Atoi(s).Some?
    ensures forall i :: 0 <= i < |s| ==> IsDigit(s[i]) || s[i] == '-' || s[i] == '+'
  {
    if s[0] == '-' || s[0] == '+' {
      forall i | 0 < i < |s| ensures IsDigit(s[i]) {
        assert s[1..][i - 1] == s[i];
      }
    }
  }
}
