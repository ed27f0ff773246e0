/**
 * Decimal text of unsigned integers, as Rust's `to_string` writes it for
 * `u8`, `u16` and `usize`: the shortest digit string, without sign and
 * without leading zeros. `Parse` is its inverse on canonical digit strings.
 */
module Decimal {
  import opened Wrappers

  predicate IsDigit(c: char) {
    '0' <= c <= '9'
  }

  function DigitChar(d: nat): (c: char)
    requires d < 10
    ensures IsDigit(c) && c as int - '0' as int == d
  {
    ('0' as int + d) as char
  }

  function DigitValue(c: char): (d: nat)
    requires IsDigit(c)
    ensures d < 10 && DigitChar(d) == c
  {
    c as int - '0' as int
  }

  predicate AllDigits(s: string) {
    forall i :: 0 <= i < |s| ==> IsDigit(s[i])
  }

  /** A non-empty digit string that starts with '0' only when it is "0". */
  predicate Canonical(s: string) {
    |s| > 0 && AllDigits(s) && (s[0] == '0' ==> |s| == 1)
  }

  /** The number a digit string denotes, most significant digit first. */
  function Value(s: string): nat
    requires AllDigits(s)
    decreases |s|
  {
    if s == [] then 0 else Value(s[..|s| - 1]) * 10 + DigitValue(s[|s| - 1])
  }

  /** `n.to_string()`. */
  function ToDecimal(n: nat): string
    decreases n
  {
    if n < 10 then [DigitChar(n)] else ToDecimal(n / 10) + [DigitChar(n % 10)]
  }

  function Parse(s: string): Option<nat> {
    if Canonical(s) then Some(Value(s)) else None
  }

  /** Decimal text is canonical and denotes the number it was written from. */
  lemma {:induction false} ToDecimalCanonical(n: nat)
    ensures Canonical(ToDecimal(n)) && Value(ToDecimal(n)) == n
    ensures n < 10 <==> |ToDecimal(n)| == 1
    decreases n
  {
    if n >= 10 {
      ToDecimalCanonical(n / 10);
      var p := ToDecimal(n / 10);
      var s := p + [DigitChar(n % 10)];
      assert s[..|s| - 1] == p;
      assert s[0] == p[0];
    }
  }

  lemma ParseToDecimal(n: nat)
    ensures Parse(ToDecimal(n)) == Some(n)
  {
    ToDecimalCanonical(n);
  }

  /** A canonical digit string with more than one digit denotes at least 10. */
  lemma {:induction false} ValueLowerBound(s: string)
    requires Canonical(s) && |s| > 1
    ensures Value(s) >= 10
    decreases |s|
  {
    var p := s[..|s| - 1];
    assert p[0] == s[0];
    if |p| > 1 {
      ValueLowerBound(p);
    } else {
      assert p == [s[0]];
      assert Value(p) == Value(p[..0]) * 10 + DigitValue(p[0]);
      assert p[..0] == [];
    }
  }

  /** Every canonical digit string is the decimal text of its value. */
  lemma {:induction false} ToDecimalOfValue(s: string)
    requires Canonical(s)
    ensures ToDecimal(Value(s)) == s
    decreases |s|
  {
    var p := s[..|s| - 1];
    var d := DigitValue(s[|s| - 1]);
    if |s| == 1 {
      assert p == [];
      assert [s[0]] == s;
    } else {
      assert p[0] == s[0];
      if |p| > 1 {
        ValueLowerBound(p);
      } else {
        assert p == [s[0]];
        assert Value(p) == Value(p[..0]) * 10 + DigitValue(p[0]);
        assert p[..0] == [];
      }
      ToDecimalOfValue(p);
      var v := Value(s);
      assert v == Value(p) * 10 + d;
      assert v / 10 == Value(p) && v % 10 == d;
      assert s == p + [s[|s| - 1]];
    }
  }

  lemma ToDecimalInjective(m: nat, n: nat)
    ensures ToDecimal(m) == ToDecimal(n) ==> m == n
  {
    ToDecimalCanonical(m);
    ToDecimalCanonical(n);
  }
}
