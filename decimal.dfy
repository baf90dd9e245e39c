/**
 * Decimal text of integers, as strconv.Itoa writes it (Content-Length) and
 * strconv.Atoi reads it (Fn-Http-Status).  Go's int is 64 bits wide.
 */
module Decimal {
  import opened Base

  const IntMin: int := -0x8000_0000_0000_0000
  const IntMax: int := 0x7fff_ffff_ffff_ffff

  predicate IsDigit(c: char) {
    '0' as int <= c as int <= '9' as int
  }

  function DigitChar(d: nat): (c: char)
    requires d < 10
    ensures IsDigit(c) && c as int - '0' as int == d
  {
    ('0' as int + d) as char
  }

  /** Digits of n, most significant first, without leading zeros. */
  function NatToString(n: nat): (s: string)
    ensures |s| > 0
    ensures AllDigits(s)
    decreases n
  {
    if n < 10 then [DigitChar(n)] else NatToString(n / 10) + [DigitChar(n % 10)]
  }

  /** strconv.Itoa. */
  function Itoa(n: int): string {
    if n < 0 then "-" + NatToString(-n) else NatToString(n)
  }

  /** The value of a string of decimal digits. */
  function DigitsValue(s: string): nat
    requires AllDigits(s)
  {
    if s == [] then 0
    else
      assert IsDigit(s[|s| - 1]);
      var d := s[|s| - 1] as int - '0' as int;
      DigitsValue(s[..|s| - 1]) * 10 + d
  }

  predicate AllDigits(s: string) {
    forall i :: 0 <= i < |s| ==> IsDigit(s[i])
  }

  /**
   * strconv.Atoi: an optional sign and at least one decimal digit, whose value
   * fits in a 64-bit int; anything else is an error (None).
   */
  function Atoi(s: string): (r: Option<int>)
    ensures r.Some? ==> IntMin <= r.value <= IntMax
    ensures s == [] ==> r.None?
    ensures s != [] && AllDigits(s) ==>
              && (r.Some? <==> DigitsValue(s) <= IntMax)
              && (r.Some? ==> r.value == DigitsValue(s))
    ensures |s| > 0 && s[0] == '+' ==>
              && (r.Some? <==> s[1..] != [] && AllDigits(s[1..]) && DigitsValue(s[1..]) <= IntMax)
              && (r.Some? ==> r.value == DigitsValue(s[1..]))
    ensures |s| > 0 && s[0] == '-' ==>
              && (r.Some? <==> s[1..] != [] && AllDigits(s[1..]) && DigitsValue(s[1..]) <= -IntMin)
              && (r.Some? ==> r.value == 0 - DigitsValue(s[1..]) as int)
    ensures |s| > 0 && s[0] != '+' && s[0] != '-' && !AllDigits(s) ==> r.None?
  {
    var signed := |s| > 0 && (s[0] == '-' || s[0] == '+');
    var digits := if signed then s[1..] else s;
    if digits == [] || !AllDigits(digits) then None
    else
      var v: int := if signed && s[0] == '-' then 0 - DigitsValue(digits) as int else DigitsValue(digits);
      if IntMin <= v <= IntMax then Some(v) else None
  }

  lemma {:induction false} DigitsValueOfNat(n: nat)
    ensures DigitsValue(NatToString(n)) == n
    decreases n
  {
    var s := NatToString(n);
    if n >= 10 {
      DigitsValueOfNat(n / 10);
      assert s[..|s| - 1] == NatToString(n / 10);
    }
  }

  /** Atoi reads back what Itoa writes, for every 64-bit int. */
  lemma AtoiItoa(n: int)
    requires IntMin <= n <= IntMax
    ensures Atoi(Itoa(n)) == Some(n)
  {
    var s := Itoa(n);
    if n < 0 {
      var t := NatToString(-n);
      DigitsValueOfNat(-n);
      assert s[0] == '-' && s[1..] == t;
      assert AllDigits(t);
    } else {
      var t := NatToString(n);
      DigitsValueOfNat(n);
      assert s == t && !IsDigit('-') && !IsDigit('+');
      assert AllDigits(t);
      assert s[0] != '-' && s[0] != '+';
    }
  }
}
