/** Go's `strconv.Atoi` on a 64-bit platform, and `strconv.Itoa` as its
    partner. */
module Strconv {
  import opened Wrappers

  const MinInt64: int := -0x8000_0000_0000_0000
  const MaxInt64: int := 0x7FFF_FFFF_FFFF_FFFF

  predicate IsDigit(c: char) {
    '0' <= c <= '9'
  }

  predicate AllDigits(s: string) {
    forall i :: 0 <= i < |s| ==> IsDigit(s[i])
  }

  /** The value of a string of decimal digits, read left to right. */
  function DigitsValue(s: string): nat
    requires AllDigits(s)
    decreases |s|
  {
    if s == [] then 0
    else DigitsValue(s[..|s| - 1]) * 10 + (s[|s| - 1] as int - '0' as int)
  }

  /** `strconv.Atoi`: an optional sign and at least one decimal digit, whose
      value must fit in a 64-bit int; anything else is an error. */
  function Atoi(s: string): Result<int, string> {
    if s == [] then Err("invalid syntax")
    else
      var digits := if s[0] == '-' || s[0] == '+' then s[1..] else s;
      if digits == [] || !AllDigits(digits) then Err("invalid syntax")
      else
        var v: int := DigitsValue(digits);
        var n := if s[0] == '-' then -v else v;
        if n < MinInt64 || n > MaxInt64 then Err("value out of range") else Ok(n)
  }

  function DigitChar(d: nat): char
    requires d < 10
  {
    ('0' as int + d) as char
  }

  /** The shortest decimal spelling of `n`. */
  function NatDigits(n: nat): (s: string)
    ensures s != [] && AllDigits(s)
    decreases n
  {
    if n < 10 then [DigitChar(n)] else NatDigits(n / 10) + [DigitChar(n % 10)]
  }

  /** `strconv.Itoa`. */
  function Itoa(n: int): string {
    if n < 0 then "-" + NatDigits(-n) else NatDigits(n)
  }

  lemma {:induction false} NatDigitsValue(n: nat)
    ensures DigitsValue(NatDigits(n)) == n
    decreases n
  {
    var s := NatDigits(n);
    if n >= 10 {
      NatDigitsValue(n / 10);
      assert s[..|s| - 1] == NatDigits(n / 10);
    }
  }

  /** Atoi reads back every 64-bit int that Itoa prints. */
  lemma AtoiItoa(n: int)
    requires MinInt64 <= n <= MaxInt64
    ensures Atoi(Itoa(n)) == Ok(n)
  {
    var s := Itoa(n);
    if n < 0 {
      var d := NatDigits(-n);
      NatDigitsValue(-n);
      assert s == "-" + d;
      assert s[0] == '-' && s[1..] == d;
    } else {
      var d := NatDigits(n);
      NatDigitsValue(n);
      assert s == d && s[0] != '-' && s[0] != '+' by {
        assert IsDigit(d[0]);
      }
    }
  }
}
