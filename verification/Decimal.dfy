/** Base-10 text as math/big reads and writes it. */
module Decimal {
  import opened Wrappers

  predicate IsDigit(c: char)
  {
    '0' <= c <= '9'
  }

  predicate AllDigits(s: string)
  {
    forall i :: 0 <= i < |s| ==> IsDigit(s[i])
  }

  function DigitsValue(s: string): nat
    requires AllDigits(s)
  {
    if s == "" then 0 else DigitsValue(s[..|s| - 1]) * 10 + (s[|s| - 1] as int - '0' as int)
  }

  function ParseDigits(s: string): Option<nat>
  {
    if s != "" && AllDigits(s) then Some(DigitsValue(s)) else None
  }

  /** big.Int.SetString(s, 10): an optional sign, then at least one digit, and nothing else. */
  function Parse(s: string): Option<int>
  {
    if s == "" then None
    else if s[0] == '-' then
      match ParseDigits(s[1..])
      case None => None
      case Some(n) => Some(0 - n)
    else
      match ParseDigits(if s[0] == '+' then s[1..] else s)
      case None => None
      case Some(n) => Some(n)
  }

  // big.Int.String of a non-negative number
  function Format(n: nat): (s: string)
    ensures |s| >= 1 && AllDigits(s)
  {
    var digit := ('0' as int + n % 10) as char;
    if n < 10 then [digit] else Format(n / 10) + [digit]
  }

  lemma {:induction false} ParseInvertsFormat(n: nat)
    ensures Parse(Format(n)) == Some(n)
  {
    DigitsOfFormat(n);
    assert Format(n)[0] != '-' && Format(n)[0] != '+';
  }

  lemma {:induction false} DigitsOfFormat(n: nat)
    ensures DigitsValue(Format(n)) == n
  {
    if n >= 10 {
      DigitsOfFormat(n / 10);
      assert Format(n)[..|Format(n)| - 1] == Format(n / 10);
    } else {
      assert Format(n)[..0] == "";
    }
  }

  // ---------------------------------------------------------------- exactly the numerals

  function Leading(zeros: nat): (s: string)
    ensures |s| == zeros && AllDigits(s)
  {
    seq(zeros, _ => '0')
  }

  /** Every string of digits is a printed number behind some zeros. */
  lemma {:induction false} DigitsSplit(s: string) returns (zeros: nat, m: nat)
    requires s != "" && AllDigits(s)
    ensures s == Leading(zeros) + Format(m) && m == DigitsValue(s)
  {
    var front, digit := s[..|s| - 1], s[|s| - 1] as int - '0' as int;
    if front == "" {
      zeros, m := 0, digit;
      assert DigitsValue(front) == 0;
      assert s == Format(m);
      assert Leading(0) == "";
    } else {
      var z, n := DigitsSplit(front);
      m := n * 10 + digit;
      if n == 0 {
        zeros := z + 1;
        assert Leading(z + 1) == Leading(z) + "0";
        assert Format(m) == [s[|s| - 1]];
      } else {
        zeros := z;
        assert m / 10 == n && m % 10 == digit;
        assert Format(m) == Format(n) + [s[|s| - 1]];
        assert s == front + [s[|s| - 1]];
        assert Leading(z) + Format(n) + [s[|s| - 1]] == Leading(z) + Format(m);
      }
    }
  }

  lemma {:induction false} ZerosCount(zeros: nat, n: nat)
    ensures DigitsValue(Leading(zeros) + Format(n)) == n
    decreases n
  {
    var s := Leading(zeros) + Format(n);
    if n >= 10 {
      ZerosCount(zeros, n / 10);
      assert s[..|s| - 1] == Leading(zeros) + Format(n / 10);
    } else {
      ZerosWorthNothing(zeros);
      assert s[..|s| - 1] == Leading(zeros);
    }
  }

  lemma {:induction false} ZerosWorthNothing(zeros: nat)
    ensures DigitsValue(Leading(zeros)) == 0
  {
    if zeros > 0 {
      ZerosWorthNothing(zeros - 1);
      assert Leading(zeros)[..zeros - 1] == Leading(zeros - 1);
    }
  }

  datatype Sign = Bare | Plus | Minus

  function SignText(sign: Sign): string
  {
    match sign
    case Bare => ""
    case Plus => "+"
    case Minus => "-"
  }

  /** A numeral: perhaps a sign, any zeros, and a number printed in base 10. */
  predicate Numeral(s: string, sign: Sign, zeros: nat, m: nat, n: int)
  {
    s == SignText(sign) + (Leading(zeros) + Format(m)) && n == if sign.Minus? then 0 - m else m
  }

  lemma SignedDigits(sign: Sign, digits: string)
    requires digits != "" && AllDigits(digits)
    ensures Parse(SignText(sign) + digits)
      == Some(if sign.Minus? then 0 - DigitsValue(digits) else DigitsValue(digits))
  {
    var s := SignText(sign) + digits;
    assert IsDigit(digits[0]);
    assert s[|SignText(sign)|..] == digits;
    assert s[0] == if sign.Bare? then digits[0] else SignText(sign)[0];
  }

  lemma SignOf(s: string) returns (sign: Sign, digits: string)
    requires Parse(s).Some?
    ensures s == SignText(sign) + digits && digits != "" && AllDigits(digits)
  {
    sign := if s[0] == '-' then Minus else if s[0] == '+' then Plus else Bare;
    digits := s[|SignText(sign)|..];
    assert s == SignText(sign) + digits;
  }

  /** Text parses to a number exactly when it is a numeral of that number. */
  lemma ParsesNumerals(s: string, n: int)
    ensures Parse(s) == Some(n) <==> exists sign, zeros: nat, m: nat :: Numeral(s, sign, zeros, m, n)
  {
    if Parse(s) == Some(n) {
      var sign, digits := SignOf(s);
      var zeros, m := DigitsSplit(digits);
      SignedDigits(sign, digits);
      assert Numeral(s, sign, zeros, m, n);
    }
    forall sign, zeros: nat, m: nat | Numeral(s, sign, zeros, m, n)
      ensures Parse(s) == Some(n)
    {
      ZerosCount(zeros, m);
      SignedDigits(sign, Leading(zeros) + Format(m));
    }
  }
}
