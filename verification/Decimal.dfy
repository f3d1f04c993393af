/** Unsigned decimal numbers: `{}` formatting and `str::parse`. */
module Decimal {
  import opened Basics

  function DigitChar(d: nat): char
    requires d < 10
  {
    ('0' as int + d) as char
  }

  function DigitOf(c: char): Option<nat> {
    if '0' <= c <= '9' then Some(c as int - '0' as int) else None
  }

  function Digits(n: nat): (s: string)
    ensures |s| > 0
    ensures forall c <- s :: DigitOf(c).Some?
  {
    if n < 10 then [DigitChar(n)] else Digits(n / 10) + [DigitChar(n % 10)]
  }

  /** The value of a digit string; the empty one counts as zero. */
  function Value(s: string): Option<nat> {
    if s == [] then Some(0)
    else match (Value(s[..|s| - 1]), DigitOf(s[|s| - 1]))
      case (Some(v), Some(d)) => Some(10 * v + d)
      case _ => None
  }

  /** `str::parse` for an unsigned type: an optional plus sign, then at least one digit. */
  function Parse(s: string, max: nat): Option<nat> {
    var digits := if s != [] && s[0] == '+' then s[1..] else s;
    match Value(digits)
    case Some(v) => if digits != [] && v <= max then Some(v) else None
    case None => None
  }

  lemma {:induction false} ValueOfDigits(n: nat)
    ensures Value(Digits(n)) == Some(n)
  {
    var s := Digits(n);
    if n >= 10 {
      assert s[..|s| - 1] == Digits(n / 10);
      ValueOfDigits(n / 10);
    } else {
      assert s[..0] == [];
    }
  }

  /** Formatting then parsing gives the number back whenever it fits the type. */
  lemma ParseDigits(n: nat, max: nat)
    ensures Parse(Digits(n), max) == if n <= max then Some(n) else None
  {
    ValueOfDigits(n);
    assert DigitOf(Digits(n)[0]).Some?;
  }

  lemma DigitsInjective(m: nat, n: nat)
    requires Digits(m) == Digits(n)
    ensures m == n
  {
    ValueOfDigits(m);
    ValueOfDigits(n);
  }

  /** A numeral without a plus sign and without a superfluous leading zero. */
  predicate Canonical(s: string) {
    s != [] && s[0] != '+' && (s[0] == '0' ==> |s| == 1)
  }

  lemma {:induction false} ValuePositive(s: string)
    requires s != [] && s[0] != '0' && Value(s).Some?
    ensures Value(s).value > 0
  {
    if |s| > 1 {
      ValuePositive(s[..|s| - 1]);
    }
  }

  /** Parsing accepts more than formatting produces: exactly the non-canonical numerals. */
  lemma {:induction false} FormatsBack(s: string, max: nat)
    requires Parse(s, max).Some?
    ensures Digits(Parse(s, max).value) == s <==> Canonical(s)
  {
    if Canonical(s) {
      DigitsOfValue(s);
    } else {
      FirstDigit(Parse(s, max).value);
    }
  }

  lemma {:induction false} DigitsOfValue(s: string)
    requires Canonical(s) && Value(s).Some?
    ensures Digits(Value(s).value) == s
  {
    var front, last := s[..|s| - 1], s[|s| - 1];
    assert s == front + [last];
    if |s| > 1 {
      assert front[0] == s[0];
      DigitsOfValue(front);
      ValuePositive(front);
      DigitsSnoc(Value(front).value, DigitOf(last).value);
    }
  }

  lemma DigitsSnoc(v: nat, d: nat)
    requires v > 0 && d < 10
    ensures Digits(10 * v + d) == Digits(v) + [DigitChar(d)]
  {
    assert (10 * v + d) / 10 == v && (10 * v + d) % 10 == d;
  }

  lemma {:induction false} FirstDigit(n: nat)
    ensures Canonical(Digits(n))
    ensures Digits(n)[0] == '0' <==> n == 0
  {
    if n >= 10 {
      FirstDigit(n / 10);
    }
  }
}
