/** Decimal printing (`%d`) and reading, and the zero-padded fields of Go's time layouts. */
module Decimal {
  import opened Base

  predicate IsDigit(c: char) { '0' <= c <= '9' }

  function DigitOf(d: nat): (c: char)
    requires d < 10
    ensures IsDigit(c) && ValueOf(c) == d
  {
    ('0' as int + d) as char
  }

  function ValueOf(c: char): (d: nat)
    requires IsDigit(c)
    ensures d < 10
  {
    c as int - '0' as int
  }

  function PrintNat(n: nat): (s: string)
    ensures |s| > 0 && forall k :: 0 <= k < |s| ==> IsDigit(s[k])
  {
    if n < 10 then [DigitOf(n)] else PrintNat(n / 10) + [DigitOf(n % 10)]
  }

  function PrintInt(z: int): string {
    if z < 0 then "-" + PrintNat(-z) else PrintNat(z)
  }

  /** Reads a non-empty string of digits. */
  function ParseNat(s: string): Option<nat> {
    if |s| == 0 || !IsDigit(s[|s| - 1]) then None
    else if |s| == 1 then Some(ValueOf(s[0]))
    else match ParseNat(s[..|s| - 1])
      case None => None
      case Some(hi) => Some(10 * hi + ValueOf(s[|s| - 1]))
  }

  lemma {:induction false} ParsePrintNat(n: nat)
    ensures ParseNat(PrintNat(n)) == Some(n)
  {
    if n >= 10 {
      ParsePrintNat(n / 10);
      var s := PrintNat(n);
      assert s[..|s| - 1] == PrintNat(n / 10);
    }
  }

  /** No leading zeros, as %d prints. */
  lemma {:induction false} NoLeadingZero(n: nat)
    ensures n >= 10 ==> PrintNat(n)[0] != '0'
    ensures n < 10 ==> |PrintNat(n)| == 1
  {
    if n >= 10 {
      NoLeadingZero(n / 10);
      if n / 10 < 10 {
        assert PrintNat(n / 10)[0] == DigitOf(n / 10) && ValueOf('0') == 0;
      }
    }
  }

  lemma PrintNatInjective(a: nat, b: nat)
    requires PrintNat(a) == PrintNat(b)
    ensures a == b
  {
    ParsePrintNat(a);
    ParsePrintNat(b);
  }

  lemma SignDiffers(a: int, b: int)
    requires a < 0 <= b
    ensures PrintInt(a) != PrintInt(b)
  {
    assert PrintInt(a)[0] == '-' && IsDigit(PrintInt(b)[0]);
  }

  lemma PrintIntInjective(a: int, b: int)
    requires PrintInt(a) == PrintInt(b)
    ensures a == b
  {
    if a < 0 && b < 0 {
      assert PrintInt(a)[1..] == PrintNat(-a) && PrintInt(b)[1..] == PrintNat(-b);
      PrintNatInjective(-a, -b);
    } else if a >= 0 && b >= 0 {
      PrintNatInjective(a, b);
    } else if a < 0 {
      SignDiffers(a, b);
    } else {
      SignDiffers(b, a);
    }
  }

  /** `%02d` for a two-digit field. */
  function Pad2(n: nat): (s: string)
    requires n < 100
    ensures |s| == 2
  {
    [DigitOf(n / 10), DigitOf(n % 10)]
  }

  function Pad4(n: nat): (s: string)
    requires n < 10000
    ensures |s| == 4
  {
    Pad2(n / 100) + Pad2(n % 100)
  }

  /** A field that was read off the front of a string, and what follows it. */
  datatype Read = Read(value: nat, rest: string)

  /** Exactly two leading digits. */
  function TakeTwo(s: string): (r: Option<Read>)
    ensures r.Some? ==> r.value.value < 100 && |r.value.rest| + 2 == |s|
  {
    if |s| >= 2 && IsDigit(s[0]) && IsDigit(s[1])
    then Some(Read(10 * ValueOf(s[0]) + ValueOf(s[1]), s[2..]))
    else None
  }

  /** One or two leading digits, as Go reads the hour of its layouts. */
  function TakeHour(s: string): (r: Option<Read>)
    ensures r.Some? ==> r.value.value < 100 && |r.value.rest| < |s|
  {
    if TakeTwo(s).Some? then TakeTwo(s)
    else if |s| >= 1 && IsDigit(s[0]) then Some(Read(ValueOf(s[0]), s[1..]))
    else None
  }

  function TakeFour(s: string): (r: Option<Read>)
    ensures r.Some? ==> r.value.value < 10000
  {
    match TakeTwo(s)
    case None => None
    case Some(hi) =>
      match TakeTwo(hi.rest)
      case None => None
      case Some(lo) => Some(Read(100 * hi.value + lo.value, lo.rest))
  }

  function TakeChar(s: string, c: char): Option<string> {
    if |s| >= 1 && s[0] == c then Some(s[1..]) else None
  }

  lemma TakeTwoOfPad(n: nat, rest: string)
    requires n < 100
    ensures TakeTwo(Pad2(n) + rest) == Some(Read(n, rest))
    ensures TakeHour(Pad2(n) + rest) == Some(Read(n, rest))
  {
    assert (Pad2(n) + rest)[2..] == rest;
  }

  lemma TakeFourOfPad(n: nat, rest: string)
    requires n < 10000
    ensures TakeFour(Pad4(n) + rest) == Some(Read(n, rest))
  {
    assert Pad4(n) + rest == Pad2(n / 100) + (Pad2(n % 100) + rest);
    TakeTwoOfPad(n / 100, Pad2(n % 100) + rest);
    TakeTwoOfPad(n % 100, rest);
  }

  lemma TakeCharOf(c: char, rest: string)
    ensures TakeChar([c] + rest, c) == Some(rest)
  {
    assert ([c] + rest)[1..] == rest;
  }
}
