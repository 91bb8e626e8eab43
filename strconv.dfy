/** The decimal conversions of Go's strconv package that the core relies on:
    Itoa (used to build "host:port") and Atoi with its error dropped (used for
    the destination port). */
module Strconv {

  const MaxInt64: int := 0x7FFF_FFFF_FFFF_FFFF
  const MinInt64: int := -0x8000_0000_0000_0000
  const MaxUint64: int := 0xFFFF_FFFF_FFFF_FFFF

  predicate IsDigit(c: char) {
    '0' <= c <= '9'
  }

  predicate AllDigits(s: string) {
    forall i :: 0 <= i < |s| ==> IsDigit(s[i])
  }

  function DigitChar(d: nat): (c: char)
    requires d < 10
    ensures IsDigit(c)
  {
    ('0' as int + d) as char
  }

  function DigitValue(c: char): nat
    requires IsDigit(c)
  {
    c as int - '0' as int
  }

  /** Decimal text of `n`: digits only, no leading zero. */
  function Dec(n: nat): (r: string)
    ensures 1 <= |r| && AllDigits(r)
    ensures |r| > 1 ==> r[0] != '0'
    decreases n
  {
    if n < 10 then [DigitChar(n)] else Dec(n / 10) + [DigitChar(n % 10)]
  }

  /** Value of a run of decimal digits. */
  function DecValue(s: string): nat
    requires AllDigits(s)
  {
    if s == [] then 0 else DecValue(s[..|s| - 1]) * 10 + DigitValue(s[|s| - 1])
  }

  /** Reading back the decimal text of `n` gives `n`. */
  lemma {:induction false} DecValueOfDec(n: nat)
    ensures DecValue(Dec(n)) == n
  {
    if n >= 10 {
      DecValueOfDec(n / 10);
      var s := Dec(n);
      assert s[..|s| - 1] == Dec(n / 10);
    }
  }

  /** A one-character decimal text is a digit below ten, a longer one is at least ten. */
  lemma {:induction false} DecValueBounds(s: string)
    requires AllDigits(s) && |s| >= 1
    ensures |s| == 1 ==> DecValue(s) < 10
    ensures |s| > 1 && s[0] != '0' ==> DecValue(s) >= 10
  {
    if |s| > 1 {
      var t := s[..|s| - 1];
      if |t| > 1 {
        assert t[0] == s[0];
        DecValueBounds(t);
      } else {
        assert DecValue(t) == DigitValue(s[0]);
      }
    }
  }

  /** strconv.Itoa: decimal text with a leading '-' for negative numbers. */
  function Itoa(i: int): string
  {
    if i < 0 then "-" + Dec(-i) else Dec(i)
  }

  /** Length of the run of decimal digits at the front of `s`. */
  function DigitRun(s: string): (c: nat)
    ensures c <= |s| && AllDigits(s[..c])
    ensures c < |s| ==> !IsDigit(s[c])
  {
    if s == [] || !IsDigit(s[0]) then 0
    else
      var c := 1 + DigitRun(s[1..]);
      assert s[..c] == [s[0]] + s[1..][..c - 1];
      c
  }

  /** The text strconv.ParseInt hands to ParseUint: `s` without its sign. */
  function Unsigned(s: string): string
  {
    if |s| > 0 && (s[0] == '-' || s[0] == '+') then s[1..] else s
  }

  /** The value of strconv.Atoi with its error dropped (`port, _ := strconv.Atoi(s)`).
      ParseUint reads the digits after the sign one by one and gives up with the
      range error as soon as they exceed the uint64 range, before it could meet a
      later non-digit; ParseInt then turns that into the int64 bound of the sign.
      Otherwise an empty or non-digit text is the syntax error, whose value is 0,
      and a number outside int64 is again the bound of its sign. */
  function AtoiOrZero(s: string): (r: int)
    ensures MinInt64 <= r <= MaxInt64
    ensures |Unsigned(s)| == 0 ==> r == 0
    ensures var d := Unsigned(s); var c := DigitRun(d);
      && (DecValue(d[..c]) > MaxUint64 ==> r == if s[0] == '-' then MinInt64 else MaxInt64)
      && (c < |d| && DecValue(d[..c]) <= MaxUint64 ==> r == 0)
    ensures var d := Unsigned(s);
      AllDigits(d) && |d| > 0 && DecValue(d) <= (if s[0] == '-' then -MinInt64 else MaxInt64) ==>
        r == if s[0] == '-' then 0 - DecValue(d) as int else DecValue(d)
    ensures var d := Unsigned(s);
      AllDigits(d) && |d| > 0 && DecValue(d) > (if s[0] == '-' then -MinInt64 else MaxInt64) ==>
        r == if s[0] == '-' then MinInt64 else MaxInt64
  {
    var digits := Unsigned(s);
    var c := DigitRun(digits);
    assert AllDigits(digits) ==> digits[..c] == digits;
    if |digits| == 0 then 0
    else if DecValue(digits[..c]) > MaxUint64 then (if s[0] == '-' then MinInt64 else MaxInt64)
    else if c < |digits| then 0
    else
      var n: int := DecValue(digits);
      var v := if s[0] == '-' then -n else n;
      if v > MaxInt64 then MaxInt64 else if v < MinInt64 then MinInt64 else v
  }

  /** A run of digits followed by nothing or a non-digit is read as one run. */
  lemma {:induction false} DigitRunOfDigits(d: string, rest: string)
    requires AllDigits(d)
    requires rest == [] || !IsDigit(rest[0])
    ensures DigitRun(d + rest) == |d|
  {
    if d != [] {
      assert (d + rest)[1..] == d[1..] + rest;
      DigitRunOfDigits(d[1..], rest);
    } else {
      assert d + rest == rest;
    }
  }

  /** A digit run past the uint64 range is the range error even when a non-digit
      follows it ("99999999999999999999x"): the bound of the sign, not the syntax
      error's 0. */
  lemma AtoiRangeBeforeSyntax(d: string, rest: string)
    requires AllDigits(d) && DecValue(d) > MaxUint64
    requires rest == [] || !IsDigit(rest[0])
    ensures AtoiOrZero(d + rest) == MaxInt64
    ensures AtoiOrZero("-" + d + rest) == MinInt64
  {
    DigitRunOfDigits(d, rest);
    assert (d + rest)[..|d|] == d;
    assert Unsigned("-" + d + rest) == d + rest;
  }

  /** Atoi reads back what Itoa wrote, for every int64. */
  lemma AtoiItoa(i: int)
    requires MinInt64 <= i <= MaxInt64
    ensures AtoiOrZero(Itoa(i)) == i
  {
    var s := Itoa(i);
    if i < 0 {
      var d := Dec(-i);
      assert s == "-" + d && s[0] == '-';
      assert s[1..] == d;
      DecValueOfDec(-i);
    } else {
      var d := Dec(i);
      assert s == d && IsDigit(s[0]);
      DecValueOfDec(i);
    }
  }

  /** Decimal text holds no ':', '[' or ']', whatever the sign. */
  lemma ItoaHasNoColonOrBracket(p: int)
    ensures ':' !in Itoa(p) && '[' !in Itoa(p) && ']' !in Itoa(p)
  {
    var d := Dec(if p < 0 then -p else p);
    forall i | 0 <= i < |d| ensures d[i] != ':' && d[i] != '[' && d[i] != ']' {
      assert IsDigit(d[i]);
    }
    assert Itoa(p) == (if p < 0 then "-" else "") + d;
  }
}
