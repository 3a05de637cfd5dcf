/**
Decimal text of machine integers: Go's strconv.Itoa and strconv.Atoi on 64-bit ints, and
the buffer-filling itoa of pkg/bwrap/generate.go.
*/
module Decimal {
  import opened Options

  const MIN_INT := -0x8000_0000_0000_0000
  const MAX_INT := 0x7fff_ffff_ffff_ffff

  predicate IsInt64(n: int) {
    MIN_INT <= n <= MAX_INT
  }

  /** A Go int. */
  type Int = n: int | MIN_INT <= n <= MAX_INT

  predicate IsDigit(c: char) {
    '0' <= c <= '9'
  }

  function Digit(d: nat): (c: char)
    requires d < 10
    ensures IsDigit(c)
  {
    '0' + d as char
  }

  function DigitValue(c: char): (d: nat)
    requires IsDigit(c)
    ensures d < 10
  {
    c as int - '0' as int
  }

  predicate AllDigits(s: string) {
    forall i :: 0 <= i < |s| ==> IsDigit(s[i])
  }

  function Digits(n: nat): string {
    if n < 10 then [Digit(n)] else Digits(n / 10) + [Digit(n % 10)]
  }

  function Value(s: string): nat
    requires AllDigits(s)
  {
    if s == "" then 0 else 10 * Value(s[..|s| - 1]) + DigitValue(s[|s| - 1])
  }

  /** strconv.Itoa. */
  function Text(n: int): string {
    if n < 0 then "-" + Digits(-n) else Digits(n)
  }

  /** strconv.Atoi: an optional sign, at least one digit, nothing else, and in range. */
  function Atoi(s: string): Option<int> {
    var signed := s != "" && (s[0] == '-' || s[0] == '+');
    var digits := if signed then s[1..] else s;
    if digits == "" || !AllDigits(digits) then None
    else
      var magnitude: int := Value(digits);
      var n := if signed && s[0] == '-' then -magnitude else magnitude;
      if IsInt64(n) then Some(n) else None
  }

  lemma {:induction false} ValueOfDigits(n: nat)
    ensures AllDigits(Digits(n)) && Digits(n) != "" && Value(Digits(n)) == n
  {
    if n >= 10 {
      ValueOfDigits(n / 10);
      var d := Digits(n);
      assert d[..|d| - 1] == Digits(n / 10);
    } else {
      assert Digits(n)[..0] == "";
    }
  }

  /** Reading back what was written. */
  lemma AtoiOfText(n: int)
    requires IsInt64(n)
    ensures Atoi(Text(n)) == Some(n)
  {
    hide Digits, Value;
    ValueOfDigits(if n < 0 then -n else n);
    var text := Text(n);
    if n < 0 {
      assert text[0] == '-' && text[1..] == Digits(-n);
    } else {
      assert IsDigit(text[0]);
    }
  }

  // ------------------------------------------------ itoa, digit by digit

  function Pow10(k: nat): nat {
    if k == 0 then 1 else 10 * Pow10(k - 1)
  }

  /** Negation in 64 bits: the least integer is its own negative. */
  function Negate64(n: Int): Int {
    if n == MIN_INT then MIN_INT else -n
  }

  /** What itoa yields: the decimal text, but for the least integer, whose negation is still negative. */
  function ItoaText(value: int): string {
    if value == MIN_INT then "-" else Text(value)
  }

  /** The digits still to be written; none for zero. */
  function Remaining(n: nat): string {
    if n == 0 then "" else Digits(n)
  }

  lemma RemainingStep(n: nat)
    requires n > 0
    ensures Remaining(n) == Remaining(n / 10) + [Digit(n % 10)]
  {
  }

  lemma Pow10Of19()
    ensures Pow10(19) == 10_000_000_000_000_000_000
  {
    assert Pow10(5) == 100_000;
    assert Pow10(10) == 10_000_000_000;
    assert Pow10(15) == 1_000_000_000_000_000;
  }

  /** The digit loop of itoa: it fills the buffer from the back, which always has room to spare. */
  method WriteDigits(b: array<char>, value: Int) returns (i: nat)
    requires b.Length == 20
    modifies b
    ensures 1 <= i <= 20
    ensures b[i..] == if value > 0 then Digits(value) else ""
  {
    hide Digits;
    var n: int := value;
    i := b.Length;
    Pow10Of19();
    if n <= 0 {
      return;
    }
    while n > 0
      invariant 1 <= i <= 20
      invariant 0 <= n < Pow10(i - 1)
      invariant Digits(value) == Remaining(n) + b[i..]
    {
      RemainingStep(n);
      i := i - 1;
      b[i] := Digit(n % 10);
      n := n / 10;
      assert b[i..] == [b[i]] + b[i + 1..];
    }
  }

  /** itoa. */
  method Itoa(value: Int) returns (s: string)
    ensures s == ItoaText(value)
  {
    if value == 0 {
      return "0";
    }
    var n := value;
    var neg := n < 0;
    if neg {
      n := Negate64(n);
    }
    var b := new char[20](_ => '\0');
    var i := WriteDigits(b, n);
    if neg {
      i := i - 1;
      b[i] := '-';
      assert b[i..] == ['-'] + b[i + 1..];
    }
    s := b[i..];
  }

  /** itoa is undone by Atoi exactly on the integers that have a negative. */
  lemma ItoaRoundTrips(value: Int)
    ensures Atoi(ItoaText(value)) == Some(value) <==> value != MIN_INT
  {
    AtoiOfText(value);
    assert "-"[1..] == "";
  }

  lemma {:induction false} LeadingZero(s: string)
    requires AllDigits(s)
    ensures Value("0" + s) == Value(s)
  {
    if s == "" {
      assert ("0" + s)[..0] == "";
    } else {
      LeadingZero(s[..|s| - 1]);
      assert ("0" + s)[..|s|] == "0" + s[..|s| - 1];
    }
  }

  /** Atoi takes a sign and leading zeros, and nothing but digits after that. */
  lemma AtoiReads(ds: string)
    ensures ds != "" && AllDigits(ds) && IsInt64(Value(ds)) ==> Atoi(ds) == Some(Value(ds)) && Atoi("+" + ds) == Some(Value(ds))
    ensures ds != "" && AllDigits(ds) && IsInt64(-(Value(ds) as int)) ==> Atoi("-" + ds) == Some(-(Value(ds) as int))
    ensures ds == "" || !AllDigits(ds) ==> Atoi("+" + ds).None? && Atoi("-" + ds).None?
  {
    assert ("+" + ds)[1..] == ds && ("-" + ds)[1..] == ds;
  }
}
