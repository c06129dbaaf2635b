/** Decimal rendering of amounts, as `Number.prototype.toFixed(2)` produces
    it, and the string joining of `Array.prototype.join`. */
module Format {

  function DigitChar(d: nat): (c: char)
    requires d < 10
  {
    ('0' as int + d) as char
  }

  function DigitValue(c: char): (d: int)
  {
    c as int - '0' as int
  }

  /** The decimal digits of `n`, most significant first, without leading zeros. */
  function Decimal(n: nat): (s: string)
    ensures |s| >= 1
  {
    if n < 10 then [DigitChar(n)] else Decimal(n / 10) + [DigitChar(n % 10)]
  }

  /** Reads a string of decimal digits back as a number. */
  function DecimalValue(s: string): (n: int)
  {
    if s == [] then 0 else DecimalValue(s[..|s| - 1]) * 10 + DigitValue(s[|s| - 1])
  }

  /** The number of cents `toFixed(2)` shows for a non-negative amount: the
      integer n with n / 100 nearest to x, the larger one on a tie. */
  function RoundCents(x: real): (n: nat)
    requires x >= 0.0
  {
    (x * 100.0 + 0.5).Floor
  }

  function UnsignedFixed2(x: real): (s: string)
    requires x >= 0.0
    ensures |s| >= 4 && s[|s| - 3] == '.'
  {
    var n := RoundCents(x);
    Decimal(n / 100) + "." + [DigitChar(n / 10 % 10), DigitChar(n % 10)]
  }

  /** `x.toFixed(2)` for an amount below 10^21: a minus sign for a negative
      amount, then the rounded magnitude with exactly two decimals. */
  function Fixed2(x: real): (s: string)
  {
    if x < 0.0 then "-" + UnsignedFixed2(-x) else UnsignedFixed2(x)
  }

  /** Reads an amount written as digits, a point and two digits back as cents. */
  function CentsOf(s: string): (cents: int)
    requires |s| >= 3
  {
    DecimalValue(s[..|s| - 3]) * 100 + DecimalValue(s[|s| - 2..])
  }

  /** `parts.join(sep)`. */
  function Join(parts: seq<string>, sep: string): (s: string)
  {
    if |parts| == 0 then ""
    else if |parts| == 1 then parts[0]
    else Join(parts[..|parts| - 1], sep) + sep + parts[|parts| - 1]
  }

  lemma {:induction false} DecimalRoundTrip(n: nat)
    ensures DecimalValue(Decimal(n)) == n
  {
    if n >= 10 {
      var s := Decimal(n);
      assert s[..|s| - 1] == Decimal(n / 10);
      DecimalRoundTrip(n / 10);
    }
  }

  lemma TwoDigits(n: nat)
    ensures DecimalValue([DigitChar(n / 10 % 10), DigitChar(n % 10)]) == n % 100
  {
    var s := [DigitChar(n / 10 % 10), DigitChar(n % 10)];
    assert s[..1][..0] == [];
    assert DecimalValue(s[..1]) == n / 10 % 10;
    var a, q := n % 10, n / 10;
    var b, c := q % 10, q / 10;
    assert n == 10 * q + a && q == 10 * c + b;
    assert n == 100 * c + (10 * b + a);
    ModUnique(n, c, 10 * b + a);
  }

  lemma ModUnique(n: nat, c: int, r: int)
    requires 0 <= r < 100 && n == 100 * c + r
    ensures n % 100 == r
  {
  }

  /** What `toFixed(2)` writes for a non-negative amount reads back as the
      cents nearest to it: the rendering loses nothing but the rounding. */
  lemma Fixed2Cents(x: real)
    requires x >= 0.0
    ensures var s := Fixed2(x);
      |s| >= 4 && s[|s| - 3] == '.' && CentsOf(s) == RoundCents(x)
      && RoundCents(x) as real - 0.5 <= x * 100.0 < RoundCents(x) as real + 0.5
  {
    var n := RoundCents(x);
    var d := Decimal(n / 100);
    var s := Fixed2(x);
    assert s == d + "." + [DigitChar(n / 10 % 10), DigitChar(n % 10)];
    assert s[..|s| - 3] == d;
    assert s[|s| - 2..] == [DigitChar(n / 10 % 10), DigitChar(n % 10)];
    DecimalRoundTrip(n / 100);
    TwoDigits(n);
  }

  /** Amounts of the sample order: rounding to the nearest cent, with
      leading zero and trailing zeros kept. */
  lemma Fixed2Samples()
    ensures Fixed2(1.00) == "1.00" && Fixed2(9.99) == "9.99"
    ensures Fixed2(0.84915) == "0.85" && Fixed2(10.83915) == "10.84"
  {
    assert RoundCents(1.00) == 100 && Decimal(1) == "1";
    assert RoundCents(9.99) == 999 && Decimal(9) == "9";
    assert RoundCents(0.84915) == 85 && Decimal(0) == "0";
    assert RoundCents(10.83915) == 1084 && Decimal(10) == "10";
  }
}
