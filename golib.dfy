/**
 * Stand-ins for the parts of Go's standard library that the renderer calls:
 * the width of `int`, float-to-integer conversions, package math,
 * strings.Split and the strconv parsers.
 *
 * Floating point is modelled by `real`. The transcendental functions of
 * package math and strconv.ParseFloat (on non-empty text) are constants of
 * function type with no definition: every proof in this project holds for ANY
 * function in their place. The one fact assumed of math.Sqrt is built into its
 * type: the root of zero is zero and the root of a positive number is
 * positive.
 */
module GoLib {
  import opened Wrappers

  // ---------------------------------------------------------------------------
  // Integers

  const MinInt64: int := -0x8000_0000_0000_0000
  const MaxInt64: int := 0x7fff_ffff_ffff_ffff
  const Modulus64: int := 0x1_0000_0000_0000_0000

  /** Go's `int` on a 64-bit target. */
  type Int64 = x: int | MinInt64 <= x <= MaxInt64

  /** Two's-complement wrap-around of an exact result into `int`. */
  function Wrap64(x: int): (r: Int64)
    ensures MinInt64 <= x <= MaxInt64 ==> r == x
    ensures (x - r) % Modulus64 == 0
  {
    (x - MinInt64) % Modulus64 + MinInt64
  }

  // ---------------------------------------------------------------------------
  // Package math

  const Pi: real := 3.141592653589793

  type PositiveReal = x: real | x > 0.0 witness 1.0

  /** math.Sqrt on positive arguments; which positive value it yields is not modelled. */
  const SqrtOfPositive: PositiveReal -> PositiveReal

  /** math.Sqrt on the arguments the renderer gives it (sums of squares). */
  function Sqrt(x: real): (r: real)
    requires x >= 0.0
    ensures r >= 0.0
    ensures r == 0.0 <==> x == 0.0
  {
    if x == 0.0 then 0.0 else SqrtOfPositive(x)
  }

  /** math.Sin, math.Cos, math.Tan and math.Pow, uninterpreted. */
  const Sin: real -> real
  const Cos: real -> real
  const Tan: real -> real
  const Pow: (real, real) -> real

  /** math.Max without the NaN and signed-zero cases. */
  function Max(x: real, y: real): (r: real)
    ensures r == x || r == y
    ensures x <= r && y <= r
  {
    if x > y then x else y
  }

  /** math.Min without the NaN and signed-zero cases. */
  function Min(x: real, y: real): (r: real)
    ensures r == x || r == y
    ensures r <= x && r <= y
  {
    if x < y then x else y
  }

  // ---------------------------------------------------------------------------
  // Package strings

  /**
   * strings.Split(s, sep) for a one-character separator: the pieces between
   * consecutive separators, empty pieces included, so there is always one
   * piece more than there are separators.
   */
  function Split(s: string, sep: char): (parts: seq<string>)
    ensures |parts| >= 1
  {
    if s == [] then [""]
    else
      var rest := Split(s[1..], sep);
      if s[0] == sep then [""] + rest
      else [[s[0]] + rest[0]] + rest[1..]
  }

  /** strings.Join(parts, sep), the inverse of Split. */
  function Join(parts: seq<string>, sep: char): string
    requires |parts| >= 1
  {
    if |parts| == 1 then parts[0] else parts[0] + [sep] + Join(parts[1..], sep)
  }

  /** Joining the pieces of a split gives back the string. */
  lemma {:induction false} JoinSplit(s: string, sep: char)
    ensures Join(Split(s, sep), sep) == s
  {
    if s != [] {
      var rest := Split(s[1..], sep);
      JoinSplit(s[1..], sep);
      if s[0] != sep {
        var parts := Split(s, sep);
        assert parts == [[s[0]] + rest[0]] + rest[1..];
        if |rest| == 1 {
          assert Join(parts, sep) == [s[0]] + rest[0];
        } else {
          assert parts[1..] == rest[1..];
          assert Join(rest, sep) == rest[0] + [sep] + Join(rest[1..], sep);
          assert Join(parts, sep) == ([s[0]] + rest[0]) + [sep] + Join(rest[1..], sep);
        }
      }
    }
  }

  /** A piece without the separator, followed by the separator, splits off as one piece. */
  lemma {:induction false} SplitPiece(p: string, sep: char, t: string)
    requires sep !in p
    ensures Split(p + [sep] + t, sep) == [p] + Split(t, sep)
    ensures Split(p, sep) == [p]
  {
    if p != [] {
      SplitPiece(p[1..], sep, t);
      assert (p + [sep] + t)[1..] == p[1..] + [sep] + t;
      assert [p[0]] + p[1..] == p;
    }
  }

  /** Splitting a join of separator-free pieces gives back the pieces. */
  lemma {:induction false} SplitJoin(parts: seq<string>, sep: char)
    requires |parts| >= 1
    requires forall i :: 0 <= i < |parts| ==> sep !in parts[i]
    ensures Split(Join(parts, sep), sep) == parts
  {
    SplitPiece(parts[0], sep, []);
    if |parts| > 1 {
      SplitJoin(parts[1..], sep);
      SplitPiece(parts[0], sep, Join(parts[1..], sep));
      assert [parts[0]] + parts[1..] == parts;
    }
  }

  // ---------------------------------------------------------------------------
  // Package strconv

  predicate IsDigit(c: char) { '0' <= c <= '9' }

  predicate AllDigits(s: string) { forall i :: 0 <= i < |s| ==> IsDigit(s[i]) }

  /** The value of a string of decimal digits, most significant first. */
  function DecimalValue(s: string): nat
    requires AllDigits(s)
  {
    if s == [] then 0 else DecimalValue(s[..|s| - 1]) * 10 + (s[|s| - 1] as int - '0' as int)
  }

  const Int32Limit: int := 0x8000_0000
  const Int64Limit: int := 0x8000_0000_0000_0000

  /**
   * strconv.ParseInt(s, 10, bitSize) where limit = 2^(bitSize-1): an optional
   * sign, then at least one decimal digit and nothing else, and a value in
   * [-limit, limit). Anything else is an error.
   */
  function ParseDecimal(s: string, limit: nat): (r: Option<int>)
    requires limit > 0
    ensures r.Some? ==> -(limit as int) <= r.value < limit
    ensures r.Some? ==> exists k :: 0 <= k < |s| && IsDigit(s[k])
    ensures s == [] ==> r.None?
  {
    var digits := if |s| > 0 && (s[0] == '-' || s[0] == '+') then s[1..] else s;
    if digits == [] || !AllDigits(digits) then None
    else
      assert IsDigit(s[|s| - 1]);
      var n := DecimalValue(digits);
      if s[0] == '-' then (if n <= limit then Some(-(n as int)) else None)
      else if n < limit then Some(n) else None
  }

  /** strconv.ParseInt(s, 10, 32). */
  function ParseInt32(s: string): (r: Option<int>)
    ensures r.Some? ==> -Int32Limit <= r.value < Int32Limit
  {
    ParseDecimal(s, Int32Limit)
  }

  /** strconv.Atoi(s) for a 64-bit `int`. */
  function Atoi(s: string): (r: Option<int>)
    ensures r.Some? ==> MinInt64 <= r.value <= MaxInt64
  {
    ParseDecimal(s, Int64Limit)
  }

  /** The decimal digits of n, without leading zeros. */
  function Digits(n: nat): (s: string)
    ensures |s| >= 1 && AllDigits(s)
  {
    if n < 10 then ['0' + n as char]
    else Digits(n / 10) + ['0' + (n % 10) as char]
  }

  /** strconv.Itoa(n), the inverse of the integer parsers. */
  function FormatInt(n: int): string {
    if n < 0 then "-" + Digits(-n) else Digits(n)
  }

  lemma {:induction false} DecimalValueDigits(n: nat)
    ensures DecimalValue(Digits(n)) == n
  {
    if n >= 10 {
      DecimalValueDigits(n / 10);
      var s := Digits(n);
      assert s[..|s| - 1] == Digits(n / 10);
    }
  }

  /** Every integer in range is parsed back from its decimal form. */
  lemma ParseFormat(n: int, limit: nat)
    requires limit > 0
    requires -(limit as int) <= n < limit
    ensures ParseDecimal(FormatInt(n), limit) == Some(n)
  {
    var s := FormatInt(n);
    if n < 0 {
      var d := Digits(-n);
      DecimalValueDigits(-n);
      assert s == "-" + d && s[0] == '-' && s[1..] == d;
      assert AllDigits(d) && DecimalValue(d) == -n;
    } else {
      var d := Digits(n);
      DecimalValueDigits(n);
      assert s == d && IsDigit(d[0]);
      assert AllDigits(d) && DecimalValue(d) == n;
    }
  }

  /**
   * strconv.ParseFloat(s, 32) on non-empty text: which texts are accepted
   * and which value each yields (rounded to float32 precision) are not
   * modelled.
   */
  const ParseFloatText: string -> Option<real>

  /** strconv.ParseFloat(s, 32): the empty string is a syntax error. */
  function ParseFloat32(s: string): (r: Option<real>)
    ensures s == [] ==> r.None?
  {
    if s == [] then None else ParseFloatText(s)
  }
}

/**
 * Go's conversions from float to integer types. They are kept apart from
 * GoLib so that proofs about real arithmetic elsewhere do not see the
 * real-to-integer conversion.
 */
module GoConv {

  /** Go's `uint8`. */
  type Uint8 = x: int | 0 <= x < 256

  /** Go's conversion of a float to an integer type: the fraction is discarded. */
  function Trunc(x: real): (r: int)
    ensures 0.0 <= x ==> 0 <= r && r as real <= x < r as real + 1.0
    ensures x < 0.0 ==> r <= 0 && r as real - 1.0 < x <= r as real
  {
    if x >= 0.0 then x.Floor else -((-x).Floor)
  }

  /**
   * `uint8(x)` for a float x. In range the fraction is discarded; out of range
   * Go leaves the result to the implementation, and the model keeps the low
   * eight bits of the truncated value.
   */
  function ToUint8(x: real): (r: Uint8)
    ensures 0.0 <= x < 256.0 ==> r as real <= x < r as real + 1.0
  {
    Trunc(x) % 256
  }
}
