/** Decimal text to a 16-bit unsigned integer, with the semantics of Rust's
    `u16::from_str` (that is, `from_str_radix` with radix 10): an optional
    leading '+', then one or more ASCII digits whose value fits in 16 bits.
    Whitespace, a '-' sign and any other character are rejected. */
module U16Parse {
  import opened Wrappers

  const MaxU16: nat := 65535

  /** The values of Rust's `u16`. */
  type u16 = n: int | 0 <= n <= MaxU16

  /** The kinds of `ParseIntError` an unsigned parse can report. */
  datatype IntErrorKind = Empty | InvalidDigit | PosOverflow

  predicate IsDigit(c: char) {
    '0' <= c <= '9'
  }

  predicate IsDigits(s: string) {
    forall i :: 0 <= i < |s| ==> IsDigit(s[i])
  }

  function DigitValue(c: char): (d: nat)
    requires IsDigit(c)
    ensures d < 10
  {
    c as int - '0' as int
  }

  function DigitChar(d: nat): (c: char)
    requires d < 10
    ensures IsDigit(c) && DigitValue(c) == d
  {
    (d + '0' as int) as char
  }

  /** The number that a string of decimal digits denotes, most significant digit first. */
  function Value(s: string): nat
    requires IsDigits(s)
  {
    if s == [] then 0 else 10 * Value(s[..|s| - 1]) + DigitValue(s[|s| - 1])
  }

  // ---------------------------------------------------------------------------
  // The parser
  // ---------------------------------------------------------------------------

  /** `u16::from_str(s)`. An empty string is `Empty`; a lone sign is
      `InvalidDigit`; one leading '+' is skipped, while a '-' is kept and then
      fails as a non-digit, because an unsigned type has no sign. */
  function ParseU16(s: string): (r: Result<u16, IntErrorKind>)
    ensures r == Err(Empty) <==> s == ""
  {
    match s
    case "" => Err(Empty)
    case "+" => Err(InvalidDigit)
    case "-" => Err(InvalidDigit)
    case _ => if s[0] == '+' then Accumulate(0, s[1..]) else Accumulate(0, s)
  }

  /** The digit loop: reads `rest` left to right onto the value `acc` read so
      far. Each digit is first checked to be a digit, then `acc * 10` and
      `acc * 10 + digit` are each checked against the u16 range, so the first
      character that is either a non-digit or an overflowing digit decides the
      error. */
  function Accumulate(acc: u16, rest: string): (r: Result<u16, IntErrorKind>)
    ensures r.Err? ==> r.error != Empty
    ensures r.Ok? ==> acc <= r.value
    decreases |rest|
  {
    if rest == [] then Ok(acc)
    else if !IsDigit(rest[0]) then Err(InvalidDigit)
    else if acc * 10 > MaxU16 then Err(PosOverflow)
    else if acc * 10 + DigitValue(rest[0]) > MaxU16 then Err(PosOverflow)
    else Accumulate(acc * 10 + DigitValue(rest[0]), rest[1..])
  }

  // ---------------------------------------------------------------------------
  // Reference definition
  // ---------------------------------------------------------------------------

  /** The characters that must be digits: `s` without one leading '+'. */
  function Unsigned(s: string): (d: string)
    ensures |d| <= |s|
  {
    if |s| > 0 && s[0] == '+' then s[1..] else s
  }

  /** The length of the longest prefix of `d` made of digits only. */
  function DigitRun(d: string): (k: nat)
    ensures k <= |d|
    ensures forall j :: 0 <= j < k ==> IsDigit(d[j])
    ensures k < |d| ==> !IsDigit(d[k])
  {
    if d == [] || !IsDigit(d[0]) then 0 else 1 + DigitRun(d[1..])
  }

  /** The text `u16::from_str` accepts: after an optional '+', a non-empty
      string of digits denoting at most 65535 (leading zeros allowed). */
  predicate IsU16Text(s: string) {
    var d := Unsigned(s);
    |d| > 0 && IsDigits(d) && Value(d) <= MaxU16
  }

  /** What a parse of a non-empty digit candidate `d` yields: if its longest
      digit prefix already exceeds 65535, the overflow is met first; otherwise
      a remaining character is an invalid digit; otherwise the value. */
  function Classify(d: string): Result<u16, IntErrorKind> {
    var k := DigitRun(d);
    if Value(d[..k]) > MaxU16 then Err(PosOverflow)
    else if k < |d| then Err(InvalidDigit)
    else Ok(Value(d[..k]))
  }

  /** The outcome of parsing `s`, stated without the digit loop. */
  function Expected(s: string): Result<u16, IntErrorKind> {
    if s == "" then Err(Empty)
    else if Unsigned(s) == "" then Err(InvalidDigit)
    else Classify(Unsigned(s))
  }

  /** The value of a digit string never decreases as more digits are read. */
  lemma {:induction false} ValueMonotone(d: string, i: nat, j: nat)
    requires i <= j <= |d| && IsDigits(d[..j])
    ensures IsDigits(d[..i]) && Value(d[..i]) <= Value(d[..j])
    decreases j
  {
    if i < j {
      assert d[..j][..j - 1] == d[..j - 1];
      ValueMonotone(d, i, j - 1);
    }
  }

  /** The digit loop, started after a digit prefix `d[..i]` whose value it has
      accumulated, ends in the outcome `Classify` gives for the whole of `d`. */
  lemma {:induction false} AccumulateFrom(d: string, i: nat)
    requires i <= DigitRun(d) && IsDigits(d[..i]) && Value(d[..i]) <= MaxU16
    ensures Accumulate(Value(d[..i]), d[i..]) == Classify(d)
    decreases |d| - i
  {
    var k := DigitRun(d);
    if i == |d| {
      assert d[..k] == d[..i];
    } else if IsDigit(d[i]) {
      var next := d[..i + 1];
      assert next[..i] == d[..i];
      assert IsDigits(next);
      assert Value(next) == 10 * Value(d[..i]) + DigitValue(d[i]);
      assert d[i..][1..] == d[i + 1..];
      ValueMonotone(d, i + 1, k);
      if Value(next) <= MaxU16 {
        AccumulateFrom(d, i + 1);
      }
    }
  }

  /** The parser agrees with its reference definition on every input. */
  lemma ParseMatchesExpected(s: string)
    ensures ParseU16(s) == Expected(s)
  {
    if s != "" && s != "+" && s != "-" {
      var d := Unsigned(s);
      assert d[..0] == "" && d[0..] == d;
      AccumulateFrom(d, 0);
    }
  }

  /** Parsing succeeds exactly on the accepted text, and then yields its value. */
  lemma ParseU16Ok(s: string)
    ensures ParseU16(s).Ok? <==> IsU16Text(s)
    ensures ParseU16(s).Ok? ==> ParseU16(s).value == Value(Unsigned(s))
  {
    ParseMatchesExpected(s);
    var d := Unsigned(s);
    if d != "" {
      var k := DigitRun(d);
      if k == |d| {
        assert d[..k] == d;
      } else {
        assert !IsDigits(d);
      }
    }
  }

  /** A character other than an ASCII digit, after the optional '+', makes the parse fail. */
  lemma ParseRejectsNonDigit(s: string, i: nat)
    requires i < |Unsigned(s)| && !IsDigit(Unsigned(s)[i])
    ensures ParseU16(s).Err?
  {
    ParseU16Ok(s);
  }

  /** Digits denoting more than 65535 fail with an overflow, never with a wrapped value. */
  lemma ParseRejectsOverflow(s: string)
    requires IsDigits(Unsigned(s)) && Value(Unsigned(s)) > MaxU16
    ensures ParseU16(s) == Err(PosOverflow)
  {
    ParseMatchesExpected(s);
    var d := Unsigned(s);
    assert d != "";
    assert DigitRun(d) == |d| && d[..|d|] == d;
  }

  // ---------------------------------------------------------------------------
  // Decimal rendering and the round trip
  // ---------------------------------------------------------------------------

  /** The decimal rendering of `n`, without leading zeros ("0" for zero). */
  function Decimal(n: nat): (s: string)
    ensures |s| > 0 && IsDigits(s)
    ensures |s| > 1 ==> s[0] != '0'
  {
    if n < 10 then [DigitChar(n)] else Decimal(n / 10) + [DigitChar(n % 10)]
  }

  lemma {:induction false} DecimalValue(n: nat)
    ensures Value(Decimal(n)) == n
  {
    if n >= 10 {
      var s := Decimal(n);
      assert s[..|s| - 1] == Decimal(n / 10);
      DecimalValue(n / 10);
    }
  }

  /** Rendering any u16 in decimal and parsing the text gives the number back. */
  lemma ParseDecimal(n: u16)
    ensures ParseU16(Decimal(n)) == Ok(n)
  {
    var s := Decimal(n);
    DecimalValue(n);
    assert Unsigned(s) == s;
    ParseU16Ok(s);
  }
}
