/** The string operations the adapters rely on: substring search (`str::contains`),
    decimal rendering (`u64::to_string`) and decimal parsing (`str::parse::<u64>`). */
module Strings {
  import opened Wrappers
  import opened Numeric

  // ---------------------------------------------------------------------------
  // Substring search

  predicate StartsWith(s: string, prefix: string) {
    |prefix| <= |s| && s[..|prefix|] == prefix
  }

  /** `pattern` occurs somewhere in `s`; as in Rust, the empty pattern occurs everywhere. */
  ghost predicate OccursAt(s: string, pattern: string, i: int) {
    0 <= i && i + |pattern| <= |s| && s[i..i + |pattern|] == pattern
  }

  /** `str::contains`, searched left to right. */
  function Contains(s: string, pattern: string): (b: bool)
    ensures b <==> exists i :: OccursAt(s, pattern, i)
    decreases |s|
  {
    if StartsWith(s, pattern) then
      assert OccursAt(s, pattern, 0);
      true
    else if |s| == 0 then
      false
    else
      var rest := Contains(s[1..], pattern);
      OccursShift(s, pattern);
      rest
  }

  /** An occurrence in `s` that is not at the start is an occurrence in `s[1..]`, shifted. */
  lemma OccursShift(s: string, pattern: string)
    requires 0 < |s| && !StartsWith(s, pattern)
    ensures (exists i :: OccursAt(s, pattern, i)) <==> (exists i :: OccursAt(s[1..], pattern, i))
  {
    if exists i :: OccursAt(s, pattern, i) {
      var i :| OccursAt(s, pattern, i);
      assert i != 0;
      assert s[1..][i - 1..i - 1 + |pattern|] == s[i..i + |pattern|];
      assert OccursAt(s[1..], pattern, i - 1);
    }
    if exists i :: OccursAt(s[1..], pattern, i) {
      var i :| OccursAt(s[1..], pattern, i);
      assert s[i + 1..i + 1 + |pattern|] == s[1..][i..i + |pattern|];
      assert OccursAt(s, pattern, i + 1);
    }
  }

  // ---------------------------------------------------------------------------
  // Decimal digits

  predicate IsDigit(c: char) {
    '0' <= c <= '9'
  }

  predicate AllDigits(s: string) {
    forall i :: 0 <= i < |s| ==> IsDigit(s[i])
  }

  function DigitValue(c: char): nat
    requires IsDigit(c)
  {
    c as int - '0' as int
  }

  function DigitChar(d: nat): (c: char)
    requires d < 10
    ensures IsDigit(c) && DigitValue(c) == d
  {
    ('0' as int + d) as char
  }

  /** The number written by the digit string `ds`, read left to right onto `acc`
      (Horner's rule); `Horner(0, ds)` is the plain decimal value of `ds`. */
  function Horner(acc: nat, ds: string): nat
    requires AllDigits(ds)
    decreases |ds|
  {
    if |ds| == 0 then acc else Horner(acc * 10 + DigitValue(ds[0]), ds[1..])
  }

  /** Reading more digits never makes a number smaller. */
  lemma {:induction false} HornerAtLeast(acc: nat, ds: string)
    ensures AllDigits(ds) ==> Horner(acc, ds) >= acc
    decreases |ds|
  {
    if |ds| > 0 && AllDigits(ds) {
      HornerAtLeast(acc * 10 + DigitValue(ds[0]), ds[1..]);
    }
  }

  /** Appending a digit multiplies the value read so far by ten and adds the digit. */
  lemma {:induction false} HornerSnoc(acc: nat, ds: string, c: char)
    requires AllDigits(ds) && IsDigit(c)
    ensures AllDigits(ds + [c])
    ensures Horner(acc, ds + [c]) == Horner(acc, ds) * 10 + DigitValue(c)
    decreases |ds|
  {
    if |ds| == 0 {
      assert ds + [c] == [c];
      assert [c][1..] == [];
    } else {
      assert (ds + [c])[1..] == ds[1..] + [c];
      HornerSnoc(acc * 10 + DigitValue(ds[0]), ds[1..], c);
    }
  }

  /** `u64::to_string`: the shortest decimal numeral of `n`. */
  function DecimalString(n: nat): (s: string)
    ensures 0 < |s| && AllDigits(s)
    ensures Horner(0, s) == n
    ensures s[0] == '0' <==> s == "0"
    ensures s == "0" <==> n == 0
    decreases n
  {
    if n < 10 then
      [DigitChar(n)]
    else
      var prefix := DecimalString(n / 10);
      HornerSnoc(0, prefix, DigitChar(n % 10));
      prefix + [DigitChar(n % 10)]
  }

  // ---------------------------------------------------------------------------
  // Parsing `u64`

  /** The three ways `str::parse::<u64>` fails (Rust's `IntErrorKind`). */
  datatype IntErrorKind = Empty | InvalidDigit | PosOverflow {

    /** The `Display` text of a `ParseIntError` of this kind. */
    function Message(): string {
      match this
      case Empty => "cannot parse integer from empty string"
      case InvalidDigit => "invalid digit found in string"
      case PosOverflow => "number too large to fit in target type"
    }
  }

  /** The digits after an optional leading `+` sign. */
  function UnsignedDigits(s: string): string {
    if 0 < |s| && s[0] == '+' then s[1..] else s
  }

  /** The strings `str::parse::<u64>` accepts: an optional `+`, then at least one decimal
      digit (leading zeros allowed), denoting a value below 2^64. */
  predicate IsU64Literal(s: string) {
    var ds := UnsignedDigits(s);
    0 < |ds| && AllDigits(ds) && Horner(0, ds) < U64_LIMIT
  }

  /** Rust's digit loop: each character is checked to be a digit before the
      multiply-and-add is checked for overflow, so the first offending character decides
      between `InvalidDigit` and `PosOverflow`. */
  function ScanDigits(ds: string, acc: U64): (r: Result<U64, IntErrorKind>)
    ensures r.Success? <==> AllDigits(ds) && Horner(acc, ds) < U64_LIMIT
    ensures r.Success? ==> r.value == Horner(acc, ds)
    ensures r.Failure? ==> r.error != Empty
    decreases |ds|
  {
    if |ds| == 0 then
      Success(acc)
    else if !IsDigit(ds[0]) then
      Failure(InvalidDigit)
    else
      var next := acc * 10 + DigitValue(ds[0]);
      if next >= U64_LIMIT then
        HornerAtLeast(next, ds[1..]);
        Failure(PosOverflow)
      else
        ScanDigits(ds[1..], next)
  }

  /** `str::parse::<u64>`. */
  function ParseU64(s: string): (r: Result<U64, IntErrorKind>)
    ensures r.Success? <==> IsU64Literal(s)
    ensures r.Success? ==> r.value == Horner(0, UnsignedDigits(s))
    ensures r == Failure(Empty) <==> |s| == 0
  {
    if |s| == 0 then Failure(Empty)
    else if s == "+" || s == "-" then Failure(InvalidDigit)
    else ScanDigits(UnsignedDigits(s), 0)
  }

  /** Rendering a `u64` and parsing it back gives the same number. */
  lemma DecimalRoundTrip(n: U64)
    ensures ParseU64(DecimalString(n)) == Success(n)
  {
  }

  /** Two `u64`s with the same rendering are equal: `to_string` loses nothing. */
  lemma DecimalStringInjective(m: U64, n: U64)
    requires DecimalString(m) == DecimalString(n)
    ensures m == n
  {
  }
}
