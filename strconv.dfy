/**
 * Go's `strconv.ParseInt(s, 10, 64)` and decimal formatting of a
 * non-negative integer (`strconv.Itoa`, `fmt`'s `%d`).
 */
module Strconv {
  import opened Wrappers
  import opened GoInt

  datatype NumErrorKind = ErrSyntax | ErrRange

  /** `*strconv.NumError`: the function that failed, its input and the reason. */
  datatype NumError = NumError(func: string, num: string, kind: NumErrorKind)

  predicate IsDigit(c: char) {
    '0' <= c <= '9'
  }

  function DigitValue(c: char): nat
    requires IsDigit(c)
  {
    c as int - '0' as int
  }

  predicate AllDigits(s: string) {
    forall k :: 0 <= k < |s| ==> IsDigit(s[k])
  }

  /** The value of the decimal digits `s` written after the digits worth `acc`. */
  function DecimalValue(acc: nat, s: string): nat
    requires AllDigits(s)
    decreases |s|
  {
    if s == [] then acc else DecimalValue(acc * 10 + DigitValue(s[0]), s[1..])
  }

  /** What `ParseInt` accepts in base 10: an optional sign and at least one digit. */
  predicate IsIntSyntax(s: string) {
    (|s| > 0 && AllDigits(s))
    || (|s| > 1 && (s[0] == '+' || s[0] == '-') && AllDigits(s[1..]))
  }

  /** The mathematical value of a well-formed decimal integer. */
  function IntValue(s: string): int
    requires IsIntSyntax(s)
  {
    if s[0] == '-' then -(DecimalValue(0, s[1..]) as int)
    else if s[0] == '+' then DecimalValue(0, s[1..])
    else DecimalValue(0, s)
  }

  /** The digit loop of `ParseUint` in base 10 for 64 bits: a non-digit is a
      syntax error, and an accumulated value above 2^64-1 a range error, at
      the character where it happens. */
  function ScanDigits(acc: nat, s: string): Result<nat, NumErrorKind>
    decreases |s|
  {
    if s == [] then Success(acc)
    else if !IsDigit(s[0]) then Failure(ErrSyntax)
    else
      var n := acc * 10 + DigitValue(s[0]);
      if n > MaxUint64 then Failure(ErrRange) else ScanDigits(n, s[1..])
  }

  /** `strconv.ParseUint(s, 10, 64)`, reporting only the reason of a failure. */
  function ParseUint(s: string): Result<nat, NumErrorKind> {
    if s == [] then Failure(ErrSyntax) else ScanDigits(0, s)
  }

  /** `strconv.ParseInt(s, 10, 64)`: every failure is reported as a
      `NumError` of "ParseInt" carrying the whole input. */
  function ParseInt(s: string): Result<int, NumError> {
    if s == [] then Failure(NumError("ParseInt", s, ErrSyntax))
    else
      var neg := s[0] == '-';
      var body := if s[0] == '+' || s[0] == '-' then s[1..] else s;
      match ParseUint(body)
      case Failure(kind) => Failure(NumError("ParseInt", s, kind))
      case Success(un) =>
        if !neg && un >= 0x8000_0000_0000_0000 then Failure(NumError("ParseInt", s, ErrRange))
        else if neg && un > 0x8000_0000_0000_0000 then Failure(NumError("ParseInt", s, ErrRange))
        else Success(if neg then -(un as int) else un)
  }

  lemma {:induction false} DecimalValueAtLeast(acc: nat, s: string)
    requires AllDigits(s)
    ensures DecimalValue(acc, s) >= acc
    ensures s != [] ==> DecimalValue(acc, s) >= acc * 10
    decreases |s|
  {
    if s != [] {
      DecimalValueAtLeast(acc * 10 + DigitValue(s[0]), s[1..]);
    }
  }

  /** On digits the scan yields their value unless it exceeds 2^64-1;
      anything else fails. */
  lemma {:induction false} ScanDigitsMeaning(acc: nat, s: string)
    requires acc <= MaxUint64
    ensures AllDigits(s) && DecimalValue(acc, s) <= MaxUint64 ==> ScanDigits(acc, s) == Success(DecimalValue(acc, s))
    ensures AllDigits(s) && DecimalValue(acc, s) > MaxUint64 ==> ScanDigits(acc, s) == Failure(ErrRange)
    ensures !AllDigits(s) ==> ScanDigits(acc, s).Failure?
    decreases |s|
  {
    if s != [] {
      if IsDigit(s[0]) {
        var n := acc * 10 + DigitValue(s[0]);
        assert AllDigits(s) <==> AllDigits(s[1..]) by {
          if AllDigits(s[1..]) {
            forall k | 0 <= k < |s| ensures IsDigit(s[k]) {
              if k > 0 { assert s[k] == s[1..][k - 1]; }
            }
          }
        }
        if n <= MaxUint64 {
          ScanDigitsMeaning(n, s[1..]);
        } else if AllDigits(s) {
          DecimalValueAtLeast(n, s[1..]);
        }
      }
    }
  }

  /** `ParseInt` succeeds exactly on an optionally signed run of digits whose
      value fits in int64, and then returns that value; every failure names
      "ParseInt" and the input, and a well-formed number out of range is a
      range error. */
  lemma ParseIntMeaning(s: string)
    ensures ParseInt(s).Success? <==> IsIntSyntax(s) && IsInt64(IntValue(s))
    ensures ParseInt(s).Success? ==> ParseInt(s).value == IntValue(s)
    ensures ParseInt(s).Failure? ==> ParseInt(s).error.func == "ParseInt" && ParseInt(s).error.num == s
    ensures IsIntSyntax(s) && !IsInt64(IntValue(s)) ==> ParseInt(s).error.kind == ErrRange
  {
    if s != [] {
      var body := if s[0] == '+' || s[0] == '-' then s[1..] else s;
      ScanDigitsMeaning(0, body);
      if s[0] == '+' || s[0] == '-' {
        assert !AllDigits(s) by { assert !IsDigit(s[0]); }
      }
    }
  }

  function DigitChar(d: nat): char
    requires d < 10
  {
    ('0' as int + d) as char
  }

  /** Decimal representation of a non-negative integer, without leading zeros. */
  function FormatNat(n: nat): string
  {
    if n < 10 then [DigitChar(n)] else FormatNat(n / 10) + [DigitChar(n % 10)]
  }

  /** `FormatNat` yields a well-formed number that parses back to `n`. */
  lemma {:induction false} FormatNatRoundTrip(n: nat)
    ensures AllDigits(FormatNat(n)) && FormatNat(n) != []
    ensures DecimalValue(0, FormatNat(n)) == n
  {
    if n >= 10 {
      FormatNatRoundTrip(n / 10);
      DecimalValueSnoc(0, FormatNat(n / 10), DigitChar(n % 10));
    }
  }

  lemma {:induction false} DecimalValueSnoc(acc: nat, s: string, c: char)
    requires AllDigits(s) && IsDigit(c)
    ensures AllDigits(s + [c])
    ensures DecimalValue(acc, s + [c]) == DecimalValue(acc, s) * 10 + DigitValue(c)
    decreases |s|
  {
    if s == [] {
      assert [] + [c] == [c];
    } else {
      assert (s + [c])[1..] == s[1..] + [c];
      DecimalValueSnoc(acc * 10 + DigitValue(s[0]), s[1..], c);
    }
  }
}
