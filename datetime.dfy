/**
 * Flexible time parsing (time.go). `DateTime.Set` tries a fixed chain of
 * layouts and keeps the first that parses; the last resort reads the text as
 * milliseconds since the epoch. The calendar parsing of `time.Parse` is a
 * parameter: for each layout it either yields an instant or fails.
 */
module DateTimes {
  import opened Wrappers
  import opened GoInt
  import opened Strconv
  import opened GoTime
  import opened Errors

  /** The layouts `Set` tries, in its order. */
  datatype Layout = RFC3339 | DateAndTime | DateOnly | HourMinute {
    /** The Go layout string. */
    function Text(): string {
      match this
      case RFC3339 => "2006-01-02T15:04:05Z07:00"
      case DateAndTime => "2006-01-02T15:04:05"
      case DateOnly => "2006-01-02"
      case HourMinute => "15:04"
    }
  }

  /** `time.Parse(layout, s)`, reduced to success with an instant or failure. */
  type Parser = (Layout, string) -> Option<Time>

  /** A `(time.Time, error)` pair. */
  datatype Parsed = Parsed(t: Time, err: Option<Error>)

  /** `ParseTimeMs`: milliseconds since the epoch as an instant, split into whole
      seconds and nanoseconds with Go's truncating `/` and `%`. A string that is
      not an int64 gives the zero time and ParseInt's error. */
  function ParseTimeMs(tsMs: string): (r: Parsed)
    ensures ParseInt(tsMs).Failure? ==> r == Parsed(ZeroTime, Some(NumErr(ParseInt(tsMs).error)))
    ensures ParseInt(tsMs).Success? ==> r == Parsed(ParseInt(tsMs).value * Millisecond, None)
  {
    match ParseInt(tsMs)
    case Failure(e) => Parsed(ZeroTime, Some(NumErr(e)))
    case Success(msecs) =>
      var secs := Quot(msecs, 1000);
      var nsecs := 1_000_000 * Rem(msecs, 1000);
      QuotRem(msecs, 1000);
      assert Unix(secs, nsecs) == 1_000_000 * (secs * 1000 + Rem(msecs, 1000));
      Parsed(Unix(secs, nsecs), None)
  }

  /** The split of `ParseTimeMs` loses nothing: the seconds and the nanosecond
      part (under a second, with the sign of `ms`) recombine to `ms`. */
  lemma MillisecondSplit(ms: int)
    ensures Quot(ms, 1000) * 1000 + Quot(1_000_000 * Rem(ms, 1000), 1_000_000) == ms
    ensures Abs(1_000_000 * Rem(ms, 1000)) < Second
    ensures (ms >= 0 ==> 1_000_000 * Rem(ms, 1000) >= 0) && (ms <= 0 ==> 1_000_000 * Rem(ms, 1000) <= 0)
  {
    QuotRem(ms, 1000);
    var r := Rem(ms, 1000);
    QuotRem(1_000_000 * r, 1_000_000);
    assert Quot(1_000_000 * r, 1_000_000) == r by {
      if r >= 0 {
        assert (1_000_000 * r) / 1_000_000 == r;
      } else {
        assert (-(1_000_000 * r)) / 1_000_000 == -r;
      }
    }
  }

  /** The first success among a chain of attempts. */
  function FirstSuccess(attempts: seq<Option<Time>>): Option<Time> {
    if attempts == [] then None
    else if attempts[0].Some? then attempts[0]
    else FirstSuccess(attempts[1..])
  }

  /** `FirstSuccess` picks attempt `k` when it succeeds and all earlier ones failed. */
  lemma {:induction false} FirstSuccessAt(attempts: seq<Option<Time>>, k: nat)
    requires k < |attempts| && attempts[k].Some?
    requires forall j :: 0 <= j < k ==> attempts[j].None?
    ensures FirstSuccess(attempts) == attempts[k]
  {
    if k > 0 {
      FirstSuccessAt(attempts[1..], k - 1);
    }
  }

  /** `FirstSuccess` fails exactly when every attempt fails. */
  lemma {:induction false} FirstSuccessNone(attempts: seq<Option<Time>>)
    ensures FirstSuccess(attempts).None? <==> forall j :: 0 <= j < |attempts| ==> attempts[j].None?
  {
    if attempts != [] {
      FirstSuccessNone(attempts[1..]);
      assert forall j :: 1 <= j < |attempts| ==> attempts[j] == attempts[1..][j - 1];
    }
  }

  /** The attempts `Set` makes on `s`, in order: the four layouts, then epoch
      milliseconds. */
  function Attempts(parse: Parser, s: string): seq<Option<Time>> {
    var ms := ParseTimeMs(s);
    [parse(RFC3339, s), parse(DateAndTime, s), parse(DateOnly, s), parse(HourMinute, s),
     if ms.err.None? then Some(ms.t) else None]
  }

  /** `DateTime`: a time that `Set` and `UnmarshalJSON` overwrite in place. */
  class DateTime {
    var time: Time

    constructor (t: Time)
      ensures time == t
    {
      time := t;
    }

    /** `Set`: "null" is accepted and changes nothing; otherwise the first
        attempt that succeeds is stored, and when all fail the time is left
        as it was and the error of `ParseTimeMs` is returned. */
    method Set(parse: Parser, s: string) returns (err: Option<Error>)
      modifies this
      ensures s == "null" ==> err.None? && time == old(time)
      ensures s != "null" ==> (err.None? <==> FirstSuccess(Attempts(parse, s)).Some?)
      ensures s != "null" && err.None? ==> time == FirstSuccess(Attempts(parse, s)).value
      ensures err.Some? ==> time == old(time) && err == ParseTimeMs(s).err
    {
      if s == "null" {
        return None;
      }
      ghost var attempts := Attempts(parse, s);
      var t := parse(RFC3339, s);
      if t.Some? {
        FirstSuccessAt(attempts, 0);
        time := t.value;
        return None;
      }
      t := parse(DateAndTime, s);
      if t.Some? {
        FirstSuccessAt(attempts, 1);
        time := t.value;
        return None;
      }
      t := parse(DateOnly, s);
      if t.Some? {
        FirstSuccessAt(attempts, 2);
        time := t.value;
        return None;
      }
      t := parse(HourMinute, s);
      if t.Some? {
        FirstSuccessAt(attempts, 3);
        time := t.value;
        return None;
      }
      var ms := ParseTimeMs(s);
      if ms.err.None? {
        FirstSuccessAt(attempts, 4);
        time := ms.t;
        return None;
      }
      FirstSuccessNone(attempts);
      return ms.err;
    }

    /** `UnmarshalJSON`: `Set` on the bytes with one pair of surrounding quotes
        removed. The source indexes the first byte and, for a lone quote,
        slices `b[1:0]`; both panic, so those inputs are excluded. */
    method UnmarshalJSON(parse: Parser, b: string) returns (err: Option<Error>)
      requires |b| > 0 && b != "\""
      modifies this
      ensures var s := StripQuotes(b);
        && (s == "null" ==> err.None? && time == old(time))
        && (s != "null" ==> (err.None? <==> FirstSuccess(Attempts(parse, s)).Some?))
        && (s != "null" && err.None? ==> time == FirstSuccess(Attempts(parse, s)).value)
        && (err.Some? ==> time == old(time) && err == ParseTimeMs(s).err)
    {
      err := Set(parse, StripQuotes(b));
    }
  }

  /** The JSON text with one pair of surrounding double quotes removed, when both
      the first and the last byte are quotes; otherwise unchanged. */
  function StripQuotes(b: string): (s: string)
    requires |b| > 0 && b != "\""
    ensures b[0] == '"' && b[|b| - 1] == '"' ==> b == "\"" + s + "\""
    ensures !(b[0] == '"' && b[|b| - 1] == '"') ==> s == b
  {
    if b[0] == '"' && b[|b| - 1] == '"' then b[1..|b| - 1] else b
  }

  /** Quoting a string and stripping the quotes gives it back. */
  lemma StripQuotesRoundTrip(s: string)
    ensures StripQuotes("\"" + s + "\"") == s
  {
    var b := "\"" + s + "\"";
    assert b[1..|b| - 1] == s;
  }
}
