/**
 * Time-and-sales retrieval in client.go: the request URL, the "list or single
 * object" decoding of the result, and `GetTimeSales`, which halves the
 * requested range whenever the server answers that the result would be too
 * large. The request itself (sending it through `do` and decoding the body)
 * is an oracle `fetch(start, end)`.
 */
module TimeSales {
  import opened Wrappers
  import opened Seqs
  import opened GoInt
  import opened GoStrings
  import opened GoTime
  import opened Errors

  /** The fields of a bar the model keeps (the prices are floats). */
  datatype TimeSale = TimeSale(date: Time, time: Time, timestamp: int, volume: int)

  /** `Interval` values (interface.go). */
  const IntervalTick: string := "tick"
  const IntervalMinute: string := "1min"
  const Interval5Min: string := "5min"
  const Interval15Min: string := "15min"
  const IntervalDaily: string := "daily"
  const IntervalWeekly: string := "weekly"
  const IntervalMonthly: string := "monthly"

  predicate IsHistoryInterval(interval: string) {
    interval == IntervalDaily || interval == IntervalWeekly || interval == IntervalMonthly
  }

  // ---------------------------------------------------------------------------
  // getTimeSalesUrl

  datatype Zone = UTC | NewYork

  /** `t.In(zone).Format(layout)`, left opaque. */
  type TimeFormatter = (Time, Zone, string) -> string

  const HistoryLayout: string := "2006-01-02"
  const TimeSalesLayout: string := "2006-01-02T15:04:05"

  /** The endpoint path, layout and zone an interval calls for: daily,
      weekly and monthly bars come from the history endpoint as UTC dates,
      everything else from the time-sales endpoint as New York times. */
  function Route(interval: string): (string, string, Zone) {
    if IsHistoryInterval(interval) then ("/v1/markets/history", HistoryLayout, UTC)
    else ("/v1/markets/timesales", TimeSalesLayout, NewYork)
  }

  /** The optional query parameters, in the order they are appended. */
  function OptionalQuery(interval: string, start: Time, end: Time, format: TimeFormatter): string {
    var (_, layout, zone) := Route(interval);
    (if interval != "" then "&interval=" + interval else "")
    + (if !IsZero(start) then "&start=" + format(start, zone, layout) else "")
    + (if !IsZero(end) then "&end=" + format(end, zone, layout) else "")
  }

  /** `getTimeSalesUrl`. */
  function TimeSalesUrl(endpoint: string, symbol: string, interval: string, start: Time, end: Time,
                        format: TimeFormatter): (url: string)
    ensures IsHistoryInterval(interval) ==> HasPrefix(url, endpoint + "/v1/markets/history?symbol=" + symbol)
    ensures !IsHistoryInterval(interval) ==> HasPrefix(url, endpoint + "/v1/markets/timesales?symbol=" + symbol)
    ensures interval == "" && IsZero(start) && IsZero(end) ==> url == endpoint + Route(interval).0 + "?symbol=" + symbol
  {
    endpoint + Route(interval).0 + "?symbol=" + symbol + OptionalQuery(interval, start, end, format)
  }

  /** The URL sees the start and the end only through whether each is set
      and, when set, its text in the interval's zone and layout: two requests
      whose bounds format alike (say two instants on the same UTC day for
      daily bars) ask for the same URL. */
  lemma TimeSalesUrlDependsOnFormattedTimes(endpoint: string, symbol: string, interval: string,
                                            start: Time, end: Time, start': Time, end': Time,
                                            format: TimeFormatter)
    requires IsZero(start) == IsZero(start') && IsZero(end) == IsZero(end')
    requires !IsZero(start) ==> format(start, Route(interval).2, Route(interval).1) == format(start', Route(interval).2, Route(interval).1)
    requires !IsZero(end) ==> format(end, Route(interval).2, Route(interval).1) == format(end', Route(interval).2, Route(interval).1)
    ensures TimeSalesUrl(endpoint, symbol, interval, start, end, format)
         == TimeSalesUrl(endpoint, symbol, interval, start', end', format)
  {
  }

  // ---------------------------------------------------------------------------
  // timeSaleList.UnmarshalJSON

  /** A `timeSaleList`: replaced in place when the data decodes. */
  class TimeSaleList {
    var items: seq<TimeSale>

    constructor ()
      ensures items == []
    {
      items := [];
    }

    /** First the data is read as a list; failing that, as a single object.
        `asList` and `asObject` are what `json.Unmarshal` makes of it each way. */
    method UnmarshalJSON(asList: Result<seq<TimeSale>, Error>, asObject: Result<TimeSale, Error>)
      returns (err: Option<Error>)
      modifies this
      ensures asList.Success? ==> items == asList.value && err.None?
      ensures asList.Failure? && asObject.Success? ==> items == [asObject.value] && err.None?
      ensures asList.Failure? && asObject.Failure? ==> items == old(items) && err == Some(asObject.error)
    {
      if asList.Success? {
        items := asList.value;
        return None;
      }
      if asObject.Success? {
        items := [asObject.value];
        return None;
      }
      err := Some(asObject.error);
    }
  }

  // ---------------------------------------------------------------------------
  // bisect and GetTimeSales

  /** `bisect`: the middle of the range, with `now` standing in for an unset
      end; the half-width is the saturated difference halved toward zero. */
  function Bisect(start: Time, end: Time, now: Time): (middle: Time)
    ensures var e := if IsZero(end) then now else end;
            (start <= e ==> start <= middle <= e) && (e <= start ==> e <= middle <= start)
    ensures var e := if IsZero(end) then now else end;
            IsInt64(e - start) ==> middle == start + Quot(e - start, 2)
  {
    var e := if IsZero(end) then now else end;
    var delta := Sub(e, start);
    QuotRem(delta, 2);
    Add(start, Quot(delta, 2))
  }

  /** The result of one request for `[start, end]`: the decoded bars or an error. */
  type Fetch = (Time, Time) -> Result<seq<TimeSale>, Error>

  /** The length of a range with a set end. */
  function Span(start: Time, end: Time): nat {
    if IsZero(end) || end <= start then 0 else end - start
  }

  /** 1 for a range with a set end that has the zero time strictly inside:
      only such a range can be split exactly at the zero time, making its
      first half a range with an unset end. */
  function Straddles(start: Time, end: Time): nat {
    if !IsZero(end) && start < ZeroTime < end then 1 else 0
  }

  /** The length a range counts for in the recursion: up to `now` when the
      end is unset, as `bisect` measures it. */
  function Reach(now: Time, start: Time, end: Time): nat {
    if IsZero(end) then (if start < now then now - start else 0) else Span(start, end)
  }

  /** `GetTimeSales`, for a clock reading `now` at or after the zero time
      (see `ClockBeforeYearOneRepeats` for an earlier one); any start.
      Nothing is made up: an error returned is one some request returned, and
      every bar returned is one some request returned. */
  function GetTimeSales(fetch: Fetch, now: Time, start: Time, end: Time): (r: Result<seq<TimeSale>, Error>)
    requires ZeroTime <= now
    ensures r.Failure? ==> exists s: Time, e: Time :: fetch(s, e) == Failure(r.error)
    ensures r.Success? ==> forall x :: x in r.value ==>
              exists s: Time, e: Time :: fetch(s, e).Success? && x in fetch(s, e).value
    decreases Straddles(start, end), Reach(now, start, end)
  {
    match fetch(start, end)
    case Success(data) => Success(data)
    case Failure(err) =>
      if !IsBodyTooBig(err) then Failure(err)
      else
        var middle := Bisect(start, end, now);
        if Sub(end, middle) < Minute then Failure(err)
        else
          SplitDecreases(start, end, now);
          match GetTimeSales(fetch, now, start, middle)
          case Failure(e1) => Failure(e1)
          case Success(firstHalf) =>
            match GetTimeSales(fetch, now, middle, end)
            case Failure(e2) => Failure(e2)
            case Success(secondHalf) => Success(firstHalf + secondHalf)
  }

  /** When a range is split, the middle lies strictly inside it (reading an
      unset end as `now`), and each half is smaller in the recursion's
      measure: it straddles the zero time less, or equally and is shorter. */
  lemma SplitDecreases(start: Time, end: Time, now: Time)
    requires ZeroTime <= now
    requires Sub(end, Bisect(start, end, now)) >= Minute
    ensures var m := Bisect(start, end, now);
            start < m < (if IsZero(end) then now else end)
    ensures var m := Bisect(start, end, now);
            Straddles(start, m) < Straddles(start, end)
            || (Straddles(start, m) == Straddles(start, end) && Reach(now, start, m) < Reach(now, start, end))
    ensures var m := Bisect(start, end, now);
            Straddles(m, end) < Straddles(start, end)
            || (Straddles(m, end) == Straddles(start, end) && Reach(now, m, end) < Reach(now, start, end))
  {
    var m := Bisect(start, end, now);
    var e := if IsZero(end) then now else end;
    SubMinute(end, m);
    assert end - m >= Minute;
    // The middle is at least a minute before the end, so the range runs forward.
    assert start <= m <= e;
    var delta := Sub(e, start);
    assert delta >= Minute;
    QuotRem(delta, 2);
    assert m == start + Quot(delta, 2);
    assert start < m;
  }

  /** `Sub` keeps the sign and the comparison with one minute. */
  lemma SubMinute(t: Time, u: Time)
    ensures Sub(t, u) >= Minute <==> t - u >= Minute
  {
  }

  /** When the range is split, both halves are strictly shorter and the
      middle lies strictly inside. */
  lemma SplitShrinks(start: Time, end: Time, now: Time)
    requires ZeroTime <= start && ZeroTime <= now
    requires Sub(end, Bisect(start, end, now)) >= Minute
    ensures start < Bisect(start, end, now) < end
    ensures !IsZero(end) && !IsZero(Bisect(start, end, now))
    ensures Span(start, Bisect(start, end, now)) < Span(start, end)
    ensures Span(Bisect(start, end, now), end) < Span(start, end)
  {
    var middle := Bisect(start, end, now);
    SubMinute(end, middle);
    // With an unset end the middle lies between start and now, both at or
    // after the zero time, so the end is not a minute past it.
    assert IsZero(end) ==> ZeroTime <= middle;
    assert !IsZero(end);
    assert start <= middle;
    var delta := Sub(end, start);
    assert delta >= Minute;
    QuotRem(delta, 2);
    assert middle == start + Quot(delta, 2);
  }

  /** A success, and any error other than "too big", are returned unchanged. */
  lemma PassThrough(fetch: Fetch, now: Time, start: Time, end: Time)
    requires ZeroTime <= now
    ensures fetch(start, end).Success? ==> GetTimeSales(fetch, now, start, end) == fetch(start, end)
    ensures fetch(start, end).Failure? && !IsBodyTooBig(fetch(start, end).error) ==>
              GetTimeSales(fetch, now, start, end) == fetch(start, end)
  {
  }

  /** A "too big" error on a range whose second half would be under a minute
      is returned as it is. */
  lemma GivesUpBelowMinute(fetch: Fetch, now: Time, start: Time, end: Time)
    requires ZeroTime <= now
    requires fetch(start, end).Failure? && IsBodyTooBig(fetch(start, end).error)
    requires Sub(end, Bisect(start, end, now)) < Minute
    ensures GetTimeSales(fetch, now, start, end) == fetch(start, end)
  {
  }

  /** Otherwise the two halves are fetched in order; their results are
      concatenated, first half first, and an error in either is returned. */
  lemma SplitCombines(fetch: Fetch, now: Time, start: Time, end: Time)
    requires ZeroTime <= now
    requires fetch(start, end).Failure? && IsBodyTooBig(fetch(start, end).error)
    requires Sub(end, Bisect(start, end, now)) >= Minute
    ensures var middle := Bisect(start, end, now);
            var first := GetTimeSales(fetch, now, start, middle);
            var second := GetTimeSales(fetch, now, middle, end);
            GetTimeSales(fetch, now, start, end) ==
              if first.Failure? then first
              else if second.Failure? then second
              else Success(first.value + second.value)
  {
    SplitDecreases(start, end, now);
  }

  /** The unset end is replaced by `now` only inside `bisect`: the caller
      still measures from the zero time, finds the second half negative and
      returns the "too big" error without splitting. */
  lemma UnsetEndNeverSplits(fetch: Fetch, now: Time, start: Time)
    requires ZeroTime <= start && ZeroTime <= now
    ensures GetTimeSales(fetch, now, start, ZeroTime) == fetch(start, ZeroTime)
  {
    var middle := Bisect(start, ZeroTime, now);
    assert ZeroTime <= middle;
    assert Sub(ZeroTime, middle) < Minute;
  }

  /** Before year 1 it is different: a start far enough back puts the middle
      more than a minute before the zero time, so the range is split, and its
      second half again has an unset end, now from the later start. */
  lemma UnsetEndSplitsBeforeYearOne(now: Time, start: Time)
    requires ZeroTime <= now
    requires IsInt64(now - start) && now + start <= 2 * (ZeroTime - Minute)
    ensures Sub(ZeroTime, Bisect(start, ZeroTime, now)) >= Minute
    ensures start < Bisect(start, ZeroTime, now) && !IsZero(Bisect(start, ZeroTime, now))
  {
    var m := Bisect(start, ZeroTime, now);
    QuotRem(now - start, 2);
    assert m == start + Quot(now - start, 2);
    assert 2 * m <= now + start;
  }

  /** Why the clock must be at or after year 1: with a clock more than a
      minute before it, a range from `now` with an unset end is split at its
      own start, so its second half is the very same call and Go recurses
      without end. */
  lemma ClockBeforeYearOneRepeats(now: Time)
    requires now < ZeroTime - Minute
    ensures Bisect(now, ZeroTime, now) == now
    ensures Sub(ZeroTime, Bisect(now, ZeroTime, now)) >= Minute
  {
    QuotRem(0, 2);
  }

  // ---------------------------------------------------------------------------
  // Bisection against a server with a size limit

  /** Bars ordered by time. */
  predicate Sorted(data: seq<TimeSale>) {
    forall j, k :: 0 <= j < k < |data| ==> data[j].time <= data[k].time
  }

  /** The bars with `s <= time < e`, in order. */
  function Window(data: seq<TimeSale>, s: Time, e: Time): seq<TimeSale>
    decreases |data|
  {
    if data == [] then []
    else (if s <= data[0].time < e then [data[0]] else []) + Window(data[1..], s, e)
  }

  lemma {:induction false} WindowAbove(data: seq<TimeSale>, s: Time, m: Time, e: Time)
    requires forall k :: 0 <= k < |data| ==> m <= data[k].time
    requires s <= m
    ensures Window(data, s, m) == []
    ensures Window(data, s, e) == Window(data, m, e)
    decreases |data|
  {
    if data != [] {
      WindowAbove(data[1..], s, m, e);
    }
  }

  lemma SortedTail(data: seq<TimeSale>)
    requires Sorted(data) && data != []
    ensures Sorted(data[1..])
    ensures forall k :: 0 <= k < |data| ==> data[0].time <= data[k].time
  {
    var rest := data[1..];
    forall j, k | 0 <= j < k < |rest|
      ensures rest[j].time <= rest[k].time
    {
      assert rest[j] == data[j + 1] && rest[k] == data[k + 1];
    }
  }

  lemma {:induction false} WindowSplitStep(data: seq<TimeSale>, s: Time, m: Time, e: Time)
    requires data != [] && data[0].time < m <= e
    requires Window(data[1..], s, m) + Window(data[1..], m, e) == Window(data[1..], s, e)
    ensures Window(data, s, m) + Window(data, m, e) == Window(data, s, e)
  {
    var x := data[0];
    var rest := data[1..];
    var h1: seq<TimeSale> := if s <= x.time < m then [x] else [];
    var h3: seq<TimeSale> := if s <= x.time < e then [x] else [];
    var a := Window(rest, s, m);
    var b := Window(rest, m, e);
    assert Window(data, m, e) == b;
    assert h1 == h3;
    calc {
      Window(data, s, m) + Window(data, m, e);
      (h1 + a) + b;
      { ConcatAssoc(h1, a, b); }
      h1 + (a + b);
      Window(data, s, e);
    }
  }

  /** Adjacent windows of sorted data concatenate to the window over their union. */
  lemma {:induction false} WindowSplit(data: seq<TimeSale>, s: Time, m: Time, e: Time)
    requires Sorted(data) && s <= m <= e
    ensures Window(data, s, m) + Window(data, m, e) == Window(data, s, e)
    decreases |data|
  {
    if data != [] {
      var x := data[0];
      var rest := data[1..];
      SortedTail(data);
      if x.time < m {
        WindowSplit(rest, s, m, e);
        WindowSplitStep(data, s, m, e);
      } else {
        WindowAbove(data, s, m, e);
      }
    }
  }

  /** A server that holds `data` and refuses ranges longer than `limit`. */
  function LimitedServer(data: seq<TimeSale>, limit: int, s: Time, e: Time): Result<seq<TimeSale>, Error> {
    if e - s > limit then Failure(Tradier(TradierError(Fault("", ErrBodyBufferOverflow), 500, "")))
    else Success(Window(data, s, e))
  }

  /** The splitting feeds `secondHalf` from where `firstHalf` stopped: against a
      server with a limit of at least two minutes, any range with a set end
      yields exactly the bars a single unlimited request would. */
  lemma {:induction false} BisectionMatchesSingleFetch(data: seq<TimeSale>, limit: int, now: Time, start: Time, end: Time)
    requires Sorted(data) && limit >= 2 * Minute
    requires ZeroTime <= start <= end && ZeroTime <= now
    ensures GetTimeSales((s, e) => LimitedServer(data, limit, s, e), now, start, end) == Success(Window(data, start, end))
    decreases end - start
  {
    var fetch := (s, e) => LimitedServer(data, limit, s, e);
    if end - start > limit {
      var middle := Bisect(start, end, now);
      assert !IsZero(end);
      var delta := Sub(end, start);
      QuotRem(delta, 2);
      assert middle == start + Quot(delta, 2);
      assert end - middle >= Minute;
      SubMinute(end, middle);
      SplitShrinks(start, end, now);
      BisectionMatchesSingleFetch(data, limit, now, start, middle);
      BisectionMatchesSingleFetch(data, limit, now, middle, end);
      WindowSplit(data, start, middle, end);
    }
  }
}
