# go-tradier core, modelled in Dafny

This project models the core of `go-tradier`, a Go client for the Tradier
brokerage REST and streaming APIs:

- **Rate limiting** (`rate_limit.go`). The expiry instant is read from a
  "Quota Violation" body or from the `X-Ratelimit-Available` /
  `X-Ratelimit-Expiry` headers.
- **Flexible time decoding** (`time.go`). `DateTime.Set` tries four layouts and
  then a millisecond Unix timestamp. `DateTime.UnmarshalJSON` strips the JSON
  quotes first. `ParseTimeMs` turns milliseconds into an instant.
- **Order forms** (`client.go`). `orderToParams` and `updateOrderParams` build
  the form an order is sent as, one branch per order class.
- **The signed request and the retrying executor** (`client.go`).
  `makeSignedRequest` builds the request and `do` retries it with backoff:
  - a 200 stops the loop;
  - a JSON error body stops it with the decoded error;
  - an opaque non-200 body waits until the quota expiry when one is announced,
    and otherwise asks the backoff policy;
  - a transport error asks the backoff policy.
- **Time and sales** (`client.go`). This covers the request URL, the "list or
  single object" decoding, and `GetTimeSales`. When the server reports
  `protocol.http.TooBigBody`, `GetTimeSales` halves the range with `bisect` and
  recurses on each half.
- **The market event stream** (`stream.go`). `consumeEvents` turns each line
  into a `StreamEvent` envelope and sends it on the output channel until
  end of input or `Stop`. Then it closes the output channel and the input.
  The typed decoders `DecodeQuote`, `DecodeTrade`, `DecodeTimeSale` and
  `DecodeSummary` read the envelope's message into a typed event.
- **The demultiplexer** (`demux.go`). `Handle` dispatches on the type tag to
  the matching callback, and wraps a decode failure for the `Errors` callback.
  `HandleChan` does this for every event of a channel.

Go's integer semantics are written out:

- `Quot`/`Rem` for Go's truncating `/` and `%`;
- `Wrap64`/`Saturate64` for int64 wrap-around and for `time.Duration`
  saturation in `Time.Sub`;
- `Unix` with the int64 wrap of `time.Unix`'s seconds since year 1;
- `ParseInt` with the syntax, range and error values of `strconv.ParseInt`;
- `Fields` with `unicode.IsSpace`.

An instant is an integer count of nanoseconds since the Unix epoch. Go's zero
`time.Time` is `ZeroTime`, which is 62135596800 seconds before the epoch.

Modules:

- `Wrappers`: Option and Result.
- `Seqs`: sequence associativity.
- `GoInt`, `GoStrings`, `Strconv`, `GoTime`: the Go library semantics used.
- `Errors`: the error values.
- `RateLimit`.
- `DateTimes`.
- `Requests`: order forms and `makeSignedRequest`.
- `Executor`: `do`, with the client and the backoff policy.
- `TimeSales`.
- `Stream`.
- `Demux`.

These parts became classes, because the Go code mutates them in place:

- the `DateTime` receiver;
- the backoff policy and the `Client`;
- `timeSaleList`;
- `StreamEvent`;
- the scanner, the output channel and `MarketEventStream`.

Their methods are proved against specification functions: `DoSpec`,
`Attempt`, `Emitted`, `HandleAll`, `OrderParams` and `UpdateParams`. The
properties are lemmas about those functions.

## Model

| member | source | states |
|---|---|---|
| GoInt.Wrap64 | client.go:870 | The result is in int64 range and congruent to the input modulo 2^64. An int64 input is unchanged. This is how the "+1s" added to a wait wraps. |
| GoTime.Sub | client.go:619 | `Time.Sub` saturates: the exact difference when it fits in int64, otherwise the int64 bound on the same side. |
| GoTime.Unix | rate_limit.go:38 | `time.Unix` gives exactly `sec` seconds plus `nsec` nanoseconds after the epoch when the seconds since year 1 fit in int64. The nanosecond remainder is kept whatever happens. |
| Strconv.ParseIntMeaning | time.go:66 | `ParseInt` succeeds exactly on an optionally signed run of decimal digits whose value fits in int64, and then returns that value. A failure names "ParseInt" and the input. An in-syntax value out of range fails with the range error. |
| Strconv.FormatNatRoundTrip | client.go:272 | The decimal text `%d` gives for an index is all digits, non-empty, and reads back as the index. |
| GoStrings.FieldsNonEmpty | rate_limit.go:16-17 | A string with a non-space character has at least one field, so taking the last field cannot fail. |
| RateLimit.QuotaFields | rate_limit.go:12-17 | A body beginning "Quota Violation" splits into at least two fields. |
| RateLimit.ParseQuotaViolationExpiration | rate_limit.go:11-23 | Without the "Quota Violation" prefix, or when the last field is not an int64, the result is the zero time. |
| RateLimit.QuotaExpiryTruncates | rate_limit.go:17-22 | When the last field parses as `ms`, the expiry is a whole second. It is `ms` milliseconds truncated toward zero: at or below `ms` for a non-negative `ms`, at or above it for a negative one, less than one second away. |
| RateLimit.GetRateLimitExpiration | rate_limit.go:26-42 | The result is not the zero time exactly when both headers parse, the available count is 0 and the expiry is positive. Then it is that many seconds after the epoch when `time.Unix` can hold it. A larger expiry wraps around to that many seconds minus 2^64, an instant before year 1. |
| RateLimit.FarExpiryWrapsBeforeYearOne | rate_limit.go:37-38 | With none available and an expiry second above 9223371974719179007 (for example 9223372036854775807), the result is not the zero time but lies before year 1. |
| RateLimit.NoHeadersNoSignal | rate_limit.go:27-35 | A missing header gives the zero time. |
| DateTimes.ParseTimeMs | time.go:65-74 | A string that does not parse gives the zero time and the `ParseInt` error. A string that parses gives that many milliseconds after the epoch and no error. |
| DateTimes.MillisecondSplit | time.go:70-72 | The truncated split into seconds and nanoseconds reassembles to the millisecond count. The nanosecond part is under one second and has the sign of the input. |
| DateTimes.FirstSuccessAt | time.go:19-51 | When attempt `k` is the first that parses, it decides the result. |
| DateTimes.FirstSuccessNone | time.go:19-53 | No attempt succeeds exactly when every attempt fails. |
| DateTimes.DateTime.Set | time.go:14-54 | "null" leaves the time alone and succeeds. Otherwise there is no error exactly when one of the five parses succeeds, and then the time is the first success. On an error the time is unchanged and the error is the one from the millisecond parse. |
| DateTimes.DateTime.UnmarshalJSON | time.go:56-63 | Behaves as `Set` on the input with one pair of surrounding quotes removed. |
| DateTimes.StripQuotes | time.go:57-60 | A quoted input is the result wrapped in quotes. An unquoted one is returned unchanged. |
| DateTimes.StripQuotesRoundTrip | time.go:57-60 | Quoting a string and stripping the quotes gives the string back. |
| Requests.OrderToParams | client.go:244-296 | The form and the error built by appending are those of `OrderParams`. |
| Requests.OrderClassChecked | client.go:245-294 | The error is absent exactly for the seven known classes. An unknown class yields only the class and duration parameters and the "unknown order class" error. Every form begins with class then duration. |
| Requests.OrderPriceKeys | client.go:255-269 | A "price" key is present exactly for single and multileg orders of a limit-like type. A "stop" key is present exactly for those of a stop-like type. |
| Requests.ConditionalOrderKeys | client.go:276-291 | For one-triggers/one-cancels orders an indexed key `name[j]` is present exactly when leg `j` exists and that leg calls for `name`. |
| Requests.ConditionalPriceKeys | client.go:277-291 | Leg `j` gets "price[j]" exactly when its type is limit-like, "stop[j]" exactly when it is stop-like, and "symbol[j]" always. |
| Requests.ConditionalKeysBracketed | client.go:277-291 | Every key of the conditional leg blocks carries an index in brackets. |
| Requests.MultilegOrderLegKeys | client.go:271-275 | For multileg and combo orders, `name[j]` is present exactly when leg `j` exists and `name` is one of option_symbol, side and quantity. This includes "quantity[j]". |
| Requests.MultilegOrderLacksLegQuantities | client.go:274 | With the key as written, no "quantity[j]" key is ever sent, while "side[j]" is sent for every leg. |
| Requests.AsWrittenMultilegForm | client.go:261-275 | The form as written is the multileg head followed by three parameters per leg. |
| Requests.AsWrittenMatchesCorrected | client.go:271-275 | The leg block as written sends the same values in the same order as the corrected one, under the same keys, except each leg's quantity. Leg `i` sends it under the malformed key where "quantity[i]" belongs. |
| Requests.UpdateOrderParams | client.go:336-359 | The form and the error built by appending are those of `UpdateParams`. |
| Requests.UpdateParamsAccepts | client.go:336-359 | There is no error exactly when the type and duration are known and a limit-like (stop-like) type has a positive limit (stop) price. Then the form is type, duration and the price parameters. |
| Requests.UpdateParamsPrefix | client.go:337-357 | Whatever the outcome, the form is a prefix of the full form. An unknown type gives an empty form. |
| Requests.UpdateParamsFirstError | client.go:338-354 | The first failing check decides the error message: an unknown type, then an unknown duration, then a missing limit price, then a missing stop price, each with its own message. |
| Requests.MakeSignedRequest | client.go:884-902 | The request is built exactly when the method is valid, the empty method counting as GET, and the URL parses. Its headers are Accept `application/json` and Authorization, plus the form Content-Type exactly when the method is not DELETE. It has a body exactly when a form was given. A bad method or URL gives the error. |
| Executor.BackOff.NextBackOff | client.go:849-873 | Returns the next delay and advances the policy by one call. |
| Executor.Client.constructor | client.go:67-76 | The authorization header is "Bearer " followed by the token. The policy and the retry limit are kept. |
| Executor.Client.Do | client.go:832-882 | The loop's response, error, sleeps and policy calls are those of `DoSpec`. |
| Executor.Client.AttemptOnce | client.go:839-879 | One pass of the loop body computes `Attempt`. |
| Executor.ProjectionsConcat | client.go:837-880 | The attempt numbers and sleeps of a concatenated trace are those of each part, in order. |
| Executor.AttemptShape | client.go:839-879 | One attempt records its number and then at most one sleep. The sleep is recorded only when another attempt follows and the wait is not `Stop`. The policy advances at most once, and not at all on an attempt that ends the loop. |
| Executor.RunFromCounts | client.go:837-880 | From attempt `i` on, the attempts stay numbered consecutively. The sleeps stay fewer than the attempts, and the policy calls at most one per attempt. |
| Executor.DoBounds | client.go:837-842 | At most `maxRetries + 1` attempts are made, numbered 0, 1, … in order. There are fewer sleeps than attempts, and the policy is asked at most once per attempt. A negative `maxRetries` does nothing. A request that cannot be built returns its error after no attempt. |
| Executor.SingleAttempt | client.go:837-879 | `maxRetries = 0` makes exactly one attempt and no sleep. |
| Executor.StopsAtFirstFinal | client.go:845-861 | When attempt `n` is the first to return 200 or a JSON error body, exactly `n + 1` attempts are made and that outcome decides the result. A 200 gives no error. A JSON error carries the status code. |
| Executor.ExhaustedReturnsLast | client.go:837-881 | When every attempt is retried, all `maxRetries + 1` are made and the last one's response and error are returned. For an opaque body that error is the partly decoded TradierError whose fault string is the body. It reports a too-large result exactly when the partial decode found that error code. |
| Executor.StopDoesNotEndLoop | client.go:849-879 | `Stop` only skips the sleep. With an exhausted policy and a transport that always fails, every attempt is still made, back to back, and the last transport error is returned. |
| Executor.Client.OpaqueRetry | client.go:862-873 | Keeps the partly decoded error with the body as its fault string. The wait and the policy's new call count are those `NextWait` chooses. |
| Executor.OpaqueWaitSelection | client.go:862-879 | On an opaque non-200 body the error is the partly decoded error with the body as fault string. When the quota expiry lies after now plus the previous sleep, the wait is the time until the expiry plus one second and the policy is not asked. Otherwise the policy is asked once. The sleep is recorded exactly when another attempt follows and the wait is not `Stop`. |
| Executor.NetErrorAdvancesPolicy | client.go:849-851 | A transport error asks the policy once and leaves no response. |
| Executor.FarQuotaExpiryWraps | client.go:868-879 | A quota expiry more than int64 nanoseconds away makes the "+1s" wrap. The wait is negative but not `Stop`, so it is recorded and the next attempt follows without delay. |
| TimeSales.TimeSalesUrl | client.go:512-538 | Daily, weekly and monthly bars ask the history route, other intervals the timesales route; either way the URL starts with the endpoint, that route and `?symbol=` and the symbol. With no interval and no times it is exactly that. |
| TimeSales.TimeSalesUrlDependsOnFormattedTimes | client.go:512-538 | Two requests whose start and end are set alike, and whose set bounds give the same text in the interval's zone and layout, ask for the same URL. |
| TimeSales.TimeSaleList.UnmarshalJSON | client.go:545-558 | A list decodes as itself, and otherwise a single object as a one-element list. When both fail the list is unchanged and the object error is returned. |
| TimeSales.Bisect | client.go:590-598 | The middle lies between start and the end, with now standing in for an unset end. Without saturation it is start plus half the span, truncated toward zero. |
| TimeSales.GetTimeSales | client.go:606-645 | Nothing is made up. An error returned is one some request returned, and every bar returned is one some request returned. |
| TimeSales.SplitDecreases | client.go:618-628 | When the range is split, the middle lies strictly inside it, reading an unset end as now. Each half either straddles the zero time less, or equally and is shorter. So the recursion ends for any start once the clock is at or after year 1. |
| TimeSales.SplitShrinks | client.go:618-628 | For a start at or after year 1, when the range is split the end is set, the middle is not the zero time and lies strictly inside, and both halves are strictly shorter. |
| TimeSales.PassThrough | client.go:612-644 | A success, and any error other than "too big", are returned unchanged. |
| TimeSales.GivesUpBelowMinute | client.go:619-622 | A "too big" error whose second half would be under a minute is returned as it is. |
| TimeSales.SplitCombines | client.go:624-635 | Otherwise the halves are fetched in order. An error in either is returned, and otherwise the results are concatenated, first half first. |
| TimeSales.UnsetEndNeverSplits | client.go:590-622 | For a start at or after year 1 with an unset end, the caller still measures from the zero time. It finds the second half negative and returns the "too big" error without splitting. |
| TimeSales.WindowSplit | client.go:632-634 | Adjacent windows of time-ordered bars concatenate to the window over their union. |
| TimeSales.UnsetEndSplitsBeforeYearOne | client.go:590-622 | With a start far enough before year 1 and an unset end, the middle is more than a minute before the zero time, so the range is split. The second half again has an unset end, from a later start. |
| TimeSales.ClockBeforeYearOneRepeats | client.go:590-622 | With a clock more than a minute before year 1, a range from the clock reading with an unset end is split at its own start, so its second half is the same call again. |
| TimeSales.BisectionMatchesSingleFetch | client.go:606-645 | Take a server that refuses ranges wider than a limit of at least two minutes. For any range with a set end, splitting yields exactly the bars one unlimited request would. |
| Stream.UnmarshalOverwritesAll | stream.go:21-26 | A line that sets both the type and the symbol leaves nothing of the event it was unmarshalled into. |
| Stream.StreamEvent.constructor | stream.go:100 | A fresh event is the zero envelope. |
| Stream.UnmarshalStreamEvent | stream.go:21-26 | The event becomes `Unmarshalled` of its old value. The returned error is the one stored. |
| Stream.LineSource.Scan | stream.go:95-101 | Yields the next line while there is one, in order. |
| Stream.EventChannel.Send | stream.go:106 | Appends the event, and requires the channel to be open. |
| Stream.MarketEventStream.Stop | stream.go:84-86 | Closes the stop channel, once only. |
| Stream.MarketEventStream.ConsumeEvents | stream.go:88-116 | On return the input and the output channel are closed. The envelopes sent are exactly `Emitted` for the lines from the scanner's position. |
| Stream.EmittedInOrder | stream.go:95-109 | The events come out in line order, one per line, never more than there are lines. |
| Stream.EmittedUpToStop | stream.go:96-109 | With the first stop at line `n`, exactly the lines before `n` are sent. |
| Stream.EveryLineEmitted | stream.go:95-111 | Without a stop, every line yields an event, lines that fail to decode included, and each event carries its line's error. |
| Stream.StoppedEmitsNothing | stream.go:96-98 | A stream stopped before the consumer looks sends nothing. |
| Stream.EventKeepsLine | stream.go:22-24 | A line without a "Message" field keeps the whole line as its message and carries its decoding error. |
| Stream.DecodeIgnoresTypeAndError | stream.go:118-140 | Typed decoding reads only the envelope's symbol and message. Its type tag and its own error play no part. |
| Demux.KindOf | demux.go:17-26 | Each of "quote", "trade", "timesale" and "summary" is recognised exactly by its own tag. |
| Demux.HandleTyped | demux.go:35-73 | Nothing is invoked when the kind's callback is unset, and otherwise exactly one call. A message that decodes reaches the typed callback with the decoded fields and the envelope's symbol, unless the message sets its own. One that fails reaches `Errors` with the decode error wrapped in "error decoding &lt;kind&gt;: " followed by the raw message. |
| Demux.Handle | demux.go:16-27 | At most one callback is invoked, and none for an unrecognised type. |
| Demux.UnsetCallbackInvokesNothing | demux.go:35-73 | With the kind's callback unset nothing is invoked, not even `Errors`. |
| Demux.DecodedEventReachesCallback | demux.go:35-73 | A decoded event reaches its own typed callback exactly once, and `Errors` is not called. |
| Demux.FailedDecodeReachesErrors | demux.go:35-73 | A failed decode makes exactly one `Errors` call. Its error wraps the decode error, with the context "error decoding &lt;kind&gt;: " followed by the raw message. |
| Demux.HandleIgnoresError | demux.go:16-27 | The envelope's own error plays no part in dispatch. |
| Demux.HandleChan | demux.go:29-33 | Makes the calls of `Handle` for each event in arrival order, at most one per event. |
| Demux.HandleAllConcat | demux.go:30-32 | Handling two runs one after the other makes the calls of each, in order. |
| Demux.UndecodableLineInvokesNothing | demux.go:16-27 | A line from which no type could be decoded has the empty type, so no callback runs. |
| Demux.QuoteBogusTruncatedScenario | stream.go:88-116 | Take a quote line, a line of unknown type and a truncated trade line. Handled in order, they make exactly one Quote callback, for AAPL, and no other. |

A truncated stream line reaches no callback, not even `Errors`.
`json.Unmarshal` rejects malformed JSON before it sets any field, so the
envelope's `Type` stays empty and `Handle` ignores it. The envelope still
carries the syntax error in its `Error` field
(`Demux.QuoteBogusTruncatedScenario`, `Demux.UndecodableLineInvokesNothing`).

## Left out

- Network, HTTP transport, `ioutil.ReadAll` and `Logger` output. The outcome of each attempt is an input (`Env.outcome`). Logging changes no state and is dropped.
- The clock. `time.Now` is an input: one reading per attempt in `do`, and one `now` for `bisect`. Sleeping is recorded in a trace instead of performed.
- Executor.Client.Do: `do` reads the clock twice on the quota path (`After(time.Now()...)` and `Sub(time.Now())`). The model uses one reading per attempt, so the little time that passes between the two is not captured.
- The backoff policy is modelled as a fixed sequence of delays followed by `Stop` forever. Other `backoff.BackOff` implementations are not modelled.
- Executor.Client.Do: an attempt's outcome does not depend on the request sent, since every attempt sends an identical request.
- The `HttpStatusCode` a JSON error body may itself set overrides the status code in Go. The decoded fault is an input, so the model keeps the status code.
- `json.Unmarshal` is an input wherever it is used. This covers envelope and typed-event decoding in the stream, the time-and-sales list, and error bodies. For an error body that fails to decode, what the decode filled in before it stopped is an input too (`Outcome.partial`). `do` keeps its error code and message, as Go keeps the partly filled `TradierError`.
- Floating point. `strconv.FormatFloat` is a `FloatFormat` input, so the form parameters are exact only up to that formatter. The float fields of the typed events (prices, bid and ask) are not modelled.
- Order prices are `real` numbers, so NaN is not modelled. In Go a NaN price passes the `<= 0` checks of `updateOrderParams` (client.go:347, client.go:353) and reaches `FormatFloat`. The model cannot express that input.
- The order class strings "oto", "oco" and "otoco" are assumed. Their Go constants are defined outside the files modelled here. `Requests.OrderClassChecked` and `Requests.ConditionalOrderKeys` depend on these spellings. The other classes, types and durations are taken from account.go:97-127.
- `time.Parse` with the four layouts is a `Parser` input, and `Time.In(zone).Format(layout)` is a `TimeFormatter` input.
- The panic when `time.LoadLocation("America/New_York")` fails is not modelled.
- `url.Values` is modelled as its sequence of `Add` calls, in order. `Encode` is an `Encoder` input, and `http.NewRequest`'s URL parsing is a `UrlCheck` input.
- Requests.MakeSignedRequest: the error for an invalid method is Go's own `net/http` error. The model gives its kind, not its exact `%q`-quoted text.
- `decodeTimeSales` and the response decoding of `GetTimeSales` are part of the `fetch` input.
- TimeSales.GetTimeSales: requires the clock reading `now` to be at or after year 1; any start is accepted. With a clock more than a minute before year 1 and an unset end, the Go recursion itself never ends: every middle stays more than a minute before the zero time, so the second half is split again, in the end as the very same call (`TimeSales.ClockBeforeYearOneRepeats`).
- TimeSales.BisectionMatchesSingleFetch: requires a start at or after year 1. A range that straddles year 1 can be split exactly at the zero time, and its first half then goes out with no end at all.
- TimeSales.GetTimeSales: `fetch` receives the exact instants, while Go sends only their text, to the second in New York time or to the UTC day. Formatting is monotone, so the partition result of `BisectionMatchesSingleFetch` carries over to a server that selects half-open on the formatted bounds, but the model does not state that server.
- `bufio.Scanner` line splitting, its 64 KB token limit and `scanner.Err()` are not modelled. The input is the sequence of lines the scanner yields, and a scanner error ends it.
- The concurrency of `consumeEvents` runs in a goroutine. Whether the stop channel is seen at each `select` is a `StopSignal` input. This covers Go's random choice when a send and the stop are both ready.
- Stream.MarketEventStream.ConsumeEvents: envelopes are sent by value. The model does not capture that Go sends a pointer to a fresh `StreamEvent` per line.
- DateTimes.DateTime.UnmarshalJSON: requires a non-empty input that is not a lone quote, since Go panics on those.
- Demux.Handle: requires `Errors` to be set whenever a listened-for event fails to decode, since calling a nil `Errors` panics in Go.
- Demux.HandleChan: requires the channel to be closed already. The interleaving with a concurrent sender is not modelled.
- Requests.OrderToParams: sends the corrected "quantity[i]" key for multileg legs. The key as written is modelled separately (`Requests.AsWrittenMultilegForm`); see Findings.
- The rest of client.go and account.go (account, market and order endpoints other than those above) and the `tcli` command are not part of this model.

## Findings

| source | as written | input that shows it | evidently intended | confidence | as-written member | corrected member |
|---|---|---|---|---|---|---|
| client.go:274 | multileg legs send their quantity under the key `quantity[%dd]`, e.g. "quantity[0d]" | any multileg or combo order with one leg, leg index 0: the form has "option_symbol[0]" and "side[0]" but no "quantity[0]" | the key `quantity[%d]`, as the conditional branch at client.go:279 uses | not executed | Requests.MultilegOrderLacksLegQuantities | Requests.MultilegOrderLegKeys |
