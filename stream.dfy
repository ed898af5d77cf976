/**
 * The market event stream: each newline-delimited line the server sends
 * becomes a `StreamEvent` envelope (type, symbol, the raw message and the
 * decode error), which the consumer passes on in order until the stream
 * ends or is stopped; typed events are decoded from an envelope's message.
 *
 * JSON decoding is outside the model: a decoder reports which members a
 * line carries and the error `json.Unmarshal` returns for it.
 */
module Stream {
  import opened Wrappers
  import opened Seqs
  import opened Errors

  /** A snapshot of a `StreamEvent`'s fields. */
  datatype Envelope = Envelope(typ: string, symbol: string, message: string, error: Option<Error>)

  /** The zero `StreamEvent{}`. */
  const Blank: Envelope := Envelope("", "", "", None)

  /**
   * What `json.Unmarshal` does to a `StreamEvent` for one line: the members
   * it assigns (`None` leaves a field as it was; a line that is not valid
   * JSON assigns none) and the error it returns.
   */
  datatype EnvelopeFields = EnvelopeFields(
    typ: Option<string>, symbol: Option<string>, message: Option<string>, err: Option<Error>)

  type EnvelopeDecoder = string -> EnvelopeFields

  /**
   * The envelope after unmarshalling `buf` into `before`: the message is first
   * set to a copy of the whole line, then the decoded members are applied over
   * it (a "message" member of the line would win), and the error is stored.
   */
  function Unmarshalled(before: Envelope, buf: string, d: EnvelopeFields): (e: Envelope)
    ensures d.message.None? ==> e.message == buf
    ensures d.message.Some? ==> e.message == d.message.value
    ensures e.error == d.err
    ensures e.typ == (if d.typ.Some? then d.typ.value else before.typ)
    ensures e.symbol == (if d.symbol.Some? then d.symbol.value else before.symbol)
  {
    Envelope(d.typ.GetOr(before.typ), d.symbol.GetOr(before.symbol), d.message.GetOr(buf), d.err)
  }

  /** A line that sets both the type and the symbol leaves nothing of the
      envelope it was unmarshalled over. */
  lemma UnmarshalOverwritesAll(b1: Envelope, b2: Envelope, buf: string, d: EnvelopeFields)
    requires d.typ.Some? && d.symbol.Some?
    ensures Unmarshalled(b1, buf, d) == Unmarshalled(b2, buf, d)
  {
  }

  /** The event the consumer makes of one line: a fresh envelope unmarshalled from it. */
  function EventOf(decode: EnvelopeDecoder, line: string): Envelope {
    Unmarshalled(Blank, line, decode(line))
  }

  /** The model of `*StreamEvent`, whose fields `UnmarshalStreamEvent` updates in place. */
  class StreamEvent {
    var typ: string
    var symbol: string
    var message: string
    var error: Option<Error>

    constructor ()
      ensures Value() == Blank
    {
      typ, symbol, message, error := "", "", "", None;
    }

    function Value(): Envelope
      reads this
    {
      Envelope(typ, symbol, message, error)
    }
  }

  /** `UnmarshalStreamEvent`: copy the line into Message, decode it over `se`, and store and return the error. */
  method UnmarshalStreamEvent(buf: string, se: StreamEvent, decode: EnvelopeDecoder) returns (err: Option<Error>)
    modifies se
    ensures se.Value() == Unmarshalled(old(se.Value()), buf, decode(buf))
    ensures err == se.error == decode(buf).err
  {
    se.message := buf;
    var d := decode(buf);
    if d.typ.Some? {
      se.typ := d.typ.value;
    }
    if d.symbol.Some? {
      se.symbol := d.symbol.value;
    }
    if d.message.Some? {
      se.message := d.message.value;
    }
    se.error := d.err;
    err := se.error;
  }

  /** The response body, as the lines `bufio.Scanner` yields from it. */
  class LineSource {
    const lines: seq<string>
    var next: nat
    var closed: bool

    constructor (lines: seq<string>)
      ensures this.lines == lines && next == 0 && !closed
    {
      this.lines := lines;
      next := 0;
      closed := false;
    }

    predicate Valid()
      reads this
    {
      next <= |lines|
    }

    /** `scanner.Scan()` and `scanner.Bytes()`: the next line, if there is one. */
    method Scan() returns (ok: bool, line: string)
      requires Valid()
      modifies this
      ensures Valid() && closed == old(closed)
      ensures ok <==> old(next) < |lines|
      ensures ok ==> line == lines[old(next)] && next == old(next) + 1
      ensures !ok ==> next == old(next)
    {
      if next < |lines| {
        ok, line := true, lines[next];
        next := next + 1;
      } else {
        ok, line := false, "";
      }
    }

    /** `input.Close()`; closing twice is not allowed. */
    method Close()
      requires !closed
      modifies this
      ensures closed && next == old(next)
    {
      closed := true;
    }
  }

  /** The output channel: what has been sent on it, and whether it is closed. */
  class EventChannel {
    var items: seq<Envelope>
    var closed: bool

    constructor ()
      ensures items == [] && !closed
    {
      items, closed := [], false;
    }

    /** A send on a closed channel panics, so the channel must be open. */
    method Send(e: Envelope)
      requires !closed
      modifies this
      ensures items == old(items) + [e] && !closed
    {
      items := items + [e];
    }

    /** Closing a closed channel panics. */
    method Close()
      requires !closed
      modifies this
      ensures closed && items == old(items)
    {
      closed := true;
    }
  }

  /** Where the consumer looks for the stop signal while handling a line. */
  datatype Checkpoint = AtTop | AtSend

  /**
   * When another goroutine's `Stop` is noticed: `seen(i, c)` says that, while
   * handling line `i`, the consumer takes the stop branch at checkpoint `c`
   * (at `AtSend` this stands for `select` picking the stop case).
   */
  type StopSignal = (nat, Checkpoint) -> bool

  /** Whether the consumer gives up on line `i` before sending it. */
  predicate StopsAt(stopped: bool, seen: StopSignal, i: nat) {
    stopped || seen(i, AtTop) || seen(i, AtSend)
  }

  /** The envelopes the consumer sends for the lines from `i` on. */
  function Emitted(decode: EnvelopeDecoder, lines: seq<string>, i: nat, stopped: bool, seen: StopSignal): seq<Envelope>
    decreases |lines| - i
  {
    if i >= |lines| || StopsAt(stopped, seen, i) then []
    else [EventOf(decode, lines[i])] + Emitted(decode, lines, i + 1, stopped, seen)
  }

  /** One step of `Emitted`: nothing from a stop or the end of the lines on,
      otherwise this line's envelope before the rest. */
  lemma EmittedAt(decode: EnvelopeDecoder, lines: seq<string>, i: nat, stopped: bool, seen: StopSignal)
    ensures i >= |lines| || StopsAt(stopped, seen, i) ==> Emitted(decode, lines, i, stopped, seen) == []
    ensures i < |lines| && !StopsAt(stopped, seen, i) ==>
              Emitted(decode, lines, i, stopped, seen) == [EventOf(decode, lines[i])] + Emitted(decode, lines, i + 1, stopped, seen)
  {
  }

  class MarketEventStream {
    /** Whether `closeChan` has been closed. */
    var stopped: bool

    constructor ()
      ensures !stopped
    {
      stopped := false;
    }

    /** `Stop` closes the stop channel, so it may be called once only. */
    method Stop()
      requires !stopped
      modifies this
      ensures stopped
    {
      stopped := true;
    }

    /**
     * `consumeEvents`: one envelope per scanned line, sent in order, until
     * the lines run out or the stop signal is seen; then the output channel
     * and the input are closed (the two deferred calls, in that order).
     */
    method ConsumeEvents(input: LineSource, output: EventChannel, decode: EnvelopeDecoder, seen: StopSignal)
      requires input.Valid() && !input.closed && !output.closed
      modifies input, output
      ensures input.closed && output.closed
      ensures output.items == old(output.items) + Emitted(decode, input.lines, old(input.next), stopped, seen)
    {
      ghost var start := input.next;
      var done := false;
      while !done
        invariant input.Valid() && !input.closed && !output.closed
        invariant !done ==> output.items + Emitted(decode, input.lines, input.next, stopped, seen)
                            == old(output.items) + Emitted(decode, input.lines, start, stopped, seen)
        invariant done ==> output.items == old(output.items) + Emitted(decode, input.lines, start, stopped, seen)
        decreases |input.lines| - input.next + (if done then 0 else 1)
      {
        var i := input.next;
        EmittedAt(decode, input.lines, i, stopped, seen);
        var ok, line := input.Scan();
        if !ok {
          done := true;
        } else if stopped || seen(i, AtTop) {
          done := true;
        } else {
          var event := new StreamEvent();
          var err := UnmarshalStreamEvent(line, event, decode);
          if seen(i, AtSend) {
            done := true;
          } else {
            ghost var before := output.items;
            ghost var rest := Emitted(decode, input.lines, i + 1, stopped, seen);
            var sent := event.Value();
            assert sent == EventOf(decode, line);
            output.Send(sent);
            ConcatAssoc(before, [sent], rest);
          }
        }
      }
      output.Close();
      input.Close();
    }
  }

  /** Events come out in line order, one per line, and never more than there are lines. */
  lemma {:induction false} EmittedInOrder(decode: EnvelopeDecoder, lines: seq<string>, i: nat, stopped: bool, seen: StopSignal)
    requires i <= |lines|
    ensures |Emitted(decode, lines, i, stopped, seen)| <= |lines| - i
    ensures forall k :: 0 <= k < |Emitted(decode, lines, i, stopped, seen)| ==>
              Emitted(decode, lines, i, stopped, seen)[k] == EventOf(decode, lines[i + k])
    decreases |lines| - i
  {
    if i < |lines| && !StopsAt(stopped, seen, i) {
      EmittedInOrder(decode, lines, i + 1, stopped, seen);
      var tail := Emitted(decode, lines, i + 1, stopped, seen);
      forall k | 1 <= k < |Emitted(decode, lines, i, stopped, seen)|
        ensures Emitted(decode, lines, i, stopped, seen)[k] == EventOf(decode, lines[i + k])
      {
        assert Emitted(decode, lines, i, stopped, seen)[k] == tail[k - 1];
      }
    }
  }

  /**
   * With no stop before line `n`, and a stop at `n` (or `n` the end of the
   * lines), exactly the lines from `i` up to `n` are sent; nothing after a
   * stop is sent.
   */
  lemma {:induction false} EmittedUpToStop(decode: EnvelopeDecoder, lines: seq<string>, i: nat, n: nat, stopped: bool, seen: StopSignal)
    requires i <= n <= |lines|
    requires forall j :: i <= j < n ==> !StopsAt(stopped, seen, j)
    requires n < |lines| ==> StopsAt(stopped, seen, n)
    ensures |Emitted(decode, lines, i, stopped, seen)| == n - i
    decreases n - i
  {
    if i < n {
      assert !StopsAt(stopped, seen, i);
      EmittedUpToStop(decode, lines, i + 1, n, stopped, seen);
    }
  }

  /** Without a stop, every line yields an event, those that fail to decode included, each carrying its error. */
  lemma EveryLineEmitted(decode: EnvelopeDecoder, lines: seq<string>, seen: StopSignal)
    requires forall j :: 0 <= j < |lines| ==> !StopsAt(false, seen, j)
    ensures |Emitted(decode, lines, 0, false, seen)| == |lines|
    ensures forall k :: 0 <= k < |lines| ==>
              Emitted(decode, lines, 0, false, seen)[k].error == decode(lines[k]).err
  {
    EmittedUpToStop(decode, lines, 0, |lines|, false, seen);
    EmittedInOrder(decode, lines, 0, false, seen);
    var out := Emitted(decode, lines, 0, false, seen);
    forall k | 0 <= k < |lines|
      ensures out[k].error == decode(lines[k]).err
    {
      assert out[k] == EventOf(decode, lines[k]);
    }
  }

  /** A stream stopped before the consumer looks sends nothing. */
  lemma StoppedEmitsNothing(decode: EnvelopeDecoder, lines: seq<string>, i: nat, seen: StopSignal)
    ensures Emitted(decode, lines, i, true, seen) == []
  {
  }

  /**
   * The message of a line's event is the whole line unless the line has a
   * "message" member of its own, and the envelope's error is the decoder's.
   */
  lemma EventKeepsLine(decode: EnvelopeDecoder, line: string)
    requires decode(line).message.None?
    ensures EventOf(decode, line).message == line
    ensures EventOf(decode, line).error == decode(line).err
  {
  }

  /** A typed event: the `Symbol` field and the remaining fields of its kind. */
  datatype TypedEvent<T> = TypedEvent(symbol: string, fields: T)

  /**
   * What `json.Unmarshal` makes of a message for a typed event: the symbol
   * member if the message has one, the other fields (zero where absent) and
   * the error.
   */
  datatype TypedFields<T> = TypedFields(symbol: Option<string>, fields: T, err: Option<Error>)

  type TypedDecoder<T> = string -> TypedFields<T>

  /** The integer and string fields of a `QuoteEvent` (its prices are floating point). */
  datatype QuoteFields = QuoteFields(
    bidSize: int, bidExchange: string, bidDateMs: int, askSize: int, askExchange: string, askDateMs: int)

  /** The integer and string fields of a `TradeEvent`. */
  datatype TradeFields = TradeFields(exchange: string, size: int, cumulativeVolume: int, dateMs: int)

  /** The integer and string fields of a `TimeSaleEvent`. */
  datatype TimeSaleFields = TimeSaleFields(exchange: string, size: int, dateMs: int)

  /** A `SummaryEvent` has only floating-point fields besides its symbol. */
  datatype SummaryFields = SummaryFields

  /**
   * `DecodeQuote`, `DecodeTrade`, `DecodeTimeSale` and `DecodeSummary`: the
   * typed event starts with the envelope's symbol and the message is
   * unmarshalled over it; the error is returned beside the event.
   */
  function Decode<T>(e: Envelope, unmarshal: TypedDecoder<T>): (r: (TypedEvent<T>, Option<Error>))
    ensures unmarshal(e.message).symbol.None? ==> r.0.symbol == e.symbol
    ensures unmarshal(e.message).symbol.Some? ==> r.0.symbol == unmarshal(e.message).symbol.value
    ensures r.0.fields == unmarshal(e.message).fields
    ensures r.1 == unmarshal(e.message).err
  {
    var d := unmarshal(e.message);
    (TypedEvent(d.symbol.GetOr(e.symbol), d.fields), d.err)
  }

  /** Typed decoding reads only the envelope's symbol and message: its type
      tag and its own error play no part. */
  lemma DecodeIgnoresTypeAndError<T>(e: Envelope, unmarshal: TypedDecoder<T>)
    ensures Decode(e, unmarshal) == Decode(Envelope("", e.symbol, e.message, None), unmarshal)
  {
  }
}
