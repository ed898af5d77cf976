/**
 * The stream demultiplexer: each envelope is dispatched on its type tag to
 * the matching typed callback, after decoding its message; a decode failure
 * goes to the error callback instead. Callbacks are recorded as a trace of
 * the calls made, in order.
 */
module Demux {
  import opened Wrappers
  import opened Seqs
  import opened Errors
  import opened Stream

  /** Which of the `StreamDemuxer` callbacks are set (non-nil). */
  datatype Demuxer = Demuxer(quotes: bool, trades: bool, summaries: bool, timeSales: bool, errors: bool)

  /** How each kind of typed event is decoded from a message. */
  datatype Decoders = Decoders(
    quote: TypedDecoder<QuoteFields>,
    trade: TypedDecoder<TradeFields>,
    timeSale: TypedDecoder<TimeSaleFields>,
    summary: TypedDecoder<SummaryFields>)

  /** One callback invocation. */
  datatype Call =
    | QuoteCall(quote: TypedEvent<QuoteFields>)
    | TradeCall(trade: TypedEvent<TradeFields>)
    | TimeSaleCall(timeSale: TypedEvent<TimeSaleFields>)
    | SummaryCall(summary: TypedEvent<SummaryFields>)
    | ErrorCall(err: Error)

  /** The type tags `Handle` recognises. */
  datatype Kind = QuoteKind | TradeKind | TimeSaleKind | SummaryKind

  function KindOf(typ: string): (k: Option<Kind>)
    ensures k == Some(QuoteKind) <==> typ == "quote"
    ensures k == Some(TradeKind) <==> typ == "trade"
    ensures k == Some(TimeSaleKind) <==> typ == "timesale"
    ensures k == Some(SummaryKind) <==> typ == "summary"
  {
    if typ == "quote" then Some(QuoteKind)
    else if typ == "trade" then Some(TradeKind)
    else if typ == "timesale" then Some(TimeSaleKind)
    else if typ == "summary" then Some(SummaryKind)
    else None
  }

  /** Whether the callback for kind `k` is set. */
  function Listens(sd: Demuxer, k: Kind): bool {
    match k
    case QuoteKind => sd.quotes
    case TradeKind => sd.trades
    case TimeSaleKind => sd.timeSales
    case SummaryKind => sd.summaries
  }

  /** The error decoding `m` as an event of kind `k` gives, if any. */
  function DecodeError(dec: Decoders, k: Kind, m: Envelope): Option<Error> {
    match k
    case QuoteKind => Decode(m, dec.quote).1
    case TradeKind => Decode(m, dec.trade).1
    case TimeSaleKind => Decode(m, dec.timeSale).1
    case SummaryKind => Decode(m, dec.summary).1
  }

  /** How the error message names each kind. */
  function Noun(k: Kind): string {
    match k
    case QuoteKind => "quote"
    case TradeKind => "trade"
    case TimeSaleKind => "time sale"
    case SummaryKind => "summary"
  }

  /** The error passed to `Errors`: the decode error wrapped with the raw message. */
  function DecodeFailure(k: Kind, m: Envelope, cause: Error): Error {
    Wrapped("error decoding " + Noun(k) + ": " + m.message, cause)
  }

  /**
   * `Handle` calls `Errors` when a listened-to event fails to decode, so the
   * error callback must then be set (a nil function call panics).
   */
  predicate CanHandle(sd: Demuxer, dec: Decoders, e: Envelope) {
    match KindOf(e.typ)
    case None => true
    case Some(k) => Listens(sd, k) && DecodeError(dec, k, e).Some? ==> sd.errors
  }

  /**
   * `handleQuote`, `handleTrade`, `handleTimeSale` and `handleSummary`, for
   * one kind: nothing when its callback is unset; otherwise decode, then
   * either the typed callback or the error callback.
   */
  function HandleTyped<T>(listens: bool, k: Kind, unmarshal: TypedDecoder<T>, call: TypedEvent<T> -> Call, m: Envelope)
    : (calls: seq<Call>)
    ensures |calls| == (if listens then 1 else 0)
    ensures listens && unmarshal(m.message).err.None? ==>
              calls[0] == call(TypedEvent(unmarshal(m.message).symbol.GetOr(m.symbol), unmarshal(m.message).fields))
    ensures listens && unmarshal(m.message).err.Some? ==>
              calls[0] == ErrorCall(Wrapped("error decoding " + Noun(k) + ": " + m.message, unmarshal(m.message).err.value))
  {
    if !listens then []
    else
      var (ev, err) := Decode(m, unmarshal);
      if err.None? then [call(ev)] else [ErrorCall(DecodeFailure(k, m, err.value))]
  }

  /** `StreamDemuxer.Handle`: dispatch on the type tag. */
  function Handle(sd: Demuxer, dec: Decoders, e: Envelope): (calls: seq<Call>)
    requires CanHandle(sd, dec, e)
    ensures |calls| <= 1
    ensures KindOf(e.typ).None? ==> calls == []
  {
    match KindOf(e.typ)
    case None => []
    case Some(QuoteKind) => HandleTyped(sd.quotes, QuoteKind, dec.quote, q => QuoteCall(q), e)
    case Some(TradeKind) => HandleTyped(sd.trades, TradeKind, dec.trade, t => TradeCall(t), e)
    case Some(TimeSaleKind) => HandleTyped(sd.timeSales, TimeSaleKind, dec.timeSale, ts => TimeSaleCall(ts), e)
    case Some(SummaryKind) => HandleTyped(sd.summaries, SummaryKind, dec.summary, s => SummaryCall(s), e)
  }

  /** The typed callback invocation for a successfully decoded event of kind `k`. */
  function TypedCall(dec: Decoders, k: Kind, e: Envelope): Call {
    match k
    case QuoteKind => QuoteCall(Decode(e, dec.quote).0)
    case TradeKind => TradeCall(Decode(e, dec.trade).0)
    case TimeSaleKind => TimeSaleCall(Decode(e, dec.timeSale).0)
    case SummaryKind => SummaryCall(Decode(e, dec.summary).0)
  }

  predicate IsTypedCall(c: Call) {
    !c.ErrorCall?
  }

  /** With the callback for the event's kind unset, nothing is invoked, not even `Errors`. */
  lemma UnsetCallbackInvokesNothing(sd: Demuxer, dec: Decoders, e: Envelope)
    requires KindOf(e.typ).Some? && !Listens(sd, KindOf(e.typ).value)
    ensures CanHandle(sd, dec, e)
    ensures Handle(sd, dec, e) == []
  {
  }

  /** A decoded event reaches its typed callback exactly once, and `Errors` is not invoked. */
  lemma DecodedEventReachesCallback(sd: Demuxer, dec: Decoders, e: Envelope)
    requires KindOf(e.typ).Some? && Listens(sd, KindOf(e.typ).value)
    requires DecodeError(dec, KindOf(e.typ).value, e).None?
    ensures CanHandle(sd, dec, e)
    ensures Handle(sd, dec, e) == [TypedCall(dec, KindOf(e.typ).value, e)]
    ensures IsTypedCall(Handle(sd, dec, e)[0])
  {
  }

  /**
   * A failed decode invokes `Errors` alone, once, with the decode error
   * wrapped in "error decoding <kind>: " followed by the raw message.
   */
  lemma FailedDecodeReachesErrors(sd: Demuxer, dec: Decoders, e: Envelope)
    requires KindOf(e.typ).Some? && Listens(sd, KindOf(e.typ).value) && sd.errors
    requires DecodeError(dec, KindOf(e.typ).value, e).Some?
    ensures CanHandle(sd, dec, e)
    ensures |Handle(sd, dec, e)| == 1
    ensures Handle(sd, dec, e)[0].ErrorCall?
    ensures Handle(sd, dec, e)[0].err.Wrapped?
    ensures Handle(sd, dec, e)[0].err.cause == DecodeError(dec, KindOf(e.typ).value, e).value
    ensures var context := Handle(sd, dec, e)[0].err.context;
            |e.message| <= |context| && context[|context| - |e.message|..] == e.message
    ensures Handle(sd, dec, e)[0].err.context == "error decoding " + Noun(KindOf(e.typ).value) + ": " + e.message
  {
    var k := KindOf(e.typ).value;
    var context := "error decoding " + Noun(k) + ": " + e.message;
    assert context[|context| - |e.message|..] == e.message;
  }

  /** The envelope's own error plays no part in the dispatch. */
  lemma HandleIgnoresError(sd: Demuxer, dec: Decoders, e: Envelope, other: Option<Error>)
    requires CanHandle(sd, dec, e)
    ensures CanHandle(sd, dec, e.(error := other))
    ensures Handle(sd, dec, e.(error := other)) == Handle(sd, dec, e)
  {
  }

  predicate AllHandleable(sd: Demuxer, dec: Decoders, es: seq<Envelope>) {
    forall i :: 0 <= i < |es| ==> CanHandle(sd, dec, es[i])
  }

  /** The calls made for a run of events, handled in order. */
  function HandleAll(sd: Demuxer, dec: Decoders, es: seq<Envelope>): seq<Call>
    requires AllHandleable(sd, dec, es)
  {
    if es == [] then []
    else HandleAll(sd, dec, es[..|es| - 1]) + Handle(sd, dec, es[|es| - 1])
  }

  /** `HandleChan`: `Handle` for every event received, in arrival order, until the channel is closed. */
  method HandleChan(sd: Demuxer, dec: Decoders, events: EventChannel) returns (calls: seq<Call>)
    requires events.closed && AllHandleable(sd, dec, events.items)
    ensures calls == HandleAll(sd, dec, events.items)
    ensures |calls| <= |events.items|
  {
    calls := [];
    var i := 0;
    while i < |events.items|
      invariant 0 <= i <= |events.items|
      invariant calls == HandleAll(sd, dec, events.items[..i])
      invariant |calls| <= i
    {
      assert events.items[..i + 1][..i] == events.items[..i];
      calls := calls + Handle(sd, dec, events.items[i]);
      i := i + 1;
    }
    assert events.items[..i] == events.items;
  }

  /** Handling two runs one after the other makes the calls of each, in order. */
  lemma {:induction false} HandleAllConcat(sd: Demuxer, dec: Decoders, a: seq<Envelope>, b: seq<Envelope>)
    requires AllHandleable(sd, dec, a) && AllHandleable(sd, dec, b)
    ensures AllHandleable(sd, dec, a + b)
    ensures HandleAll(sd, dec, a + b) == HandleAll(sd, dec, a) + HandleAll(sd, dec, b)
    decreases |b|
  {
    assert AllHandleable(sd, dec, a + b) by {
      forall i | 0 <= i < |a + b|
        ensures CanHandle(sd, dec, (a + b)[i])
      {
        if i >= |a| {
          assert (a + b)[i] == b[i - |a|];
        }
      }
    }
    if b == [] {
      assert a + b == a;
    } else {
      var b' := b[..|b| - 1];
      assert (a + b)[..|a + b| - 1] == a + b';
      assert (a + b)[|a + b| - 1] == b[|b| - 1];
      HandleAllConcat(sd, dec, a, b');
      ConcatAssoc(HandleAll(sd, dec, a), HandleAll(sd, dec, b'), Handle(sd, dec, b[|b| - 1]));
    }
  }

  /**
   * A line that is not valid JSON yields an envelope with an empty type, and
   * the demultiplexer invokes no callback for it, `Errors` included.
   */
  lemma UndecodableLineInvokesNothing(sd: Demuxer, dec: Decoders, decode: EnvelopeDecoder, line: string)
    requires decode(line).typ.None?
    ensures EventOf(decode, line).typ == ""
    ensures CanHandle(sd, dec, EventOf(decode, line))
    ensures Handle(sd, dec, EventOf(decode, line)) == []
  {
  }

  /**
   * Three lines — a quote for AAPL, a line of an unknown type, and a
   * truncated trade — with no stop: the only call is the quote callback for
   * AAPL; the truncated line has no type, so it reaches no callback.
   */
  lemma QuoteBogusTruncatedScenario(
    sd: Demuxer, dec: Decoders, decode: EnvelopeDecoder, seen: StopSignal,
    quote: string, bogus: string, truncated: string, fields: QuoteFields, syntax: Error)
    requires sd.quotes && sd.trades
    requires forall j :: 0 <= j < 3 ==> !StopsAt(false, seen, j)
    requires decode(quote) == EnvelopeFields(Some("quote"), Some("AAPL"), None, None)
    requires decode(bogus) == EnvelopeFields(Some("bogus"), None, None, None)
    requires decode(truncated) == EnvelopeFields(None, None, None, Some(syntax))
    requires dec.quote(quote) == TypedFields(Some("AAPL"), fields, None)
    ensures AllHandleable(sd, dec, Emitted(decode, [quote, bogus, truncated], 0, false, seen))
    ensures HandleAll(sd, dec, Emitted(decode, [quote, bogus, truncated], 0, false, seen))
            == [QuoteCall(TypedEvent("AAPL", fields))]
  {
    var lines := [quote, bogus, truncated];
    var q, b, t := EventOf(decode, quote), EventOf(decode, bogus), EventOf(decode, truncated);
    assert !StopsAt(false, seen, 0) && !StopsAt(false, seen, 1) && !StopsAt(false, seen, 2);
    assert Emitted(decode, lines, 3, false, seen) == [];
    assert Emitted(decode, lines, 2, false, seen) == [t];
    assert Emitted(decode, lines, 1, false, seen) == [b, t];
    assert Emitted(decode, lines, 0, false, seen) == [q, b, t];
    assert q.message == quote;
    assert Handle(sd, dec, q) == [QuoteCall(TypedEvent("AAPL", fields))];
    assert Handle(sd, dec, b) == [];
    assert Handle(sd, dec, t) == [];
    assert [q, b, t][..2] == [q, b];
    assert [q, b][..1] == [q];
    assert [q][..0] == [];
    assert HandleAll(sd, dec, [q]) == [QuoteCall(TypedEvent("AAPL", fields))];
    assert HandleAll(sd, dec, [q, b]) == HandleAll(sd, dec, [q]);
    assert HandleAll(sd, dec, [q, b, t]) == HandleAll(sd, dec, [q, b]);
  }
}
