/**
 * Request building in client.go: form parameters for creating and changing
 * orders, validated before any request is sent, and the signed HTTP request
 * that every call sends. Float formatting (`strconv.FormatFloat`) is a
 * parameter.
 */
module Requests {
  import opened Wrappers
  import opened Seqs
  import opened Strconv
  import opened Errors

  /** One `form.Add(key, value)`. */
  datatype Param = Param(key: string, value: string)

  /** `url.Values`, kept as the sequence of `Add` calls that built it. */
  type Values = seq<Param>

  predicate HasKey(form: Values, key: string) {
    exists i :: 0 <= i < |form| && form[i].key == key
  }

  /** `fmt.Sprintf("<name>[%d]", i)`. */
  function Indexed(name: string, i: nat): string {
    name + "[" + FormatNat(i) + "]"
  }

  /** `strconv.FormatFloat(x, 'f', precision, 64)`. */
  type FloatFormat = (real, nat) -> string

  // Order classes.
  const EquityClass: string := "equity"
  const OptionClass: string := "option"
  const MultilegClass: string := "multileg"
  const ComboClass: string := "combo"
  // The Go constants of the three conditional classes are defined outside the
  // files modelled here; these spellings are assumed.
  const OneTriggersOther: string := "oto"
  const OneCancelsOther: string := "oco"
  const OneTriggersOneCancelsOther: string := "otoco"

  // Order types.
  const MarketOrder: string := "market"
  const LimitOrder: string := "limit"
  const StopOrder: string := "stop"
  const StopLimitOrder: string := "stop_limit"

  // Order durations.
  const Day: string := "day"
  const GTC: string := "gtc"

  predicate IsLimitLike(typ: string) {
    typ == LimitOrder || typ == StopLimitOrder
  }

  predicate IsStopLike(typ: string) {
    typ == StopOrder || typ == StopLimitOrder
  }

  predicate IsSingleClass(cls: string) {
    cls == EquityClass || cls == OptionClass
  }

  predicate IsMultilegClass(cls: string) {
    cls == MultilegClass || cls == ComboClass
  }

  predicate IsConditionalClass(cls: string) {
    cls == OneTriggersOther || cls == OneCancelsOther || cls == OneTriggersOneCancelsOther
  }

  predicate IsKnownClass(cls: string) {
    IsSingleClass(cls) || IsMultilegClass(cls) || IsConditionalClass(cls)
  }

  /** The fields of a leg (an `Order` in `Order.Legs`) that the builders read. */
  datatype Leg = Leg(symbol: string, optionSymbol: string, side: string, quantity: real,
                     typ: string, price: real, stopPrice: real)

  /** The fields of an `Order` that the builders read. */
  datatype Order = Order(orderClass: string, typ: string, symbol: string, side: string, quantity: real,
                         duration: string, price: real, stopPrice: real, legs: seq<Leg>)

  /** A `(url.Values, error)` pair. */
  datatype FormResult = FormResult(form: Values, err: Option<Error>)

  /** The "price" and "stop" parameters an order type calls for. */
  function PriceParams(typ: string, price: real, stopPrice: real, fmt: FloatFormat): Values {
    (if IsLimitLike(typ) then [Param("price", fmt(price, 2))] else [])
    + (if IsStopLike(typ) then [Param("stop", fmt(stopPrice, 2))] else [])
  }

  /** The parameters of leg `i` of a multileg or combo order: "option_symbol[i]",
      "side[i]" and "quantity[i]". */
  function MultilegLeg(leg: Leg, i: nat, fmt: FloatFormat): Values {
    OptionalParam(true, "option_symbol", i, leg.optionSymbol)
    + OptionalParam(true, "side", i, leg.side)
    + OptionalParam(true, "quantity", i, fmt(leg.quantity, 0))
  }

  function MultilegLegs(legs: seq<Leg>, fmt: FloatFormat): Values
    decreases |legs|
  {
    if legs == [] then []
    else MultilegLegs(legs[..|legs| - 1], fmt) + MultilegLeg(legs[|legs| - 1], |legs| - 1, fmt)
  }

  /** The parameter `name[i]`, when `present`. */
  function OptionalParam(present: bool, name: string, i: nat, value: string): Values {
    if present then [Param(Indexed(name, i), value)] else []
  }

  /** The parameters of leg `i` of a one-triggers/one-cancels order. */
  function ConditionalLeg(leg: Leg, i: nat, fmt: FloatFormat): Values {
    OptionalParam(true, "symbol", i, leg.symbol)
    + OptionalParam(true, "quantity", i, fmt(leg.quantity, 0))
    + OptionalParam(true, "type", i, leg.typ)
    + OptionalParam(true, "side", i, leg.side)
    + OptionalParam(leg.optionSymbol != "", "option_symbol", i, leg.optionSymbol)
    + OptionalParam(IsLimitLike(leg.typ), "price", i, fmt(leg.price, 2))
    + OptionalParam(IsStopLike(leg.typ), "stop", i, fmt(leg.stopPrice, 2))
  }

  function ConditionalLegs(legs: seq<Leg>, fmt: FloatFormat): Values
    decreases |legs|
  {
    if legs == [] then []
    else ConditionalLegs(legs[..|legs| - 1], fmt) + ConditionalLeg(legs[|legs| - 1], |legs| - 1, fmt)
  }

  /** The form `orderToParams` builds: class and duration first, then the
      class's own parameters; an unknown class is rejected. */
  function OrderParams(order: Order, fmt: FloatFormat): FormResult {
    var base := [Param("class", order.orderClass), Param("duration", order.duration)];
    if IsSingleClass(order.orderClass) then
      FormResult(base + [Param("symbol", order.symbol), Param("side", order.side),
                         Param("quantity", fmt(order.quantity, 0)), Param("type", order.typ)]
                 + PriceParams(order.typ, order.price, order.stopPrice, fmt), None)
    else if IsMultilegClass(order.orderClass) then
      FormResult(base + [Param("symbol", order.symbol), Param("type", order.typ)]
                 + PriceParams(order.typ, order.price, order.stopPrice, fmt)
                 + MultilegLegs(order.legs, fmt), None)
    else if IsConditionalClass(order.orderClass) then
      FormResult(base + ConditionalLegs(order.legs, fmt), None)
    else
      FormResult(base, Some(Message("unknown order class: " + order.orderClass)))
  }

  /** `orderToParams`: builds the form with `Add` calls, looping over the legs. */
  method OrderToParams(order: Order, fmt: FloatFormat) returns (form: Values, err: Option<Error>)
    ensures FormResult(form, err) == OrderParams(order, fmt)
  {
    form := [];
    form := form + [Param("class", order.orderClass)];
    form := form + [Param("duration", order.duration)];
    assert form == [Param("class", order.orderClass), Param("duration", order.duration)];
    err := None;
    if order.orderClass == EquityClass || order.orderClass == OptionClass {
      form := AddSingleParams(form, order, fmt);
    } else if order.orderClass == MultilegClass || order.orderClass == ComboClass {
      form := AddMultilegParams(form, order, fmt);
    } else if IsConditionalClass(order.orderClass) {
      form := AddConditionalLegs(form, order.legs, fmt);
    } else {
      err := Some(Message("unknown order class: " + order.orderClass));
    }
  }

  /** The equity and option branch. */
  method AddSingleParams(form0: Values, order: Order, fmt: FloatFormat) returns (form: Values)
    ensures form == form0 + [Param("symbol", order.symbol), Param("side", order.side),
                             Param("quantity", fmt(order.quantity, 0)), Param("type", order.typ)]
                   + PriceParams(order.typ, order.price, order.stopPrice, fmt)
  {
    form := form0;
    form := form + [Param("symbol", order.symbol)];
    form := form + [Param("side", order.side)];
    form := form + [Param("quantity", fmt(order.quantity, 0))];
    form := form + [Param("type", order.typ)];
    form := AddPriceParams(form, order.typ, order.price, order.stopPrice, fmt);
  }

  /** The multileg and combo branch. */
  method AddMultilegParams(form0: Values, order: Order, fmt: FloatFormat) returns (form: Values)
    ensures form == form0 + [Param("symbol", order.symbol), Param("type", order.typ)]
                   + PriceParams(order.typ, order.price, order.stopPrice, fmt)
                   + MultilegLegs(order.legs, fmt)
  {
    form := form0;
    form := form + [Param("symbol", order.symbol)];
    form := form + [Param("type", order.typ)];
    form := AddPriceParams(form, order.typ, order.price, order.stopPrice, fmt);
    form := AddMultilegLegs(form, order.legs, fmt);
  }

  method AddPriceParams(form0: Values, typ: string, price: real, stopPrice: real, fmt: FloatFormat)
    returns (form: Values)
    ensures form == form0 + PriceParams(typ, price, stopPrice, fmt)
  {
    form := form0;
    if typ == LimitOrder || typ == StopLimitOrder {
      form := form + [Param("price", fmt(price, 2))];
    }
    if typ == StopOrder || typ == StopLimitOrder {
      form := form + [Param("stop", fmt(stopPrice, 2))];
    }
  }

  /** The leg loop of a multileg or combo order. */
  method AddMultilegLegs(form0: Values, legs: seq<Leg>, fmt: FloatFormat) returns (form: Values)
    ensures form == form0 + MultilegLegs(legs, fmt)
  {
    form := form0;
    for i := 0 to |legs|
      invariant form == form0 + MultilegLegs(legs[..i], fmt)
    {
      var leg := legs[i];
      form := form + [Param(Indexed("option_symbol", i), leg.optionSymbol)];
      form := form + [Param(Indexed("side", i), leg.side)];
      form := form + [Param(Indexed("quantity", i), fmt(leg.quantity, 0))];
      assert legs[..i + 1][..i] == legs[..i];
    }
    assert legs[..|legs|] == legs;
  }

  /** The leg loop of a one-triggers/one-cancels order. */
  method AddConditionalLegs(form0: Values, legs: seq<Leg>, fmt: FloatFormat) returns (form: Values)
    ensures form == form0 + ConditionalLegs(legs, fmt)
  {
    form := form0;
    for i := 0 to |legs|
      invariant form == form0 + ConditionalLegs(legs[..i], fmt)
    {
      ghost var done := ConditionalLegs(legs[..i], fmt);
      form := AddConditionalLeg(form, legs[i], i, fmt);
      assert legs[..i + 1][..i] == legs[..i];
      ConcatAssoc(form0, done, ConditionalLeg(legs[i], i, fmt));
    }
    assert legs[..|legs|] == legs;
  }

  /** One iteration of that loop. */
  method AddConditionalLeg(form0: Values, leg: Leg, i: nat, fmt: FloatFormat) returns (form: Values)
    ensures form == form0 + ConditionalLeg(leg, i, fmt)
  {
    form := form0;
    form := form + [Param(Indexed("symbol", i), leg.symbol)];
    form := form + [Param(Indexed("quantity", i), fmt(leg.quantity, 0))];
    form := form + [Param(Indexed("type", i), leg.typ)];
    form := form + [Param(Indexed("side", i), leg.side)];
    if leg.optionSymbol != "" {
      form := form + [Param(Indexed("option_symbol", i), leg.optionSymbol)];
    }
    if leg.typ == LimitOrder || leg.typ == StopLimitOrder {
      form := form + [Param(Indexed("price", i), fmt(leg.price, 2))];
    }
    if leg.typ == StopOrder || leg.typ == StopLimitOrder {
      form := form + [Param(Indexed("stop", i), fmt(leg.stopPrice, 2))];
    }
  }

  // ---------------------------------------------------------------------------
  // What the form of `orderToParams` contains.

  lemma HasKeyConcat(a: Values, b: Values, key: string)
    ensures HasKey(a + b, key) <==> HasKey(a, key) || HasKey(b, key)
  {
    if HasKey(a + b, key) {
      var k :| 0 <= k < |a + b| && (a + b)[k].key == key;
      if k >= |a| {
        assert b[k - |a|].key == key;
      }
    }
    if HasKey(a, key) {
      var k :| 0 <= k < |a| && a[k].key == key;
      assert (a + b)[k].key == key;
    }
    if HasKey(b, key) {
      var k :| 0 <= k < |b| && b[k].key == key;
      assert (a + b)[|a| + k].key == key;
    }
  }

  /** An indexed key has its first '[' right after the name. */
  lemma IndexedShape(name: string, i: nat)
    ensures '[' in Indexed(name, i)
    ensures '[' !in name ==> forall k :: 0 <= k < |name| ==> Indexed(name, i)[k] != '['
    ensures Indexed(name, i)[|name|] == '['
  {
    assert Indexed(name, i)[|name|] == '[';
  }

  /** Two indexed keys over bracket-free names are equal only for the same
      name and the same index. */
  lemma IndexedInjective(n1: string, i: nat, n2: string, j: nat)
    requires '[' !in n1 && '[' !in n2
    requires Indexed(n1, i) == Indexed(n2, j)
    ensures n1 == n2 && i == j
  {
    IndexedShape(n1, i);
    IndexedShape(n2, j);
    assert |n1| == |n2|;
    var s := Indexed(n1, i);
    assert n1 == s[..|n1|];
    assert n2 == s[..|n1|];
    assert FormatNat(i) == s[|n1| + 1 .. |s| - 1];
    assert FormatNat(j) == s[|n1| + 1 .. |s| - 1];
    FormatNatRoundTrip(i);
    FormatNatRoundTrip(j);
  }

  /** Every key of the form carries an index in brackets. */
  predicate AllBracketed(form: Values) {
    forall k :: 0 <= k < |form| ==> '[' in form[k].key
  }

  lemma AllBracketedConcat(a: Values, b: Values)
    requires AllBracketed(a) && AllBracketed(b)
    ensures AllBracketed(a + b)
  {
    forall k | 0 <= k < |a + b|
      ensures '[' in (a + b)[k].key
    {
      if k >= |a| {
        assert (a + b)[k] == b[k - |a|];
      }
    }
  }

  /** Every key of the multileg leg block carries an index in brackets. */
  lemma {:induction false} MultilegKeysBracketed(legs: seq<Leg>, fmt: FloatFormat)
    ensures AllBracketed(MultilegLegs(legs, fmt))
    decreases |legs|
  {
    if legs != [] {
      var i := |legs| - 1;
      var leg := legs[i];
      MultilegKeysBracketed(legs[..i], fmt);
      OptionalParamBracketed(true, "option_symbol", i, leg.optionSymbol);
      OptionalParamBracketed(true, "side", i, leg.side);
      OptionalParamBracketed(true, "quantity", i, fmt(leg.quantity, 0));
      AllBracketedConcat(OptionalParam(true, "option_symbol", i, leg.optionSymbol), OptionalParam(true, "side", i, leg.side));
      AllBracketedConcat(OptionalParam(true, "option_symbol", i, leg.optionSymbol) + OptionalParam(true, "side", i, leg.side),
                         OptionalParam(true, "quantity", i, fmt(leg.quantity, 0)));
      AllBracketedConcat(MultilegLegs(legs[..i], fmt), MultilegLeg(leg, i, fmt));
    }
  }

  lemma OptionalParamBracketed(present: bool, name: string, i: nat, value: string)
    ensures AllBracketed(OptionalParam(present, name, i, value))
  {
    IndexedShape(name, i);
  }

  /** Every key of one conditional leg carries its index in brackets. */
  lemma ConditionalLegBracketed(leg: Leg, i: nat, fmt: FloatFormat)
    ensures AllBracketed(ConditionalLeg(leg, i, fmt))
  {
    var p1 := OptionalParam(true, "symbol", i, leg.symbol);
    var p2 := OptionalParam(true, "quantity", i, fmt(leg.quantity, 0));
    var p3 := OptionalParam(true, "type", i, leg.typ);
    var p4 := OptionalParam(true, "side", i, leg.side);
    var p5 := OptionalParam(leg.optionSymbol != "", "option_symbol", i, leg.optionSymbol);
    var p6 := OptionalParam(IsLimitLike(leg.typ), "price", i, fmt(leg.price, 2));
    var p7 := OptionalParam(IsStopLike(leg.typ), "stop", i, fmt(leg.stopPrice, 2));
    OptionalParamBracketed(true, "symbol", i, leg.symbol);
    OptionalParamBracketed(true, "quantity", i, fmt(leg.quantity, 0));
    OptionalParamBracketed(true, "type", i, leg.typ);
    OptionalParamBracketed(true, "side", i, leg.side);
    OptionalParamBracketed(leg.optionSymbol != "", "option_symbol", i, leg.optionSymbol);
    OptionalParamBracketed(IsLimitLike(leg.typ), "price", i, fmt(leg.price, 2));
    OptionalParamBracketed(IsStopLike(leg.typ), "stop", i, fmt(leg.stopPrice, 2));
    AllBracketedConcat(p1, p2);
    AllBracketedConcat(p1 + p2, p3);
    AllBracketedConcat(p1 + p2 + p3, p4);
    AllBracketedConcat(p1 + p2 + p3 + p4, p5);
    AllBracketedConcat(p1 + p2 + p3 + p4 + p5, p6);
    AllBracketedConcat(p1 + p2 + p3 + p4 + p5 + p6, p7);
  }

  /** Every key of the conditional leg block carries an index in brackets. */
  lemma {:induction false} ConditionalKeysBracketed(legs: seq<Leg>, fmt: FloatFormat)
    ensures AllBracketed(ConditionalLegs(legs, fmt))
    decreases |legs|
  {
    if legs != [] {
      var i := |legs| - 1;
      ConditionalKeysBracketed(legs[..i], fmt);
      ConditionalLegBracketed(legs[i], i, fmt);
      AllBracketedConcat(ConditionalLegs(legs[..i], fmt), ConditionalLeg(legs[i], i, fmt));
    }
  }

  lemma NoBracketedKey(form: Values, key: string)
    requires AllBracketed(form)
    requires '[' !in key
    ensures !HasKey(form, key)
  {
  }

  /** No key of the form contains a bracket. */
  predicate NoneBracketed(form: Values) {
    forall k :: 0 <= k < |form| ==> '[' !in form[k].key
  }

  lemma NoIndexedKey(form: Values, name: string, j: nat)
    requires NoneBracketed(form)
    ensures !HasKey(form, Indexed(name, j))
  {
    IndexedShape(name, j);
  }

  lemma PriceParamsKeys(typ: string, price: real, stopPrice: real, fmt: FloatFormat)
    ensures HasKey(PriceParams(typ, price, stopPrice, fmt), "price") <==> IsLimitLike(typ)
    ensures HasKey(PriceParams(typ, price, stopPrice, fmt), "stop") <==> IsStopLike(typ)
  {
    var lim: Values := if IsLimitLike(typ) then [Param("price", fmt(price, 2))] else [];
    var stp: Values := if IsStopLike(typ) then [Param("stop", fmt(stopPrice, 2))] else [];
    HasKeyConcat(lim, stp, "price");
    HasKeyConcat(lim, stp, "stop");
    if IsLimitLike(typ) {
      assert lim[0].key == "price";
    }
    if IsStopLike(typ) {
      assert stp[0].key == "stop";
    }
  }

  /** `orderToParams` accepts exactly the known classes and always starts the
      form with the class and the duration. */
  lemma OrderClassChecked(order: Order, fmt: FloatFormat)
    ensures OrderParams(order, fmt).err.None? <==> IsKnownClass(order.orderClass)
    ensures !IsKnownClass(order.orderClass) ==>
              OrderParams(order, fmt) == FormResult([Param("class", order.orderClass), Param("duration", order.duration)],
                                                    Some(Message("unknown order class: " + order.orderClass)))
    ensures |OrderParams(order, fmt).form| >= 2
    ensures OrderParams(order, fmt).form[..2] == [Param("class", order.orderClass), Param("duration", order.duration)]
  {
  }

  /** A "price" key is added exactly for limit-like single and multileg
      orders, a "stop" key exactly for stop-like ones; the leg blocks never
      add an unindexed key. */
  lemma OrderPriceKeys(order: Order, fmt: FloatFormat)
    ensures HasKey(OrderParams(order, fmt).form, "price") <==>
              (IsSingleClass(order.orderClass) || IsMultilegClass(order.orderClass)) && IsLimitLike(order.typ)
    ensures HasKey(OrderParams(order, fmt).form, "stop") <==>
              (IsSingleClass(order.orderClass) || IsMultilegClass(order.orderClass)) && IsStopLike(order.typ)
  {
    var base := [Param("class", order.orderClass), Param("duration", order.duration)];
    var pp := PriceParams(order.typ, order.price, order.stopPrice, fmt);
    PriceParamsKeys(order.typ, order.price, order.stopPrice, fmt);
    assert !HasKey(base, "price") && !HasKey(base, "stop");
    if IsSingleClass(order.orderClass) {
      var head := base + [Param("symbol", order.symbol), Param("side", order.side),
                          Param("quantity", fmt(order.quantity, 0)), Param("type", order.typ)];
      assert !HasKey(head, "price") && !HasKey(head, "stop");
      HasKeyConcat(head, pp, "price");
      HasKeyConcat(head, pp, "stop");
    } else if IsMultilegClass(order.orderClass) {
      var head := base + [Param("symbol", order.symbol), Param("type", order.typ)];
      var legs := MultilegLegs(order.legs, fmt);
      assert !HasKey(head, "price") && !HasKey(head, "stop");
      MultilegKeysBracketed(order.legs, fmt);
      NoBracketedKey(legs, "price");
      NoBracketedKey(legs, "stop");
      HasKeyConcat(head, pp, "price");
      HasKeyConcat(head, pp, "stop");
      HasKeyConcat(head + pp, legs, "price");
      HasKeyConcat(head + pp, legs, "stop");
    } else if IsConditionalClass(order.orderClass) {
      ConditionalKeysBracketed(order.legs, fmt);
      NoBracketedKey(ConditionalLegs(order.legs, fmt), "price");
      NoBracketedKey(ConditionalLegs(order.legs, fmt), "stop");
      HasKeyConcat(base, ConditionalLegs(order.legs, fmt), "price");
      HasKeyConcat(base, ConditionalLegs(order.legs, fmt), "stop");
    }
  }

  /** Which indexed keys a leg of a conditional order contributes. */
  predicate ConditionalLegHasKey(leg: Leg, name: string) {
    name == "symbol" || name == "quantity" || name == "type" || name == "side"
    || (name == "option_symbol" && leg.optionSymbol != "")
    || (name == "price" && IsLimitLike(leg.typ))
    || (name == "stop" && IsStopLike(leg.typ))
  }

  /** A block of at most one indexed parameter holds `name[j]` exactly when
      it is present with that name and index. */
  lemma OptionalKey(present: bool, n: string, i: nat, v: string, name: string, j: nat)
    requires '[' !in n && '[' !in name
    ensures HasKey(OptionalParam(present, n, i, v), Indexed(name, j)) <==> present && n == name && i == j
  {
    var block := OptionalParam(present, n, i, v);
    if present && Indexed(n, i) == Indexed(name, j) {
      IndexedInjective(n, i, name, j);
      assert block[0].key == Indexed(name, j);
    }
  }

  lemma ConditionalLegKeys(leg: Leg, i: nat, fmt: FloatFormat, name: string, j: nat)
    requires '[' !in name
    ensures HasKey(ConditionalLeg(leg, i, fmt), Indexed(name, j)) <==> j == i && ConditionalLegHasKey(leg, name)
  {
    var key := Indexed(name, j);
    var p1 := OptionalParam(true, "symbol", i, leg.symbol);
    var p2 := OptionalParam(true, "quantity", i, fmt(leg.quantity, 0));
    var p3 := OptionalParam(true, "type", i, leg.typ);
    var p4 := OptionalParam(true, "side", i, leg.side);
    var p5 := OptionalParam(leg.optionSymbol != "", "option_symbol", i, leg.optionSymbol);
    var p6 := OptionalParam(IsLimitLike(leg.typ), "price", i, fmt(leg.price, 2));
    var p7 := OptionalParam(IsStopLike(leg.typ), "stop", i, fmt(leg.stopPrice, 2));
    OptionalKey(true, "symbol", i, leg.symbol, name, j);
    OptionalKey(true, "quantity", i, fmt(leg.quantity, 0), name, j);
    OptionalKey(true, "type", i, leg.typ, name, j);
    OptionalKey(true, "side", i, leg.side, name, j);
    OptionalKey(leg.optionSymbol != "", "option_symbol", i, leg.optionSymbol, name, j);
    OptionalKey(IsLimitLike(leg.typ), "price", i, fmt(leg.price, 2), name, j);
    OptionalKey(IsStopLike(leg.typ), "stop", i, fmt(leg.stopPrice, 2), name, j);
    HasKeyConcat(p1, p2, key);
    HasKeyConcat(p1 + p2, p3, key);
    HasKeyConcat(p1 + p2 + p3, p4, key);
    HasKeyConcat(p1 + p2 + p3 + p4, p5, key);
    HasKeyConcat(p1 + p2 + p3 + p4 + p5, p6, key);
    HasKeyConcat(p1 + p2 + p3 + p4 + p5 + p6, p7, key);
  }

  /** In the conditional leg block, the key `name[j]` is present exactly when
      leg `j` exists and calls for it. */
  lemma {:induction false} ConditionalLegsKeys(legs: seq<Leg>, fmt: FloatFormat, name: string, j: nat)
    requires '[' !in name
    ensures HasKey(ConditionalLegs(legs, fmt), Indexed(name, j)) <==> j < |legs| && ConditionalLegHasKey(legs[j], name)
    decreases |legs|
  {
    if legs != [] {
      var i := |legs| - 1;
      ConditionalLegsKeys(legs[..i], fmt, name, j);
      ConditionalLegKeys(legs[i], i, fmt, name, j);
      HasKeyConcat(ConditionalLegs(legs[..i], fmt), ConditionalLeg(legs[i], i, fmt), Indexed(name, j));
    }
  }

  /** The form of a one-triggers/one-cancels order: class, duration, then the leg block. */
  lemma ConditionalForm(order: Order, fmt: FloatFormat)
    requires IsConditionalClass(order.orderClass)
    ensures OrderParams(order, fmt).form
            == [Param("class", order.orderClass), Param("duration", order.duration)] + ConditionalLegs(order.legs, fmt)
  {
  }

  /** In a one-triggers/one-cancels order, `name[j]` is sent exactly when leg `j` calls for it. */
  lemma ConditionalOrderKeys(order: Order, fmt: FloatFormat, name: string, j: nat)
    requires IsConditionalClass(order.orderClass) && '[' !in name
    ensures HasKey(OrderParams(order, fmt).form, Indexed(name, j)) <==>
              j < |order.legs| && ConditionalLegHasKey(order.legs[j], name)
  {
    var base := [Param("class", order.orderClass), Param("duration", order.duration)];
    ConditionalForm(order, fmt);
    NoIndexedKey(base, name, j);
    ConditionalLegsKeys(order.legs, fmt, name, j);
    HasKeyConcat(base, ConditionalLegs(order.legs, fmt), Indexed(name, j));
  }

  /** For one-triggers/one-cancels orders, leg `j` gets "price[j]" exactly
      when its type is limit-like and "stop[j]" exactly when it is stop-like. */
  lemma ConditionalPriceKeys(order: Order, fmt: FloatFormat, j: nat)
    requires IsConditionalClass(order.orderClass)
    ensures HasKey(OrderParams(order, fmt).form, Indexed("price", j)) <==> j < |order.legs| && IsLimitLike(order.legs[j].typ)
    ensures HasKey(OrderParams(order, fmt).form, Indexed("stop", j)) <==> j < |order.legs| && IsStopLike(order.legs[j].typ)
    ensures HasKey(OrderParams(order, fmt).form, Indexed("symbol", j)) <==> j < |order.legs|
  {
    ConditionalOrderKeys(order, fmt, "price", j);
    ConditionalOrderKeys(order, fmt, "stop", j);
    ConditionalOrderKeys(order, fmt, "symbol", j);
  }

  // ---------------------------------------------------------------------------
  // The multileg quantity key.

  /** Leg `i`'s quantity key in a multileg order, as client.go:274 formats it. */
  function MultilegQuantityKey(i: nat): string {
    "quantity[" + FormatNat(i) + "d]"
  }

  /** Leg `i` of a multileg or combo order as client.go:272-274 builds it. */
  function AsWrittenMultilegLeg(leg: Leg, i: nat, fmt: FloatFormat): Values {
    [Param(Indexed("option_symbol", i), leg.optionSymbol),
     Param(Indexed("side", i), leg.side),
     Param(MultilegQuantityKey(i), fmt(leg.quantity, 0))]
  }

  function AsWrittenMultilegLegs(legs: seq<Leg>, fmt: FloatFormat): Values
    decreases |legs|
  {
    if legs == [] then []
    else AsWrittenMultilegLegs(legs[..|legs| - 1], fmt) + AsWrittenMultilegLeg(legs[|legs| - 1], |legs| - 1, fmt)
  }

  /** The malformed key is never an indexed key of any name. */
  lemma MultilegQuantityKeyNotIndexed(i: nat, name: string, j: nat)
    ensures MultilegQuantityKey(i) != Indexed(name, j)
  {
    FormatNatRoundTrip(i);
    FormatNatRoundTrip(j);
    var q := MultilegQuantityKey(i);
    var r := Indexed(name, j);
    var f := FormatNat(j);
    if |q| == |r| {
      assert q[|q| - 2] == 'd';
      assert r[|r| - 2] == f[|f| - 1];
      assert IsDigit(f[|f| - 1]);
    }
  }

  /** In the multileg leg block as written, "option_symbol[j]" and "side[j]"
      are present exactly for the existing legs, and no "quantity[j]" key is
      ever present: the server never receives a leg quantity under the name
      the other leg parameters follow. */
  lemma {:induction false} AsWrittenMultilegLegsKeys(legs: seq<Leg>, fmt: FloatFormat, name: string, j: nat)
    requires '[' !in name
    ensures HasKey(AsWrittenMultilegLegs(legs, fmt), Indexed(name, j)) <==>
              j < |legs| && (name == "option_symbol" || name == "side")
    decreases |legs|
  {
    if legs != [] {
      var i := |legs| - 1;
      var key := Indexed(name, j);
      var leg := legs[i];
      var p1 := OptionalParam(true, "option_symbol", i, leg.optionSymbol);
      var p2 := OptionalParam(true, "side", i, leg.side);
      var p3: Values := [Param(MultilegQuantityKey(i), fmt(leg.quantity, 0))];
      assert AsWrittenMultilegLeg(leg, i, fmt) == p1 + p2 + p3;
      AsWrittenMultilegLegsKeys(legs[..i], fmt, name, j);
      OptionalKey(true, "option_symbol", i, leg.optionSymbol, name, j);
      OptionalKey(true, "side", i, leg.side, name, j);
      MultilegQuantityKeyNotIndexed(i, name, j);
      assert !HasKey(p3, key);
      HasKeyConcat(p1, p2, key);
      HasKeyConcat(p1 + p2, p3, key);
      HasKeyConcat(AsWrittenMultilegLegs(legs[..i], fmt), p1 + p2 + p3, key);
    }
  }

  /** The parameters of a multileg or combo order ahead of its legs. */
  function MultilegHead(order: Order, fmt: FloatFormat): Values {
    [Param("class", order.orderClass), Param("duration", order.duration)]
    + [Param("symbol", order.symbol), Param("type", order.typ)]
    + PriceParams(order.typ, order.price, order.stopPrice, fmt)
  }

  /** The form of a multileg or combo order: the head, then the leg block. */
  lemma MultilegForm(order: Order, fmt: FloatFormat)
    requires IsMultilegClass(order.orderClass)
    ensures OrderParams(order, fmt).form == MultilegHead(order, fmt) + MultilegLegs(order.legs, fmt)
  {
  }

  lemma MultilegHeadUnbracketed(order: Order, fmt: FloatFormat)
    ensures NoneBracketed(MultilegHead(order, fmt))
  {
  }

  /** What client.go:264-276 sends for a multileg or combo order: the head,
      then three parameters per leg. */
  function AsWrittenMultilegForm(order: Order, fmt: FloatFormat): (f: Values)
    ensures |f| == |MultilegHead(order, fmt)| + 3 * |order.legs|
    ensures f[..|MultilegHead(order, fmt)|] == MultilegHead(order, fmt)
  {
    AsWrittenMatchesCorrected(order.legs, fmt);
    MultilegHead(order, fmt) + AsWrittenMultilegLegs(order.legs, fmt)
  }

  /** The leg block as written sends the same values in the same order as the
      corrected one, under the same keys except each leg's quantity: leg `i`
      sends it under the malformed key where "quantity[i]" belongs. */
  lemma {:induction false} AsWrittenMatchesCorrected(legs: seq<Leg>, fmt: FloatFormat)
    ensures |AsWrittenMultilegLegs(legs, fmt)| == |MultilegLegs(legs, fmt)| == 3 * |legs|
    ensures forall k :: 0 <= k < 3 * |legs| ==>
              AsWrittenMultilegLegs(legs, fmt)[k].value == MultilegLegs(legs, fmt)[k].value
    ensures forall k :: 0 <= k < 3 * |legs| && k % 3 != 2 ==>
              AsWrittenMultilegLegs(legs, fmt)[k].key == MultilegLegs(legs, fmt)[k].key
    ensures forall k :: 0 <= k < 3 * |legs| && k % 3 == 2 ==>
              AsWrittenMultilegLegs(legs, fmt)[k].key == MultilegQuantityKey(k / 3)
              && MultilegLegs(legs, fmt)[k].key == Indexed("quantity", k / 3)
    decreases |legs|
  {
    if legs != [] {
      var n := |legs| - 1;
      var init := legs[..n];
      AsWrittenMatchesCorrected(init, fmt);
      var a0 := AsWrittenMultilegLegs(init, fmt);
      var c0 := MultilegLegs(init, fmt);
      var a1 := AsWrittenMultilegLeg(legs[n], n, fmt);
      var c1 := MultilegLeg(legs[n], n, fmt);
      assert |a1| == 3 && |c1| == 3;
      assert AsWrittenMultilegLegs(legs, fmt) == a0 + a1;
      assert MultilegLegs(legs, fmt) == c0 + c1;
      forall k | 3 * n <= k < 3 * |legs|
        ensures (a0 + a1)[k] == a1[k - 3 * n] && (c0 + c1)[k] == c1[k - 3 * n]
        ensures k / 3 == n && k % 3 == k - 3 * n
      {
      }
    }
  }

  /** As written, a multileg or combo order sends "side[j]" for every leg but
      no "quantity[j]" key at all. */
  lemma MultilegOrderLacksLegQuantities(order: Order, fmt: FloatFormat, j: nat)
    ensures !HasKey(AsWrittenMultilegForm(order, fmt), Indexed("quantity", j))
    ensures j < |order.legs| ==> HasKey(AsWrittenMultilegForm(order, fmt), Indexed("side", j))
  {
    var head := MultilegHead(order, fmt);
    MultilegHeadUnbracketed(order, fmt);
    NoIndexedKey(head, "quantity", j);
    NoIndexedKey(head, "side", j);
    AsWrittenMultilegLegsKeys(order.legs, fmt, "quantity", j);
    AsWrittenMultilegLegsKeys(order.legs, fmt, "side", j);
    HasKeyConcat(head, AsWrittenMultilegLegs(order.legs, fmt), Indexed("quantity", j));
    HasKeyConcat(head, AsWrittenMultilegLegs(order.legs, fmt), Indexed("side", j));
  }

  /** With the corrected key, a multileg or combo order sends "quantity[j]",
      "side[j]" and "option_symbol[j]" exactly for its legs. */
  lemma MultilegOrderLegKeys(order: Order, fmt: FloatFormat, name: string, j: nat)
    requires IsMultilegClass(order.orderClass) && '[' !in name
    ensures HasKey(OrderParams(order, fmt).form, Indexed(name, j)) <==>
              j < |order.legs| && (name == "option_symbol" || name == "side" || name == "quantity")
  {
    var head := MultilegHead(order, fmt);
    MultilegForm(order, fmt);
    MultilegHeadUnbracketed(order, fmt);
    NoIndexedKey(head, name, j);
    MultilegLegsKeys(order.legs, fmt, name, j);
    HasKeyConcat(head, MultilegLegs(order.legs, fmt), Indexed(name, j));
  }

  /** With the corrected key every leg's quantity is sent as "quantity[j]". */
  lemma {:induction false} MultilegLegsKeys(legs: seq<Leg>, fmt: FloatFormat, name: string, j: nat)
    requires '[' !in name
    ensures HasKey(MultilegLegs(legs, fmt), Indexed(name, j)) <==>
              j < |legs| && (name == "option_symbol" || name == "side" || name == "quantity")
    decreases |legs|
  {
    if legs != [] {
      var i := |legs| - 1;
      var key := Indexed(name, j);
      var leg := legs[i];
      var p1 := OptionalParam(true, "option_symbol", i, leg.optionSymbol);
      var p2 := OptionalParam(true, "side", i, leg.side);
      var p3 := OptionalParam(true, "quantity", i, fmt(leg.quantity, 0));
      MultilegLegsKeys(legs[..i], fmt, name, j);
      OptionalKey(true, "option_symbol", i, leg.optionSymbol, name, j);
      OptionalKey(true, "side", i, leg.side, name, j);
      OptionalKey(true, "quantity", i, fmt(leg.quantity, 0), name, j);
      HasKeyConcat(p1, p2, key);
      HasKeyConcat(p1 + p2, p3, key);
      HasKeyConcat(MultilegLegs(legs[..i], fmt), p1 + p2 + p3, key);
    }
  }

  // ---------------------------------------------------------------------------
  // updateOrderParams

  predicate IsKnownType(typ: string) {
    typ == MarketOrder || typ == LimitOrder || typ == StopOrder || typ == StopLimitOrder
  }

  predicate IsKnownDuration(duration: string) {
    duration == GTC || duration == Day
  }

  /** The checks `updateOrderParams` makes, in the order it makes them, each
      failure returning the form built so far. */
  function UpdateParams(order: Order, fmt: FloatFormat): FormResult {
    var typ := [Param("type", order.typ)];
    var dur := typ + [Param("duration", order.duration)];
    var withPrice := dur + (if IsLimitLike(order.typ) then [Param("price", fmt(order.price, 2))] else []);
    if !IsKnownType(order.typ) then
      FormResult([], Some(Message("unknown order type: " + order.typ)))
    else if !IsKnownDuration(order.duration) then
      FormResult(typ, Some(Message("unknown order duration: " + order.duration)))
    else if IsLimitLike(order.typ) && order.price <= 0.0 then
      FormResult(dur, Some(Message("cannot place limit order without limit price")))
    else if IsStopLike(order.typ) && order.stopPrice <= 0.0 then
      FormResult(withPrice, Some(Message("cannot place stop order without stop price")))
    else
      FormResult(withPrice + (if IsStopLike(order.typ) then [Param("stop", fmt(order.stopPrice, 2))] else []), None)
  }

  /** `updateOrderParams`: validates while adding to the form. */
  method UpdateOrderParams(order: Order, fmt: FloatFormat) returns (form: Values, err: Option<Error>)
    ensures FormResult(form, err) == UpdateParams(order, fmt)
  {
    form := [];
    if order.typ != MarketOrder && order.typ != LimitOrder && order.typ != StopOrder && order.typ != StopLimitOrder {
      return form, Some(Message("unknown order type: " + order.typ));
    }
    form := form + [Param("type", order.typ)];
    assert form == [Param("type", order.typ)];
    if order.duration != GTC && order.duration != Day {
      return form, Some(Message("unknown order duration: " + order.duration));
    }
    form := form + [Param("duration", order.duration)];
    if order.typ == LimitOrder || order.typ == StopLimitOrder {
      if order.price <= 0.0 {
        return form, Some(Message("cannot place limit order without limit price"));
      }
      form := form + [Param("price", fmt(order.price, 2))];
    }
    if order.typ == StopOrder || order.typ == StopLimitOrder {
      if order.stopPrice <= 0.0 {
        return form, Some(Message("cannot place stop order without stop price"));
      }
      form := form + [Param("stop", fmt(order.stopPrice, 2))];
    }
    err := None;
  }

  /** An order change is accepted exactly when its type and duration are
      known and a limit (stop) type comes with a positive limit (stop) price;
      the accepted form is the type, the duration and the same price
      parameters `orderToParams` sends. */
  lemma UpdateParamsAccepts(order: Order, fmt: FloatFormat)
    ensures UpdateParams(order, fmt).err.None? <==>
              IsKnownType(order.typ) && IsKnownDuration(order.duration)
              && (IsLimitLike(order.typ) ==> order.price > 0.0)
              && (IsStopLike(order.typ) ==> order.stopPrice > 0.0)
    ensures UpdateParams(order, fmt).err.None? ==>
              UpdateParams(order, fmt).form ==
                [Param("type", order.typ), Param("duration", order.duration)]
                + PriceParams(order.typ, order.price, order.stopPrice, fmt)
  {
  }

  /** Whatever the outcome, the form returned is a prefix of the full form,
      and a rejected type yields an empty form. */
  lemma UpdateParamsPrefix(order: Order, fmt: FloatFormat)
    ensures var full := [Param("type", order.typ), Param("duration", order.duration)]
                        + PriceParams(order.typ, order.price, order.stopPrice, fmt);
            var r := UpdateParams(order, fmt);
            |r.form| <= |full| && r.form == full[..|r.form|]
    ensures !IsKnownType(order.typ) ==> UpdateParams(order, fmt).form == []
  {
  }

  /** The first failing check decides the message. */
  lemma UpdateParamsFirstError(order: Order, fmt: FloatFormat)
    ensures !IsKnownType(order.typ) ==>
              UpdateParams(order, fmt).err == Some(Message("unknown order type: " + order.typ))
    ensures IsKnownType(order.typ) && !IsKnownDuration(order.duration) ==>
              UpdateParams(order, fmt).err == Some(Message("unknown order duration: " + order.duration))
    ensures IsKnownType(order.typ) && IsKnownDuration(order.duration) && IsLimitLike(order.typ) && order.price <= 0.0 ==>
              UpdateParams(order, fmt).err == Some(Message("cannot place limit order without limit price"))
    ensures IsKnownType(order.typ) && IsKnownDuration(order.duration) && (IsLimitLike(order.typ) ==> order.price > 0.0)
            && IsStopLike(order.typ) && order.stopPrice <= 0.0 ==>
              UpdateParams(order, fmt).err == Some(Message("cannot place stop order without stop price"))
  {
  }

  // ---------------------------------------------------------------------------
  // makeSignedRequest

  /** A token character of section 3.2.6 of RFC 7230, which `http.NewRequest`
      demands of every character of the method. */
  predicate IsTokenChar(c: char) {
    ('0' <= c <= '9') || ('a' <= c <= 'z') || ('A' <= c <= 'Z')
    || c in "!#$%&'*+-.^_`|~"
  }

  predicate ValidMethod(m: string) {
    |m| > 0 && forall k :: 0 <= k < |m| ==> IsTokenChar(m[k])
  }

  /** The request as sent: method, URL, encoded body (if any) and headers. */
  datatype Request = Request(verb: string, url: string, body: Option<string>, header: map<string, string>)

  /** `url.Values.Encode`, left opaque. */
  type Encoder = Values -> string

  /** `url.Parse`'s verdict on a URL: the error it reports, or none. */
  type UrlCheck = string -> Option<Error>

  const ContentTypeForm: string := "application/x-www-form-urlencoded"

  /** `makeSignedRequest`: `http.NewRequest` plus the three headers. */
  function MakeSignedRequest(verb: string, url: string, body: Option<Values>, authHeader: string,
                             encode: Encoder, parseUrl: UrlCheck): (r: Result<Request, Error>)
    ensures r.Success? <==> ValidMethod(if verb == "" then "GET" else verb) && parseUrl(url).None?
    ensures r.Success? ==> r.value.verb == (if verb == "" then "GET" else verb) && r.value.url == url
    ensures r.Success? ==> "Accept" in r.value.header && r.value.header["Accept"] == "application/json"
    ensures r.Success? ==> "Authorization" in r.value.header && r.value.header["Authorization"] == authHeader
    ensures r.Success? && verb != "DELETE" ==> "Content-Type" in r.value.header && r.value.header["Content-Type"] == ContentTypeForm
    ensures r.Success? ==> ("Content-Type" in r.value.header <==> verb != "DELETE")
    ensures r.Success? ==> (r.value.body.Some? <==> body.Some?)
    ensures r.Success? ==> r.value.header.Keys <= {"Accept", "Authorization", "Content-Type"}
    ensures !ValidMethod(if verb == "" then "GET" else verb) ==> r.Failure? && r.error.Foreign?
    ensures ValidMethod(if verb == "" then "GET" else verb) && parseUrl(url).Some? ==> r == Failure(parseUrl(url).value)
  {
    var m := if verb == "" then "GET" else verb;
    if !ValidMethod(m) then
      Failure(Foreign("net/http: invalid method " + m))
    else if parseUrl(url).Some? then
      Failure(parseUrl(url).value)
    else
      var header := map["Accept" := "application/json", "Authorization" := authHeader];
      var header' := if verb != "DELETE" then header["Content-Type" := ContentTypeForm] else header;
      Success(Request(m, url, if body.Some? then Some(encode(body.value)) else None, header'))
  }
}
