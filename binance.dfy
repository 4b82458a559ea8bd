/**
 * The `BinanceAPI` client: an error list, the transport's header map (of which
 * only the `X-MBX-APIKEY` entry is touched), and the signed-request pipeline
 * that builds arguments, signs them, attaches the key header for one call,
 * dispatches, classifies the answer and records failures.
 *
 * The outside world enters as parameters: the transport's answer (`Reply`),
 * the clock (`now`, milliseconds), and the two foreign primitives HMAC-SHA256
 * and form-encoding, which the client receives at construction.
 */
module Binance {
  import opened Wrappers
  import opened Php
  import opened Params

  const Host := "https://www.binance.com"
  const AuthHeader := "X-MBX-APIKEY"

  /** The longest span validate_aggTrades allows between startTime and endTime: 24 hours in milliseconds. */
  const MaxAggTradesSpan := 86400000

  const TimeoutText := "504 Status UNKNOWN"
  const SpanTooLongError := "endTime must be no more than 24 hours after startTime"
  const MissingOrderIdError := "orderId or origClientOrderId must be provided"

  function InvalidMethodError(verb: string): string {
    verb + " is not a valid HTTP method"
  }

  function NoPriceError(symbol: string): string {
    "Unable to find price for " + symbol
  }

  // ------------------------------------------------------------ transport

  /**
   * What the transport handed back: a response, with the value `json_decode`
   * gives for its body (`Null` when the body does not decode), or a failure
   * carrying the transport's error text.
   */
  datatype Response = Response(status: int, statusText: string, body: string, decoded: Mixed)
  datatype Reply = Answered(response: Response) | Failed(error: string)

  /** A request as it was handed to the transport, with the headers in force at that moment. */
  datatype Request = Request(verb: string, url: string, args: Args, headers: map<string, string>)

  /** The full URL of an endpoint: the fixed host followed by the path. */
  function MkUrl(path: string): (url: string)
    ensures |url| == |Host| + |path|
    ensures url[..|Host|] == Host && url[|Host|..] == path
  {
    Host + path
  }

  /** Distinct paths give distinct URLs. */
  lemma MkUrlInjective(p: string, q: string)
    ensures MkUrl(p) == MkUrl(q) ==> p == q
  {
    if MkUrl(p) == MkUrl(q) {
      assert p == MkUrl(p)[|Host|..];
    }
  }

  // ----------------------------------------------------------- classifier

  /** A decision: the value returned and the error messages recorded on the way (zero or one). */
  datatype Outcome = Outcome(value: Mixed, errors: seq<string>)

  /** `json_decode` produced something other than NULL. */
  predicate Decodes(resp: Response) {
    !resp.decoded.Null?
  }

  /** The message getBody records for a status other than 200 and 504. */
  function RemoteError(resp: Response): (msg: string)
    ensures Decodes(resp) && HasProp(resp.decoded, "msg") && HasProp(resp.decoded, "code") ==>
              msg == Text(Prop(resp.decoded, "code")) + ": " + Text(Prop(resp.decoded, "msg"))
    ensures !(HasProp(resp.decoded, "msg") && HasProp(resp.decoded, "code")) ==> msg == resp.statusText
  {
    if Decodes(resp) && HasProp(resp.decoded, "msg") && HasProp(resp.decoded, "code") then
      Text(Prop(resp.decoded, "code")) + ": " + Text(Prop(resp.decoded, "msg"))
    else
      resp.statusText
  }

  /** The decision getBody takes for a response. */
  function Classify(resp: Response): (c: Outcome)
    ensures |c.errors| <= 1
    ensures c.errors != [] <==> resp.status != 200 && resp.status != 504
    ensures c.errors != [] ==> c.value == False && c.errors == [RemoteError(resp)]
    ensures resp.status == 200 ==> c.value == if Decodes(resp) then resp.decoded else Str(resp.body)
    ensures resp.status == 504 ==> c.value == Str(TimeoutText) && Truthy(c.value)
  {
    if resp.status == 200 then
      Outcome(if Decodes(resp) then resp.decoded else Str(resp.body), [])
    else if resp.status == 504 then
      Outcome(Str(TimeoutText), [])
    else
      Outcome(False, [RemoteError(resp)])
  }

  /**
   * The decision sendRequest takes: a verb the transport lacks, a transport
   * failure, or the classified response.
   */
  function Dispatch(verb: string, supported: bool, reply: Reply): (c: Outcome)
    ensures |c.errors| <= 1
    ensures !supported ==> c == Outcome(False, [InvalidMethodError(verb)])
    ensures supported && reply.Failed? ==> c == Outcome(False, [reply.error])
    ensures supported && reply.Answered? ==> c == Classify(reply.response)
    ensures c.errors == [] <==> supported && reply.Answered? && reply.response.status in {200, 504}
  {
    if !supported then Outcome(False, [InvalidMethodError(verb)])
    else match reply
      case Failed(e) => Outcome(False, [e])
      case Answered(resp) => Classify(resp)
  }

  /** What `if ($result = ...) return $result; return FALSE;` gives back. */
  function Settle(m: Mixed): (r: Mixed)
    ensures Truthy(m) ==> r == m
    ensures !Truthy(m) ==> r == False
    ensures Truthy(r) == Truthy(m)
  {
    if Truthy(m) then m else False
  }

  // ----------------------------------------------------------- validators

  /** The range check needs integer times, which is what aggTrades declares. */
  predicate IntTime(args: Args, k: Param) {
    IsSet(args, k) ==> Get(args, k).value.Int?
  }

  /** The condition validate_aggTrades rejects: both times set, more than 24 hours apart. */
  predicate SpanTooLong(args: Args)
    requires IntTime(args, StartTime) && IntTime(args, EndTime)
  {
    && IsSet(args, StartTime)
    && IsSet(args, EndTime)
    && Get(args, EndTime).value.n - Get(args, StartTime).value.n > MaxAggTradesSpan
  }

  /** The condition validate_queryOrder rejects: no order identifier of either kind. */
  predicate MissingOrderId(args: Args) {
    !IsSet(args, OrderId) && !IsSet(args, OrigClientOrderId)
  }

  // ------------------------------------------------------ argument builders

  /** The keys an optional argument appends to the request: its own when truthy, none otherwise. */
  function Present(k: Param, v: Mixed): seq<Param> {
    if Truthy(v) then [k] else []
  }

  /** What an optional argument contributes to the values: itself when truthy, nothing otherwise. */
  function Given(v: Mixed): Option<Mixed> {
    if Truthy(v) then Some(v) else None
  }

  /** `if ($v) $args[$k] = $v;`: an optional argument is sent only when it is truthy. */
  function PutIfGiven(a: Args, k: Param, v: Mixed): (r: Args)
    ensures r.values == if Truthy(v) then a.values[k := v] else a.values
    ensures k !in a.values ==> r.order == a.order + Present(k, v)
  {
    if Truthy(v) then Put(a, k, v) else a
  }

  /** `$time` as aggTrades and validate_aggTrades see it: an integer or NULL. */
  predicate IntOrNull(m: Mixed) {
    m.Int? || m.Null?
  }

  /** The limit key aggTrades and candlesticks append: only when the time window is not fully given. */
  function LimitUnlessWindow(startTime: Mixed, endTime: Mixed): seq<Param> {
    if !Truthy(startTime) || !Truthy(endTime) then [Limit] else []
  }

  /**
   * The arguments aggTrades sends: the symbol first, each truthy optional,
   * and the limit exactly when the time window is not fully given.
   */
  function AggTradesArgs(symbol: Mixed, fromId: Mixed, startTime: Mixed, endTime: Mixed, limit: Mixed): (args: Args)
    requires IntOrNull(startTime) && IntOrNull(endTime)
    ensures args.order == [Symbol] + Present(FromId, fromId) + Present(StartTime, startTime) + Present(EndTime, endTime)
                          + LimitUnlessWindow(startTime, endTime)
    ensures args.values.Keys <= {Symbol, FromId, StartTime, EndTime, Limit}
    ensures Get(args, Symbol) == Some(symbol)
    ensures Get(args, FromId) == Given(fromId)
    ensures Get(args, StartTime) == Given(startTime)
    ensures Get(args, EndTime) == Given(endTime)
    ensures Get(args, Limit) == if !Truthy(startTime) || !Truthy(endTime) then Some(limit) else None
    ensures IntTime(args, StartTime) && IntTime(args, EndTime)
  {
    var a := Single(Symbol, symbol);
    var a := PutIfGiven(a, FromId, fromId);
    var a := PutIfGiven(a, StartTime, startTime);
    var a := PutIfGiven(a, EndTime, endTime);
    if !Truthy(startTime) || !Truthy(endTime) then Put(a, Limit, limit) else a
  }

  /** The arguments candlesticks sends: symbol and interval first, then as aggTrades for the window and limit. */
  function CandlesticksArgs(symbol: Mixed, interval: Mixed, limit: Mixed, startTime: Mixed, endTime: Mixed): (args: Args)
    ensures args.order == [Symbol, Interval] + Present(StartTime, startTime) + Present(EndTime, endTime)
                          + LimitUnlessWindow(startTime, endTime)
    ensures args.values.Keys <= {Symbol, Interval, StartTime, EndTime, Limit}
    ensures Get(args, Symbol) == Some(symbol) && Get(args, Interval) == Some(interval)
    ensures Get(args, StartTime) == Given(startTime)
    ensures Get(args, EndTime) == Given(endTime)
    ensures Get(args, Limit) == if !Truthy(startTime) || !Truthy(endTime) then Some(limit) else None
  {
    var a := Args([Symbol, Interval], map[Symbol := symbol, Interval := interval]);
    var a := PutIfGiven(a, StartTime, startTime);
    var a := PutIfGiven(a, EndTime, endTime);
    if !Truthy(startTime) || !Truthy(endTime) then Put(a, Limit, limit) else a
  }

  /** The six fields every order carries, whatever their values, in the order they are sent. */
  function OrderBase(symbol: Mixed, side: Mixed, orderType: Mixed, timeInForce: Mixed, quantity: Mixed, price: Mixed): (args: Args)
    ensures args.order == [Symbol, Side, Type, TimeInForce, Quantity, Price]
    ensures args.values.Keys == {Symbol, Side, Type, TimeInForce, Quantity, Price}
    ensures Get(args, Symbol) == Some(symbol) && Get(args, Side) == Some(side) && Get(args, Type) == Some(orderType)
    ensures Get(args, TimeInForce) == Some(timeInForce) && Get(args, Quantity) == Some(quantity) && Get(args, Price) == Some(price)
  {
    var a := Single(Symbol, symbol);
    var a := Put(a, Side, side);
    var a := Put(a, Type, orderType);
    var a := Put(a, TimeInForce, timeInForce);
    var a := Put(a, Quantity, quantity);
    Put(a, Price, price)
  }

  /** The arguments order sends before signing: the six fields, then each truthy optional. */
  function OrderArgs(symbol: Mixed, side: Mixed, orderType: Mixed, timeInForce: Mixed, quantity: Mixed, price: Mixed,
                     newClientOrderId: Mixed, stopPrice: Mixed, icebergQty: Mixed): (args: Args)
    ensures args.order == [Symbol, Side, Type, TimeInForce, Quantity, Price] + Present(NewClientOrderId, newClientOrderId)
                          + Present(StopPrice, stopPrice) + Present(IcebergQty, icebergQty)
    ensures args.values.Keys <= {Symbol, Side, Type, TimeInForce, Quantity, Price, NewClientOrderId, StopPrice, IcebergQty}
    ensures Get(args, Symbol) == Some(symbol) && Get(args, Side) == Some(side) && Get(args, Type) == Some(orderType)
    ensures Get(args, TimeInForce) == Some(timeInForce) && Get(args, Quantity) == Some(quantity) && Get(args, Price) == Some(price)
    ensures Get(args, NewClientOrderId) == Given(newClientOrderId)
    ensures Get(args, StopPrice) == Given(stopPrice)
    ensures Get(args, IcebergQty) == Given(icebergQty)
  {
    var a := OrderBase(symbol, side, orderType, timeInForce, quantity, price);
    var a := PutIfGiven(a, NewClientOrderId, newClientOrderId);
    var a := PutIfGiven(a, StopPrice, stopPrice);
    PutIfGiven(a, IcebergQty, icebergQty)
  }

  /** The arguments orderTest sends before signing: those of order, then the receive window when truthy. */
  function OrderTestArgs(symbol: Mixed, side: Mixed, orderType: Mixed, timeInForce: Mixed, quantity: Mixed, price: Mixed,
                         newClientOrderId: Mixed, stopPrice: Mixed, icebergQty: Mixed, recvWindow: Mixed): (args: Args)
    ensures var base := OrderArgs(symbol, side, orderType, timeInForce, quantity, price, newClientOrderId, stopPrice, icebergQty);
            && args.order == base.order + Present(RecvWindow, recvWindow)
            && args.values == if Truthy(recvWindow) then base.values[RecvWindow := recvWindow] else base.values
  {
    PutIfGiven(OrderArgs(symbol, side, orderType, timeInForce, quantity, price, newClientOrderId, stopPrice, icebergQty),
               RecvWindow, recvWindow)
  }

  /** The arguments queryOrder sends before signing; the identifiers decide whether it is sent at all. */
  function QueryOrderArgs(symbol: Mixed, orderId: Mixed, origClientOrderId: Mixed, recvWindow: Mixed): (args: Args)
    ensures args.order == [Symbol] + Present(OrderId, orderId) + Present(OrigClientOrderId, origClientOrderId)
                          + Present(RecvWindow, recvWindow)
    ensures args.values.Keys <= {Symbol, OrderId, OrigClientOrderId, RecvWindow}
    ensures Get(args, Symbol) == Some(symbol)
    ensures Get(args, OrderId) == Given(orderId)
    ensures Get(args, OrigClientOrderId) == Given(origClientOrderId)
    ensures Get(args, RecvWindow) == Given(recvWindow)
    ensures MissingOrderId(args) <==> !Truthy(orderId) && !Truthy(origClientOrderId)
  {
    var a := Single(Symbol, symbol);
    var a := PutIfGiven(a, OrderId, orderId);
    var a := PutIfGiven(a, OrigClientOrderId, origClientOrderId);
    PutIfGiven(a, RecvWindow, recvWindow)
  }

  /** The arguments cancelOrder sends before signing. */
  function CancelOrderArgs(symbol: Mixed, orderId: Mixed, origClientOrderId: Mixed, newClientOrderId: Mixed, recvWindow: Mixed): (args: Args)
    ensures args.order == [Symbol] + Present(OrderId, orderId) + Present(OrigClientOrderId, origClientOrderId)
                          + Present(NewClientOrderId, newClientOrderId) + Present(RecvWindow, recvWindow)
    ensures args.values.Keys <= {Symbol, OrderId, OrigClientOrderId, NewClientOrderId, RecvWindow}
    ensures Get(args, Symbol) == Some(symbol)
    ensures Get(args, OrderId) == Given(orderId)
    ensures Get(args, OrigClientOrderId) == Given(origClientOrderId)
    ensures Get(args, NewClientOrderId) == Given(newClientOrderId)
    ensures Get(args, RecvWindow) == Given(recvWindow)
    ensures MissingOrderId(args) <==> !Truthy(orderId) && !Truthy(origClientOrderId)
  {
    var a := Single(Symbol, symbol);
    var a := PutIfGiven(a, OrderId, orderId);
    var a := PutIfGiven(a, OrigClientOrderId, origClientOrderId);
    var a := PutIfGiven(a, NewClientOrderId, newClientOrderId);
    PutIfGiven(a, RecvWindow, recvWindow)
  }

  /** The arguments openOrders sends before signing. */
  function OpenOrdersArgs(symbol: Mixed, recvWindow: Mixed): (args: Args)
    ensures args.order == [Symbol] + Present(RecvWindow, recvWindow)
    ensures Get(args, Symbol) == Some(symbol) && Get(args, RecvWindow) == Given(recvWindow)
    ensures args.values.Keys <= {Symbol, RecvWindow}
  {
    PutIfGiven(Single(Symbol, symbol), RecvWindow, recvWindow)
  }

  /** The arguments allOrders sends before signing. */
  function AllOrdersArgs(symbol: Mixed, orderId: Mixed, limit: Mixed, recvWindow: Mixed): (args: Args)
    ensures args.order == [Symbol] + Present(OrderId, orderId) + Present(Limit, limit) + Present(RecvWindow, recvWindow)
    ensures args.values.Keys <= {Symbol, OrderId, Limit, RecvWindow}
    ensures Get(args, Symbol) == Some(symbol)
    ensures Get(args, OrderId) == Given(orderId)
    ensures Get(args, Limit) == Given(limit)
    ensures Get(args, RecvWindow) == Given(recvWindow)
  {
    var a := Single(Symbol, symbol);
    var a := PutIfGiven(a, OrderId, orderId);
    var a := PutIfGiven(a, Limit, limit);
    PutIfGiven(a, RecvWindow, recvWindow)
  }

  /** The arguments accountInfo sends before signing: at most the receive window. */
  function AccountInfoArgs(recvWindow: Mixed): (args: Args)
    ensures args.order == Present(RecvWindow, recvWindow)
    ensures Get(args, RecvWindow) == Given(recvWindow)
    ensures args.values.Keys <= {RecvWindow}
  {
    PutIfGiven(EmptyArgs, RecvWindow, recvWindow)
  }

  /** The arguments myTrades sends before signing. */
  function MyTradesArgs(symbol: Mixed, limit: Mixed, fromId: Mixed, recvWindow: Mixed): (args: Args)
    ensures args.order == [Symbol] + Present(FromId, fromId) + Present(Limit, limit) + Present(RecvWindow, recvWindow)
    ensures args.values.Keys <= {Symbol, FromId, Limit, RecvWindow}
    ensures Get(args, Symbol) == Some(symbol)
    ensures Get(args, FromId) == Given(fromId)
    ensures Get(args, Limit) == Given(limit)
    ensures Get(args, RecvWindow) == Given(recvWindow)
  {
    var a := Single(Symbol, symbol);
    var a := PutIfGiven(a, FromId, fromId);
    var a := PutIfGiven(a, Limit, limit);
    PutIfGiven(a, RecvWindow, recvWindow)
  }

  // ------------------------------------------------- well-formed builders

  /** Assigning only truthy values keeps an argument list free of repeated keys. */
  lemma PutIfGivenWf(a: Args, k: Param, v: Mixed)
    requires Wf(a)
    ensures Wf(PutIfGiven(a, k, v))
  {
    if Truthy(v) {
      PutWf(a, k, v);
    }
  }

  /** No builder lists a key twice: each is a chain of assignments from a well-formed start. */
  lemma AggTradesArgsWf(symbol: Mixed, fromId: Mixed, startTime: Mixed, endTime: Mixed, limit: Mixed)
    requires IntOrNull(startTime) && IntOrNull(endTime)
    ensures Wf(AggTradesArgs(symbol, fromId, startTime, endTime, limit))
  {
    var a := Single(Symbol, symbol);
    SingleWf(Symbol, symbol);
    var b := PutIfGiven(a, FromId, fromId);
    PutIfGivenWf(a, FromId, fromId);
    var c := PutIfGiven(b, StartTime, startTime);
    PutIfGivenWf(b, StartTime, startTime);
    var d := PutIfGiven(c, EndTime, endTime);
    PutIfGivenWf(c, EndTime, endTime);
    PutWf(d, Limit, limit);
  }

  lemma CandlesticksArgsWf(symbol: Mixed, interval: Mixed, limit: Mixed, startTime: Mixed, endTime: Mixed)
    ensures Wf(CandlesticksArgs(symbol, interval, limit, startTime, endTime))
  {
    var a := Args([Symbol, Interval], map[Symbol := symbol, Interval := interval]);
    var b := PutIfGiven(a, StartTime, startTime);
    PutIfGivenWf(a, StartTime, startTime);
    var c := PutIfGiven(b, EndTime, endTime);
    PutIfGivenWf(b, EndTime, endTime);
    PutWf(c, Limit, limit);
  }

  lemma OrderBaseWf(symbol: Mixed, side: Mixed, orderType: Mixed, timeInForce: Mixed, quantity: Mixed, price: Mixed)
    ensures Wf(OrderBase(symbol, side, orderType, timeInForce, quantity, price))
  {
    var a := Single(Symbol, symbol);
    SingleWf(Symbol, symbol);
    var b := Put(a, Side, side);
    PutWf(a, Side, side);
    var c := Put(b, Type, orderType);
    PutWf(b, Type, orderType);
    var d := Put(c, TimeInForce, timeInForce);
    PutWf(c, TimeInForce, timeInForce);
    var e := Put(d, Quantity, quantity);
    PutWf(d, Quantity, quantity);
    PutWf(e, Price, price);
  }

  lemma OrderArgsWf(symbol: Mixed, side: Mixed, orderType: Mixed, timeInForce: Mixed, quantity: Mixed, price: Mixed,
                    newClientOrderId: Mixed, stopPrice: Mixed, icebergQty: Mixed)
    ensures Wf(OrderArgs(symbol, side, orderType, timeInForce, quantity, price, newClientOrderId, stopPrice, icebergQty))
  {
    var base := OrderBase(symbol, side, orderType, timeInForce, quantity, price);
    OrderBaseWf(symbol, side, orderType, timeInForce, quantity, price);
    var b := PutIfGiven(base, NewClientOrderId, newClientOrderId);
    PutIfGivenWf(base, NewClientOrderId, newClientOrderId);
    var c := PutIfGiven(b, StopPrice, stopPrice);
    PutIfGivenWf(b, StopPrice, stopPrice);
    PutIfGivenWf(c, IcebergQty, icebergQty);
  }

  lemma OrderTestArgsWf(symbol: Mixed, side: Mixed, orderType: Mixed, timeInForce: Mixed, quantity: Mixed, price: Mixed,
                        newClientOrderId: Mixed, stopPrice: Mixed, icebergQty: Mixed, recvWindow: Mixed)
    ensures Wf(OrderTestArgs(symbol, side, orderType, timeInForce, quantity, price, newClientOrderId, stopPrice, icebergQty,
                             recvWindow))
  {
    OrderArgsWf(symbol, side, orderType, timeInForce, quantity, price, newClientOrderId, stopPrice, icebergQty);
    PutIfGivenWf(OrderArgs(symbol, side, orderType, timeInForce, quantity, price, newClientOrderId, stopPrice, icebergQty),
                 RecvWindow, recvWindow);
  }

  lemma QueryOrderArgsWf(symbol: Mixed, orderId: Mixed, origClientOrderId: Mixed, recvWindow: Mixed)
    ensures Wf(QueryOrderArgs(symbol, orderId, origClientOrderId, recvWindow))
  {
    var a := Single(Symbol, symbol);
    SingleWf(Symbol, symbol);
    var b := PutIfGiven(a, OrderId, orderId);
    PutIfGivenWf(a, OrderId, orderId);
    var c := PutIfGiven(b, OrigClientOrderId, origClientOrderId);
    PutIfGivenWf(b, OrigClientOrderId, origClientOrderId);
    PutIfGivenWf(c, RecvWindow, recvWindow);
  }

  lemma CancelOrderArgsWf(symbol: Mixed, orderId: Mixed, origClientOrderId: Mixed, newClientOrderId: Mixed, recvWindow: Mixed)
    ensures Wf(CancelOrderArgs(symbol, orderId, origClientOrderId, newClientOrderId, recvWindow))
  {
    var a := Single(Symbol, symbol);
    SingleWf(Symbol, symbol);
    var b := PutIfGiven(a, OrderId, orderId);
    PutIfGivenWf(a, OrderId, orderId);
    var c := PutIfGiven(b, OrigClientOrderId, origClientOrderId);
    PutIfGivenWf(b, OrigClientOrderId, origClientOrderId);
    var d := PutIfGiven(c, NewClientOrderId, newClientOrderId);
    PutIfGivenWf(c, NewClientOrderId, newClientOrderId);
    PutIfGivenWf(d, RecvWindow, recvWindow);
  }

  lemma OpenOrdersArgsWf(symbol: Mixed, recvWindow: Mixed)
    ensures Wf(OpenOrdersArgs(symbol, recvWindow))
  {
    SingleWf(Symbol, symbol);
    PutIfGivenWf(Single(Symbol, symbol), RecvWindow, recvWindow);
  }

  lemma AllOrdersArgsWf(symbol: Mixed, orderId: Mixed, limit: Mixed, recvWindow: Mixed)
    ensures Wf(AllOrdersArgs(symbol, orderId, limit, recvWindow))
  {
    var a := Single(Symbol, symbol);
    SingleWf(Symbol, symbol);
    var b := PutIfGiven(a, OrderId, orderId);
    PutIfGivenWf(a, OrderId, orderId);
    var c := PutIfGiven(b, Limit, limit);
    PutIfGivenWf(b, Limit, limit);
    PutIfGivenWf(c, RecvWindow, recvWindow);
  }

  lemma AccountInfoArgsWf(recvWindow: Mixed)
    ensures Wf(AccountInfoArgs(recvWindow))
  {
    PutIfGivenWf(EmptyArgs, RecvWindow, recvWindow);
  }

  lemma MyTradesArgsWf(symbol: Mixed, limit: Mixed, fromId: Mixed, recvWindow: Mixed)
    ensures Wf(MyTradesArgs(symbol, limit, fromId, recvWindow))
  {
    var a := Single(Symbol, symbol);
    SingleWf(Symbol, symbol);
    var b := PutIfGiven(a, FromId, fromId);
    PutIfGivenWf(a, FromId, fromId);
    var c := PutIfGiven(b, Limit, limit);
    PutIfGivenWf(b, Limit, limit);
    PutIfGivenWf(c, RecvWindow, recvWindow);
  }

  /**
   * The window check aggTrades applies, in terms of its own arguments: it
   * rejects only when both times are given (non-zero) and lie more than 24
   * hours apart; a zero time drops out of the arguments and disables it.
   */
  lemma AggTradesSpanRule(symbol: Mixed, fromId: Mixed, startTime: Mixed, endTime: Mixed, limit: Mixed)
    requires IntOrNull(startTime) && IntOrNull(endTime)
    ensures SpanTooLong(AggTradesArgs(symbol, fromId, startTime, endTime, limit)) <==>
              && Truthy(startTime) && Truthy(endTime)
              && endTime.n - startTime.n > MaxAggTradesSpan
  {
  }

  /** Whenever the window check runs with both times, the limit is left out of the request. */
  lemma AggTradesLimitExcludesSpanCheck(symbol: Mixed, fromId: Mixed, startTime: Mixed, endTime: Mixed, limit: Mixed)
    requires IntOrNull(startTime) && IntOrNull(endTime)
    ensures var args := AggTradesArgs(symbol, fromId, startTime, endTime, limit);
            HasKey(args, Limit) <==> !(IsSet(args, StartTime) && IsSet(args, EndTime))
  {
  }

  // --------------------------------------------------------- price lookup

  /** Whether a ticker entry's `symbol` equals `symbol` once both are upper-cased. */
  predicate Matches(entry: Mixed, symbol: string) {
    SameIgnoringCase(Text(Prop(entry, "symbol")), symbol)
  }

  /** The price of the first entry whose symbol matches, if any does. */
  function PriceOf(entries: seq<Mixed>, symbol: string): (r: Option<Mixed>)
    ensures r.None? <==> forall i :: 0 <= i < |entries| ==> !Matches(entries[i], symbol)
  {
    if entries == [] then None
    else if Matches(entries[0], symbol) then Some(Prop(entries[0], "price"))
    else
      var r := PriceOf(entries[1..], symbol);
      assert forall i :: 1 <= i < |entries| ==> entries[i] == entries[1..][i - 1];
      r
  }

  /** When entry `i` is the first that matches, its price is the one found. */
  lemma {:induction false} PriceOfFirstMatch(entries: seq<Mixed>, symbol: string, i: nat)
    requires i < |entries| && Matches(entries[i], symbol)
    requires forall j :: 0 <= j < i ==> !Matches(entries[j], symbol)
    ensures PriceOf(entries, symbol) == Some(Prop(entries[i], "price"))
  {
    if i > 0 {
      PriceOfFirstMatch(entries[1..], symbol, i - 1);
    }
  }

  // ---------------------------------------------------------------- client

  /** The transport object: its header map and the HTTP verbs it implements (lower case). */
  class Curl {
    var headers: map<string, string>
    const verbs: set<string>

    constructor (verbs: set<string>)
      ensures this.verbs == verbs && headers == map[]
    {
      this.verbs := verbs;
      headers := map[];
    }

    /** `method_exists($curl, $verb)`: PHP looks method names up case-insensitively. */
    predicate Supports(verb: string) {
      Lower(verb) in verbs
    }
  }

  class BinanceApi {
    const curl: Curl
    var errors: seq<string>
    const key: string
    const secret: string
    /** `hash_hmac('SHA256', data, key)`, taken as `hmac(key, data)`. */
    const hmac: (string, string) -> string
    /** `http_build_query`. */
    const encode: Args -> string

    /** Between calls no API key is left on the transport. */
    ghost predicate Valid()
      reads this, curl
    {
      AuthHeader !in curl.headers
    }

    constructor (key: string, secret: string, verbs: set<string>,
                 hmac: (string, string) -> string, encode: Args -> string)
      ensures fresh(curl) && curl.verbs == verbs
      ensures curl.headers == map["Content-Type" := "application/json"]
      ensures errors == []
      ensures this.key == key && this.secret == secret && this.hmac == hmac && this.encode == encode
      ensures Valid()
    {
      curl := new Curl(verbs);
      this.key, this.secret := key, secret;
      this.hmac, this.encode := hmac, encode;
      errors := [];
      new;
      curl.headers := curl.headers["Content-Type" := "application/json"];
    }

    // ---------------------------------------------------------- error sink

    method RaiseError(msg: string)
      modifies this
      ensures errors == old(errors) + [msg]
    {
      errors := errors + [msg];
    }

    method ResetErrors()
      modifies this
      ensures errors == []
    {
      errors := [];
    }

    /** Hands back every message recorded since the last drain, oldest first, and empties the list. */
    method GetErrors() returns (drained: seq<string>)
      modifies this
      ensures drained == old(errors) && errors == []
      ensures old(Valid()) ==> Valid()
    {
      drained := errors;
      ResetErrors();
    }

    // ---------------------------------------------------------- auth header

    method SetAuth()
      modifies curl
      ensures curl.headers == old(curl.headers)[AuthHeader := key]
    {
      curl.headers := curl.headers[AuthHeader := key];
    }

    method ClearAuth()
      modifies curl
      ensures curl.headers == old(curl.headers) - {AuthHeader}
    {
      if AuthHeader in curl.headers {
        curl.headers := curl.headers - {AuthHeader};
      }
    }

    // --------------------------------------------------------------- signer

    /** The arguments after sign(): the timestamp put first, then the signature over everything before it. */
    function Signed(args: Args, now: int): (signed: Args)
      ensures Get(signed, Timestamp) == Some(Int(now))
      ensures forall k :: k != Timestamp && k != Signature ==> Get(signed, k) == Get(args, k)
      ensures Get(signed, Signature) == Some(Str(hmac(secret, encode(Put(args, Timestamp, Int(now))))))
      ensures !HasKey(args, Signature) ==> signed.order == Put(args, Timestamp, Int(now)).order + [Signature]
    {
      var stamped := Put(args, Timestamp, Int(now));
      Put(stamped, Signature, Str(hmac(secret, encode(stamped))))
    }

    /**
     * A signed argument list: its last key is the signature, and that is the
     * HMAC of the encoding of everything before it, timestamp included.
     */
    ghost predicate SignatureValid(signed: Args) {
      && |signed.order| > 0
      && signed.order[|signed.order| - 1] == Signature
      && Signature in signed.values
      && var body := Args(signed.order[..|signed.order| - 1], signed.values - {Signature});
         && HasKey(body, Timestamp)
         && signed.values[Signature] == Str(hmac(secret, encode(body)))
    }

    /** What sign() produces verifies, whenever the caller had not put a signature in already. */
    lemma SignedIsValid(args: Args, now: int)
      requires !HasKey(args, Signature)
      ensures SignatureValid(Signed(args, now))
    {
      var stamped := Put(args, Timestamp, Int(now));
      var signed := Signed(args, now);
      assert Signature !in stamped.values by {
        assert Get(stamped, Signature) == Get(args, Signature);
      }
      assert signed.values - {Signature} == stamped.values;
      assert signed.order[..|signed.order| - 1] == stamped.order;
    }

    /** Signing keeps a well-formed argument list well formed: no key is listed twice. */
    lemma SignedWf(args: Args, now: int)
      requires Wf(args)
      ensures Wf(Signed(args, now))
    {
      var stamped := Put(args, Timestamp, Int(now));
      PutWf(args, Timestamp, Int(now));
      PutWf(stamped, Signature, Str(hmac(secret, encode(stamped))));
    }

    /** sign(): timestamp first, then the signature computed over the stamped arguments. */
    method Sign(args: Args, now: int) returns (signed: Args)
      ensures signed == Signed(args, now)
    {
      signed := Put(args, Timestamp, Int(now));
      var query := encode(signed);
      var signature := hmac(secret, query);
      signed := Put(signed, Signature, Str(signature));
    }

    // ------------------------------------------------------------- pipeline

    /** getBody(): returns the classified value and records its error, if any. */
    method GetBody(resp: Response) returns (value: Mixed)
      modifies this
      ensures value == Classify(resp).value
      ensures errors == old(errors) + Classify(resp).errors
    {
      if resp.status == 200 {
        if Decodes(resp) {
          return resp.decoded;
        } else {
          return Str(resp.body);
        }
      } else if resp.status == 504 {
        return Str(TimeoutText);
      } else {
        if Decodes(resp) {
          if HasProp(resp.decoded, "msg") && HasProp(resp.decoded, "code") {
            RaiseError(Text(Prop(resp.decoded, "code")) + ": " + Text(Prop(resp.decoded, "msg")));
          } else {
            RaiseError(resp.statusText);
          }
        } else {
          RaiseError(resp.statusText);
        }
      }
      return False;
    }

    /**
     * sendRequest(): dispatches with the headers in force, clears the key
     * header on every exit path, and returns the classified value.
     */
    method SendRequest(verb: string, uri: string, args: Args, reply: Reply) returns (value: Mixed, ghost sent: Option<Request>)
      modifies this, curl
      ensures curl.headers == old(curl.headers) - {AuthHeader}
      ensures value == Dispatch(verb, curl.Supports(verb), reply).value
      ensures errors == old(errors) + Dispatch(verb, curl.Supports(verb), reply).errors
      ensures sent == if curl.Supports(verb) then Some(Request(verb, MkUrl(uri), args, old(curl.headers))) else None
    {
      if curl.Supports(verb) {
        sent := Some(Request(verb, MkUrl(uri), args, curl.headers));
        match reply
        case Answered(resp) =>
          ClearAuth();
          value := GetBody(resp);
          return;
        case Failed(e) =>
          RaiseError(e);
      } else {
        sent := None;
        RaiseError(InvalidMethodError(verb));
      }
      ClearAuth();
      value := False;
    }

    /**
     * The tail every signed endpoint shares: sign the arguments, attach the key
     * header, send, and turn a falsy result into FALSE.
     */
    method SignedRequest(verb: string, path: string, args: Args, now: int, reply: Reply) returns (value: Mixed, ghost sent: Option<Request>)
      modifies this, curl
      ensures curl.headers == old(curl.headers) - {AuthHeader}
      ensures value == Settle(Dispatch(verb, curl.Supports(verb), reply).value)
      ensures errors == old(errors) + Dispatch(verb, curl.Supports(verb), reply).errors
      ensures sent == if curl.Supports(verb)
                      then Some(Request(verb, MkUrl(path), Signed(args, now), old(curl.headers)[AuthHeader := key]))
                      else None
      ensures Wf(args) && sent.Some? ==> Wf(sent.value.args)
    {
      var signed := Sign(args, now);
      SetAuth();
      var result;
      result, sent := SendRequest(verb, path, signed, reply);
      value := Settle(result);
      if Wf(args) && sent.Some? {
        SignedWf(args, now);
      }
    }

    // ----------------------------------------------------- public endpoints

    /** ping(): TRUE iff the request yields a truthy result. */
    method Ping(nameonly reply: Reply) returns (ok: bool, ghost sent: Option<Request>)
      requires Valid()
      modifies this, curl
      ensures Valid() && curl.headers == old(curl.headers)
      ensures ok == Truthy(Dispatch("get", curl.Supports("get"), reply).value)
      ensures errors == old(errors) + Dispatch("get", curl.Supports("get"), reply).errors
      ensures sent == if curl.Supports("get")
                      then Some(Request("get", MkUrl("/api/v1/ping"), EmptyArgs, old(curl.headers)))
                      else None
    {
      var result;
      result, sent := SendRequest("get", "/api/v1/ping", EmptyArgs, reply);
      ok := Truthy(result);
    }

    /** validate_aggTrades(): rejects a window over 24 hours, recording one error. */
    method ValidateAggTrades(args: Args) returns (ok: bool)
      requires IntTime(args, StartTime) && IntTime(args, EndTime)
      modifies this
      ensures ok == !SpanTooLong(args)
      ensures errors == old(errors) + if ok then [] else [SpanTooLongError]
    {
      if IsSet(args, StartTime) && IsSet(args, EndTime)
         && Get(args, EndTime).value.n - Get(args, StartTime).value.n > MaxAggTradesSpan
      {
        RaiseError(SpanTooLongError);
        return false;
      }
      return true;
    }

    method AggTrades(symbol: Mixed, fromId: Mixed := Null, startTime: Mixed := Null, endTime: Mixed := Null,
                     limit: Mixed := Int(500), nameonly reply: Reply)
      returns (value: Mixed, ghost sent: Option<Request>)
      requires IntOrNull(startTime) && IntOrNull(endTime)
      requires Valid()
      modifies this, curl
      ensures var args := AggTradesArgs(symbol, fromId, startTime, endTime, limit);
              var d := Dispatch("get", curl.Supports("get"), reply);
              if SpanTooLong(args) then
                && value == False && errors == old(errors) + [SpanTooLongError]
                && Valid() && curl.headers == old(curl.headers) && sent == None
              else
                && value == d.value && errors == old(errors) + d.errors
                && Valid() && curl.headers == old(curl.headers)
                && sent == (if curl.Supports("get")
                            then Some(Request("get", MkUrl("/api/v1/aggTrades"), args, old(curl.headers)))
                            else None)
    {
      var args := AggTradesArgs(symbol, fromId, startTime, endTime, limit);
      var ok := ValidateAggTrades(args);
      if !ok {
        return False, None;
      }
      value, sent := SendRequest("get", "/api/v1/aggTrades", args, reply);
    }

    method Candlesticks(symbol: Mixed, interval: Mixed, limit: Mixed := Null, startTime: Mixed := Null,
                        endTime: Mixed := Null, nameonly reply: Reply)
      returns (value: Mixed, ghost sent: Option<Request>)
      requires Valid()
      modifies this, curl
      ensures var d := Dispatch("get", curl.Supports("get"), reply);
              && value == d.value && errors == old(errors) + d.errors
              && Valid() && curl.headers == old(curl.headers)
              && sent == if curl.Supports("get")
                         then Some(Request("get", MkUrl("/api/v1/klines"),
                                           CandlesticksArgs(symbol, interval, limit, startTime, endTime), old(curl.headers)))
                         else None
    {
      var args := CandlesticksArgs(symbol, interval, limit, startTime, endTime);
      // validate_candlesticks accepts every argument list.
      value, sent := SendRequest("get", "/api/v1/klines", args, reply);
    }

    method AllPrices(nameonly reply: Reply) returns (value: Mixed, ghost sent: Option<Request>)
      requires Valid()
      modifies this, curl
      ensures Valid() && curl.headers == old(curl.headers)
      ensures value == Dispatch("get", curl.Supports("get"), reply).value
      ensures errors == old(errors) + Dispatch("get", curl.Supports("get"), reply).errors
      ensures sent == if curl.Supports("get")
                      then Some(Request("get", MkUrl("/api/v1/ticker/allPrices"), EmptyArgs, old(curl.headers)))
                      else None
    {
      value, sent := SendRequest("get", "/api/v1/ticker/allPrices", EmptyArgs, reply);
    }

    /**
     * getPrice(): the price of the first listed ticker whose symbol matches
     * case-insensitively; otherwise FALSE and one more error.
     */
    method GetPrice(symbol: string, nameonly reply: Reply) returns (price: Mixed, ghost sent: Option<Request>)
      requires Valid()
      modifies this, curl
      ensures Valid() && curl.headers == old(curl.headers)
      ensures var listing := Dispatch("get", curl.Supports("get"), reply);
              var found := if Truthy(listing.value) then PriceOf(Members(listing.value), symbol) else None;
              && price == (if found.Some? then found.value else False)
              && errors == old(errors) + listing.errors + (if found.Some? then [] else [NoPriceError(symbol)])
      ensures sent == if curl.Supports("get")
                      then Some(Request("get", MkUrl("/api/v1/ticker/allPrices"), EmptyArgs, old(curl.headers)))
                      else None
    {
      var prices;
      prices, sent := AllPrices(reply := reply);
      if Truthy(prices) {
        var entries := Members(prices);
        var i := 0;
        while i < |entries|
          invariant 0 <= i <= |entries|
          invariant PriceOf(entries, symbol) == PriceOf(entries[i..], symbol)
        {
          if Upper(Text(Prop(entries[i], "symbol"))) == Upper(symbol) {
            return Prop(entries[i], "price"), sent;
          }
          assert entries[i..][1..] == entries[i + 1..];
          i := i + 1;
        }
      }
      RaiseError(NoPriceError(symbol));
      price := False;
    }

    // --------------------------------------------------- signed endpoints

    method Order(symbol: Mixed, side: Mixed, orderType: Mixed, timeInForce: Mixed, quantity: Mixed, price: Mixed,
                 newClientOrderId: Mixed := Null, stopPrice: Mixed := Null, icebergQty: Mixed := Null,
                 nameonly now: int, nameonly reply: Reply)
      returns (value: Mixed, ghost sent: Option<Request>)
      requires Valid()
      modifies this, curl
      ensures sent.Some? ==> Wf(sent.value.args)
      ensures var d := Dispatch("post", curl.Supports("post"), reply);
              var args := OrderArgs(symbol, side, orderType, timeInForce, quantity, price, newClientOrderId, stopPrice, icebergQty);
              && value == Settle(d.value) && errors == old(errors) + d.errors
              && Valid() && curl.headers == old(curl.headers)
              && sent == if curl.Supports("post")
                         then Some(Request("post", MkUrl("/api/v3/order"), Signed(args, now), old(curl.headers)[AuthHeader := key]))
                         else None
    {
      var args := OrderArgs(symbol, side, orderType, timeInForce, quantity, price, newClientOrderId, stopPrice, icebergQty);
      // validate_order accepts every argument list.
      value, sent := SignedRequest("post", "/api/v3/order", args, now, reply);
      if sent.Some? {
        assert Wf(sent.value.args) by {
          OrderArgsWf(symbol, side, orderType, timeInForce, quantity, price, newClientOrderId, stopPrice, icebergQty);
        }
      }
    }

    method OrderTest(symbol: Mixed, side: Mixed, orderType: Mixed, timeInForce: Mixed, quantity: Mixed, price: Mixed,
                     newClientOrderId: Mixed := Null, stopPrice: Mixed := Null, icebergQty: Mixed := Null,
                     recvWindow: Mixed := Int(5000), nameonly now: int, nameonly reply: Reply)
      returns (value: Mixed, ghost sent: Option<Request>)
      requires Valid()
      modifies this, curl
      ensures sent.Some? ==> Wf(sent.value.args)
      ensures var d := Dispatch("post", curl.Supports("post"), reply);
              var args := OrderTestArgs(symbol, side, orderType, timeInForce, quantity, price, newClientOrderId, stopPrice, icebergQty,
                                                 recvWindow);
              && value == Settle(d.value) && errors == old(errors) + d.errors
              && Valid() && curl.headers == old(curl.headers)
              && sent == if curl.Supports("post")
                         then Some(Request("post", MkUrl("/api/v3/order/test"), Signed(args, now), old(curl.headers)[AuthHeader := key]))
                         else None
    {
      var args := OrderTestArgs(symbol, side, orderType, timeInForce, quantity, price, newClientOrderId, stopPrice, icebergQty,
                                recvWindow);
      value, sent := SignedRequest("post", "/api/v3/order/test", args, now, reply);
      if sent.Some? {
        assert Wf(sent.value.args) by {
          OrderTestArgsWf(symbol, side, orderType, timeInForce, quantity, price, newClientOrderId, stopPrice, icebergQty,
                                recvWindow);
        }
      }
    }

    /** validate_queryOrder(): demands an order identifier, recording one error when there is none. */
    method ValidateQueryOrder(args: Args) returns (ok: bool)
      modifies this
      ensures ok == !MissingOrderId(args)
      ensures old(Valid()) ==> Valid()
      ensures errors == old(errors) + if ok then [] else [MissingOrderIdError]
    {
      if !IsSet(args, OrderId) && !IsSet(args, OrigClientOrderId) {
        RaiseError(MissingOrderIdError);
        return false;
      }
      return true;
    }

    method QueryOrder(symbol: Mixed, orderId: Mixed := Null, origClientOrderId: Mixed := Null,
                      recvWindow: Mixed := Int(5000), nameonly now: int, nameonly reply: Reply)
      returns (value: Mixed, ghost sent: Option<Request>)
      requires Valid()
      modifies this, curl
      ensures sent.Some? ==> Wf(sent.value.args)
      ensures var d := Dispatch("get", curl.Supports("get"), reply);
              if !Truthy(orderId) && !Truthy(origClientOrderId) then
                && value == False && errors == old(errors) + [MissingOrderIdError]
                && Valid() && curl.headers == old(curl.headers) && sent == None
              else
                && value == Settle(d.value) && errors == old(errors) + d.errors
                && Valid() && curl.headers == old(curl.headers)
                && sent == if curl.Supports("get")
                           then Some(Request("get", MkUrl("/api/v3/order"),
                                             Signed(QueryOrderArgs(symbol, orderId, origClientOrderId, recvWindow), now),
                                             old(curl.headers)[AuthHeader := key]))
                           else None
    {
      var args := QueryOrderArgs(symbol, orderId, origClientOrderId, recvWindow);
      var ok := ValidateQueryOrder(args);
      if !ok {
        return False, None;
      }
      value, sent := SignedRequest("get", "/api/v3/order", args, now, reply);
      if sent.Some? {
        assert Wf(sent.value.args) by {
          QueryOrderArgsWf(symbol, orderId, origClientOrderId, recvWindow);
        }
      }
    }

    method CancelOrder(symbol: Mixed, orderId: Mixed := Null, origClientOrderId: Mixed := Null,
                       newClientOrderId: Mixed := Null, recvWindow: Mixed := Int(5000),
                       nameonly now: int, nameonly reply: Reply)
      returns (value: Mixed, ghost sent: Option<Request>)
      requires Valid()
      modifies this, curl
      ensures sent.Some? ==> Wf(sent.value.args)
      ensures var d := Dispatch("delete", curl.Supports("delete"), reply);
              if !Truthy(orderId) && !Truthy(origClientOrderId) then
                && value == False && errors == old(errors) + [MissingOrderIdError]
                && Valid() && curl.headers == old(curl.headers) && sent == None
              else
                && value == Settle(d.value) && errors == old(errors) + d.errors
                && Valid() && curl.headers == old(curl.headers)
                && sent == if curl.Supports("delete")
                           then Some(Request("delete", MkUrl("/api/v3/order"),
                                             Signed(CancelOrderArgs(symbol, orderId, origClientOrderId, newClientOrderId, recvWindow), now),
                                             old(curl.headers)[AuthHeader := key]))
                           else None
    {
      var args := CancelOrderArgs(symbol, orderId, origClientOrderId, newClientOrderId, recvWindow);
      var ok := ValidateQueryOrder(args);
      if !ok {
        return False, None;
      }
      value, sent := SignedRequest("delete", "/api/v3/order", args, now, reply);
      if sent.Some? {
        assert Wf(sent.value.args) by {
          CancelOrderArgsWf(symbol, orderId, origClientOrderId, newClientOrderId, recvWindow);
        }
      }
    }

    method OpenOrders(symbol: Mixed, recvWindow: Mixed := Int(5000), nameonly now: int, nameonly reply: Reply)
      returns (value: Mixed, ghost sent: Option<Request>)
      requires Valid()
      modifies this, curl
      ensures sent.Some? ==> Wf(sent.value.args)
      ensures var d := Dispatch("get", curl.Supports("get"), reply);
              && value == Settle(d.value) && errors == old(errors) + d.errors
              && Valid() && curl.headers == old(curl.headers)
              && sent == if curl.Supports("get")
                         then Some(Request("get", MkUrl("/api/v3/openOrders"),
                                           Signed(OpenOrdersArgs(symbol, recvWindow), now),
                                           old(curl.headers)[AuthHeader := key]))
                         else None
    {
      var args := OpenOrdersArgs(symbol, recvWindow);
      value, sent := SignedRequest("get", "/api/v3/openOrders", args, now, reply);
      if sent.Some? {
        assert Wf(sent.value.args) by {
          OpenOrdersArgsWf(symbol, recvWindow);
        }
      }
    }

    method AllOrders(symbol: Mixed, orderId: Mixed := Null, limit: Mixed := Int(500), recvWindow: Mixed := Int(5000),
                     nameonly now: int, nameonly reply: Reply)
      returns (value: Mixed, ghost sent: Option<Request>)
      requires Valid()
      modifies this, curl
      ensures sent.Some? ==> Wf(sent.value.args)
      ensures var d := Dispatch("get", curl.Supports("get"), reply);
              && value == Settle(d.value) && errors == old(errors) + d.errors
              && Valid() && curl.headers == old(curl.headers)
              && sent == if curl.Supports("get")
                         then Some(Request("get", MkUrl("/api/v3/allOrders"),
                                           Signed(AllOrdersArgs(symbol, orderId, limit, recvWindow), now),
                                           old(curl.headers)[AuthHeader := key]))
                         else None
    {
      var args := AllOrdersArgs(symbol, orderId, limit, recvWindow);
      value, sent := SignedRequest("get", "/api/v3/allOrders", args, now, reply);
      if sent.Some? {
        assert Wf(sent.value.args) by {
          AllOrdersArgsWf(symbol, orderId, limit, recvWindow);
        }
      }
    }

    method AccountInfo(recvWindow: Mixed := Int(5000), nameonly now: int, nameonly reply: Reply)
      returns (value: Mixed, ghost sent: Option<Request>)
      requires Valid()
      modifies this, curl
      ensures sent.Some? ==> Wf(sent.value.args)
      ensures var d := Dispatch("get", curl.Supports("get"), reply);
              && value == Settle(d.value) && errors == old(errors) + d.errors
              && Valid() && curl.headers == old(curl.headers)
              && sent == if curl.Supports("get")
                         then Some(Request("get", MkUrl("/api/v3/account"),
                                           Signed(AccountInfoArgs(recvWindow), now),
                                           old(curl.headers)[AuthHeader := key]))
                         else None
    {
      var args := AccountInfoArgs(recvWindow);
      value, sent := SignedRequest("get", "/api/v3/account", args, now, reply);
      if sent.Some? {
        assert Wf(sent.value.args) by {
          AccountInfoArgsWf(recvWindow);
        }
      }
    }

    method MyTrades(symbol: Mixed, limit: Mixed := Int(500), fromId: Mixed := Null, recvWindow: Mixed := Int(5000),
                    nameonly now: int, nameonly reply: Reply)
      returns (value: Mixed, ghost sent: Option<Request>)
      requires Valid()
      modifies this, curl
      ensures sent.Some? ==> Wf(sent.value.args)
      ensures var d := Dispatch("get", curl.Supports("get"), reply);
              && value == Settle(d.value) && errors == old(errors) + d.errors
              && Valid() && curl.headers == old(curl.headers)
              && sent == if curl.Supports("get")
                         then Some(Request("get", MkUrl("/api/v3/myTrades"),
                                           Signed(MyTradesArgs(symbol, limit, fromId, recvWindow), now),
                                           old(curl.headers)[AuthHeader := key]))
                         else None
    {
      var args := MyTradesArgs(symbol, limit, fromId, recvWindow);
      value, sent := SignedRequest("get", "/api/v3/myTrades", args, now, reply);
      if sent.Some? {
        assert Wf(sent.value.args) by {
          MyTradesArgsWf(symbol, limit, fromId, recvWindow);
        }
      }
    }
  }
}
