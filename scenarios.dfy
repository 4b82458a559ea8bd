/**
 * Whole calls on a fresh client, with the transport's answer fixed. Each
 * scenario pins down what a caller of the PHP client observes: the return
 * value, the messages getErrors() hands back, and the headers left behind.
 */
module Scenarios {
  import opened Wrappers
  import opened Php
  import opened Params
  import opened Binance

  /** The verbs the cURL wrapper implements. */
  const Verbs: set<string> := {"get", "post", "put", "delete"}

  const JsonHeaders: map<string, string> := map["Content-Type" := "application/json"]

  /** Setting and then clearing the key header leaves the JSON headers as they were. */
  lemma JsonHeadersSurviveAuth(key: string)
    ensures AuthHeader !in JsonHeaders
    ensures JsonHeaders[AuthHeader := key] - {AuthHeader} == JsonHeaders
    ensures JsonHeaders - {AuthHeader} == JsonHeaders
  {
    assert AuthHeader[0] != "Content-Type"[0];
  }

  function Ok(body: string, decoded: Mixed): Reply {
    Answered(Response(200, "OK", body, decoded))
  }

  lemma LowerVerbs()
    ensures Lower("get") == "get" && Lower("post") == "post" && Lower("delete") == "delete"
  {
    LowerOfLowerCase("get");
    LowerOfLowerCase("post");
    LowerOfLowerCase("delete");
  }

  method NewClient(verbs: set<string>) returns (api: BinanceApi)
    ensures fresh(api) && fresh(api.curl) && api.curl.verbs == verbs
    ensures api.curl.headers == JsonHeaders && api.errors == [] && api.key == "api-key"
  {
    api := new BinanceApi("api-key", "api-secret", verbs, (k: string, d: string) => k + "|" + d, (a: Args) => "");
  }

  /**
   * queryOrder without either identifier: FALSE, exactly one message, which a
   * second getErrors() no longer returns, and no key header was ever set.
   */
  method QueryOrderWithoutIdentifier() returns (value: Mixed, first: seq<string>, second: seq<string>, headers: map<string, string>)
    ensures value == False
    ensures first == [MissingOrderIdError] && second == []
    ensures headers == JsonHeaders
  {
    var api := NewClient(Verbs);
    ghost var sent;
    value, sent := api.QueryOrder(Str("LTCBTC"), now := 1500000000000, reply := Ok("{}", Object(map[])));
    headers := api.curl.headers;
    first := api.GetErrors();
    second := api.GetErrors();
  }

  /**
   * A gateway timeout is not a failure to the client: getBody returns the
   * truthy text '504 Status UNKNOWN', so ping() answers TRUE and records nothing.
   */
  method PingOnGatewayTimeout() returns (ok: bool, errors: seq<string>)
    ensures ok && errors == []
  {
    LowerVerbs();
    var api := NewClient(Verbs);
    ghost var sent;
    ok, sent := api.Ping(reply := Answered(Response(504, "Gateway Timeout", "", Null)));
    errors := api.GetErrors();
  }

  /** A 200 with an empty, undecodable body yields the falsy '' and no message: ping() is FALSE silently. */
  method PingOnEmptyBody() returns (ok: bool, errors: seq<string>)
    ensures !ok && errors == []
  {
    LowerVerbs();
    var api := NewClient(Verbs);
    ghost var sent;
    ok, sent := api.Ping(reply := Ok("", Null));
    errors := api.GetErrors();
  }

  /**
   * Whatever the order's fields, an exchange error whose body `text` decodes to
   * an object carrying `code` and `msg` is recorded as "code: msg", the order
   * returns FALSE, and the key header is gone.
   */
  method OrderRejected(symbol: Mixed, side: Mixed, orderType: Mixed, timeInForce: Mixed, quantity: Mixed, price: Mixed,
                       now: int, text: string, code: int, msg: string)
    returns (value: Mixed, errors: seq<string>, headers: map<string, string>)
    ensures value == False
    ensures errors == [IntText(code) + ": " + msg]
    ensures headers == JsonHeaders
  {
    LowerVerbs();
    JsonHeadersSurviveAuth("api-key");
    var api := NewClient(Verbs);
    var body := Object(map["code" := Int(code), "msg" := Str(msg)]);
    var resp := Response(400, "Bad Request", text, body);
    assert Prop(body, "code") == Int(code) && Prop(body, "msg") == Str(msg);
    assert RemoteError(resp) == IntText(code) + ": " + msg;
    assert Dispatch("post", api.curl.Supports("post"), Answered(resp)) == Outcome(False, [IntText(code) + ": " + msg]);
    ghost var sent;
    value, sent := api.Order(symbol, side, orderType, timeInForce, quantity, price,
                             now := now, reply := Answered(resp));
    headers := api.curl.headers;
    errors := api.GetErrors();
  }

  /**
   * An accepted order whose body `text` decodes to `answer`: the decoded answer
   * comes back, nothing is recorded, and the request went out by POST,
   * carrying the key header and the timestamp.
   */
  method OrderAccepted(symbol: Mixed, side: Mixed, orderType: Mixed, timeInForce: Mixed, quantity: Mixed, price: Mixed,
                       now: int, text: string, answer: Mixed)
    returns (value: Mixed, errors: seq<string>, headers: map<string, string>)
    requires Truthy(answer)
    ensures value == answer
    ensures errors == [] && headers == JsonHeaders
  {
    LowerVerbs();
    JsonHeadersSurviveAuth("api-key");
    var api := NewClient(Verbs);
    ghost var sent;
    value, sent := api.Order(symbol, side, orderType, timeInForce, quantity, price,
                             now := now, reply := Ok(text, answer));
    assert sent.Some? && sent.value.verb == "post" && sent.value.url == MkUrl("/api/v3/order");
    assert sent.value.headers == JsonHeaders[AuthHeader := "api-key"];
    assert Get(sent.value.args, Timestamp) == Some(Int(now));
    headers := api.curl.headers;
    errors := api.GetErrors();
  }

  /** A transport without DELETE: cancelOrder reports the verb and returns FALSE. */
  method CancelWithoutDelete() returns (value: Mixed, errors: seq<string>, headers: map<string, string>)
    ensures value == False
    ensures errors == [InvalidMethodError("delete")]
    ensures headers == JsonHeaders
  {
    JsonHeadersSurviveAuth("api-key");
    var api := NewClient({"get", "post"});
    assert !api.curl.Supports("delete") by {
      LowerVerbs();
    }
    ghost var sent;
    value, sent := api.CancelOrder(Str("LTCBTC"), orderId := Int(7), now := 1500000000000, reply := Ok("{}", Object(map[])));
    headers := api.curl.headers;
    errors := api.GetErrors();
  }

  const EthTicker := Object(map["symbol" := Str("ETHBTC"), "price" := Str("0.0700")])
  const LtcTicker := Object(map["symbol" := Str("LTCBTC"), "price" := Str("0.0050")])

  lemma EthTickerIsNotLtc()
    ensures !Matches(EthTicker, "ltcbtc")
  {
  }

  lemma LtcTickerMatchesLowerCase()
    ensures Matches(LtcTicker, "ltcbtc")
  {
  }

  lemma EthTickerIsNotXyz()
    ensures !Matches(EthTicker, "XYZ")
  {
  }

  /** A case-insensitive hit on the second entry, after skipping the first. */
  lemma LtcFoundAfterEth()
    ensures PriceOf([EthTicker, LtcTicker], "ltcbtc") == Some(Str("0.0050"))
  {
    EthTickerIsNotLtc();
    LtcTickerMatchesLowerCase();
    assert [EthTicker, LtcTicker][1..] == [LtcTicker];
    assert PriceOf([LtcTicker], "ltcbtc") == Some(Prop(LtcTicker, "price"));
  }

  /** A symbol no entry carries is not found. */
  lemma XyzNotListed()
    ensures PriceOf([EthTicker], "XYZ") == None
  {
    EthTickerIsNotXyz();
  }

  /** The lookups getPrice performs on a two-ticker listing: a case-insensitive hit on the second entry, and a miss. */
  lemma TickerLookups()
    ensures PriceOf([EthTicker, LtcTicker], "ltcbtc") == Some(Str("0.0050"))
    ensures PriceOf([EthTicker], "XYZ") == None
  {
    LtcFoundAfterEth();
    XyzNotListed();
  }
}
