# BinanceAPI client, modelled in Dafny

This project models the PHP `BinanceAPI` class (`binanceapi.php`), a thin
client for the Binance REST API. It covers:

- the **error sink**: an ordered list of messages that operations append to
  and `getErrors()` drains;
- the **key header**: `X-MBX-APIKEY` on the transport. It is attached
  around each signed call (and around the user-stream calls, which are not
  modelled) and removed on every exit path of `sendRequest()`;
- the **request pipeline**: `sign()` adds `timestamp`, then `signature` =
  HMAC-SHA256 of the encoded arguments; `mkURL()`, `sendRequest()`, and the
  response classifier `getBody()`;
- the **validators** `validate_aggTrades()` and `validate_queryOrder()`;
- the **argument builders** of the modelled endpoints. Their arguments go in
  source order. The six fields of an order are always sent, and so is
  `limit` in `aggTrades()` and `candlesticks()` whenever the time window is
  incomplete, whatever its value (NULL included). Every other optional
  argument is added only when truthy; falsy ones (NULL, 0, '', '0', FALSE)
  are left out. No builder lists a key twice;
- `ping()`, `allPrices()` and `getPrice()`, whose case-insensitive scan is a
  loop proved against a recursive specification.

## Files

- `wrappers.dfy` defines `Option`.
- `php.dfy` holds the PHP value semantics the client relies on: dynamically
  typed values (`Mixed`), truthiness, `$obj->prop`, string conversion, and
  ASCII `strtoupper`/`strtolower`.
- `params.dfy` models the ordered PHP arrays that carry request arguments
  (`Args`: key order plus values). Keys are limited to the parameter names
  the client uses.
- `binance.dfy` has two groups:
  - pure specifications: the classifier `Classify`, `Dispatch`, the builders,
    `Signed` and `PriceOf`;
  - the classes `Curl` (the header map and the verbs it implements) and
    `BinanceApi` (the error list and the endpoints). Their methods change
    state and are proved against those specifications.
- `scenarios.dfy` runs whole calls on a fresh client with a fixed transport
  answer. Each one states what a caller then observes.

The outside world enters as parameters:

- the transport's answer (`Reply`: a `Response` or a failure text);
- the clock (`now`, in milliseconds);
- the HMAC and form-encoding primitives, which the constructor receives as
  functions.

Every endpoint's contract gives:

- the value returned;
- the exact messages appended to the error list;
- the header map afterwards. `Valid` (no `X-MBX-APIKEY` header on the
  transport) holds after the constructor, and every endpoint requires it
  and keeps it. Each endpoint leaves the header map exactly as it found it;
- the request handed to the transport: verb, URL, arguments (signed where
  the endpoint signs), and the headers in force at that moment. This is a
  ghost out-parameter `sent`. Only the signed endpoints send the key
  header, and it is gone again when they return. The arguments a signed
  endpoint sends list no key twice.

The internal `sendRequest()`, and the tail shared by the signed endpoints
that calls it, remove the key header from whatever map they find, on every
exit path.

Two answers of the exchange are not reported as failures:

- **Status 504.** `getBody()` returns the truthy string
  `'504 Status UNKNOWN'` and records no error, so `ping()` answers TRUE
  (`Scenarios.PingOnGatewayTimeout`).
- **Falsy 200 body.** A 200 whose body does not decode is returned as raw
  text; one that decodes is returned as its decoded value. Either may be
  falsy: the empty text `''`, or the body `0`, which decodes to the integer
  0. `getBody()` records nothing for it. Then:
  - `ping()` returns FALSE with no message (`Scenarios.PingOnEmptyBody`);
  - the signed endpoints return FALSE with no message;
  - `aggTrades()`, `candlesticks()` and `allPrices()` return the falsy
    value itself, with no message;
  - `getPrice()` records 'Unable to find price for <symbol>' and returns
    FALSE.

## Model

| member | source | states |
|---|---|---|
| Binance.BinanceApi.constructor | binanceapi.php:13-21 | a new client has a fresh transport whose only header is `Content-Type: application/json`, an empty error list, and no key header |
| Binance.BinanceApi.RaiseError | binanceapi.php:28-30 | the message is appended at the end of the error list |
| Binance.BinanceApi.ResetErrors | binanceapi.php:37-39 | the error list becomes empty |
| Binance.BinanceApi.GetErrors | binanceapi.php:46-50 | returns every message recorded since the last drain, oldest first, and leaves the list empty |
| Binance.BinanceApi.SetAuth | binanceapi.php:57-59 | the key header is set to the client's key; every other header is kept |
| Binance.BinanceApi.ClearAuth | binanceapi.php:66-68 | the key header is removed if present; every other header is kept |
| Params.PutWf | binanceapi.php:76 | assignment keeps an argument list free of duplicate keys, with its key order matching its values |
| Params.SingleWf | binanceapi.php:217 | a one-key array literal is well formed |
| Params.NameInjective | binanceapi.php:350-361 | distinct parameters go out under distinct names, so an argument list without repeated keys has no repeated name on the wire |
| Binance.BinanceApi.Signed | binanceapi.php:75-81 | `timestamp` is `now`; every other caller key keeps its value; `signature` is the HMAC, under the secret, of the encoding of the stamped arguments; it is appended last |
| Binance.BinanceApi.SignedWf | binanceapi.php:75-81 | signing a list without repeated keys gives a list without repeated keys, its key order matching its values |
| Binance.BinanceApi.SignedIsValid | binanceapi.php:75-81 | unless the caller already supplied a signature, the last key of a signed list is `signature`, and it is the HMAC of exactly the keys before it, timestamp included |
| Binance.BinanceApi.Sign | binanceapi.php:75-81 | the step-by-step signer yields exactly `Signed(args, now)` |
| Binance.MkUrl | binanceapi.php:88-90 | the URL is the fixed host followed by the path, unchanged |
| Binance.MkUrlInjective | binanceapi.php:88-90 | distinct paths give distinct URLs |
| Binance.RemoteError | binanceapi.php:107-115 | the message is "code: msg" when the body decodes with both `code` and `msg` set, and the HTTP status text otherwise |
| Binance.Classify | binanceapi.php:97-119 | status 200: the decoded body, or the raw text when it does not decode, with no error. Status 504: the truthy text '504 Status UNKNOWN', with no error. Any other status: FALSE and exactly one message |
| Binance.BinanceApi.GetBody | binanceapi.php:97-119 | returns the classified value and appends the classified errors, nothing more |
| Binance.Dispatch | binanceapi.php:126-140 | an unsupported verb gives FALSE and "<verb> is not a valid HTTP method"; a transport failure gives FALSE and the transport's error text; otherwise the response is classified. No message is recorded iff the verb is supported, the transport answered, and the status is 200 or 504 |
| Binance.BinanceApi.SendRequest | binanceapi.php:126-140 | value and messages follow `Dispatch`. The key header is absent afterwards and every other header is unchanged, on all three paths. A request goes out iff the verb is supported, carrying the URL of the path and the headers in force before the call |
| Binance.Settle | binanceapi.php:368-372 | a truthy result is passed through and a falsy one becomes FALSE; truthiness is preserved |
| Binance.BinanceApi.SignedRequest | binanceapi.php:365-372 | the shared tail of signed endpoints: the request carries `Signed(args, now)` and the old headers plus the key; afterwards the key header is gone; the value is the settled dispatch result; when the caller's arguments list no key twice, neither do the signed ones |
| Binance.BinanceApi.Ping | binanceapi.php:154-156 | TRUE iff the ping request yields a truthy value; the messages are those of `sendRequest`. A GET of /api/v1/ping with no arguments and without the key header goes out iff the transport supports GET; the headers are unchanged afterwards |
| Binance.BinanceApi.ValidateAggTrades | binanceapi.php:195-202 | rejects iff both times are set and end minus start exceeds 86400000 ms, recording exactly one message then and none otherwise |
| Binance.AggTradesArgs | binanceapi.php:217-221 | the keys are symbol, then fromId, startTime and endTime when truthy, then limit exactly when either time is falsy; each value is the caller's |
| Binance.AggTradesSpanRule | binanceapi.php:195-223 | in terms of aggTrades' own arguments, the window check fails iff both times are non-zero and more than 24 hours apart |
| Binance.AggTradesLimitExcludesSpanCheck | binanceapi.php:217-221 | the limit is sent iff the two times are not both set |
| Binance.BinanceApi.AggTrades | binanceapi.php:216-226 | when the window is too long: FALSE, exactly the span message, and nothing sent. Otherwise a GET of /api/v1/aggTrades with the built arguments and the `sendRequest` value and messages. Headers unchanged either way |
| Binance.CandlesticksArgs | binanceapi.php:250-253 | the keys are symbol and interval, then the truthy times, then limit exactly when either time is falsy (possibly NULL) |
| Binance.BinanceApi.Candlesticks | binanceapi.php:249-258 | a GET of /api/v1/klines with those arguments and without the key header, with the `sendRequest` value and messages; headers unchanged |
| Binance.BinanceApi.AllPrices | binanceapi.php:282-284 | a GET of /api/v1/ticker/allPrices with no arguments and without the key header goes out iff the transport supports GET; the value and messages are those of `sendRequest`; the headers are unchanged afterwards |
| Php.Upper | binanceapi.php:298 | upper-casing keeps the length and maps each ASCII lower-case letter to its capital, leaving other characters alone |
| Php.UpperIdempotent | binanceapi.php:298 | upper-casing twice is upper-casing once |
| Php.SameIgnoringCaseIsEquivalence | binanceapi.php:298 | the case-insensitive symbol comparison getPrice uses is an equivalence, and a string matches its own upper-case form |
| Binance.PriceOf | binanceapi.php:295-306 | no price is found iff no entry's symbol matches case-insensitively |
| Binance.PriceOfFirstMatch | binanceapi.php:297-301 | when entry i is the first match, the price found is entry i's `price` |
| Binance.BinanceApi.GetPrice | binanceapi.php:295-306 | sends exactly the allPrices request. A truthy listing with a matching entry gives that entry's price and no further message. Otherwise FALSE plus 'Unable to find price for <symbol>', after any message the listing request recorded. The loop returns the first match |
| Binance.OrderBase | binanceapi.php:350-357 | the six order fields, in source order, with the caller's values whatever they are |
| Binance.OrderBaseWf | binanceapi.php:350-357 | the six order fields are six distinct keys |
| Binance.OrderArgs | binanceapi.php:350-361 | the six fields, then newClientOrderId, stopPrice and icebergQty exactly when truthy, each with the caller's value |
| Binance.BinanceApi.Order | binanceapi.php:349-373 | a signed POST of /api/v3/order with those arguments, sent with the key header, which is gone afterwards so the headers are as before; the value is the settled result |
| Binance.OrderTestArgs | binanceapi.php:392-404 | order's arguments followed by recvWindow exactly when it is truthy |
| Binance.BinanceApi.OrderTest | binanceapi.php:391-416 | a signed POST of /api/v3/order/test with those arguments; same header and value effects as order |
| Binance.BinanceApi.ValidateQueryOrder | binanceapi.php:423-430 | rejects iff neither orderId nor origClientOrderId is set, recording exactly one message then and none otherwise |
| Binance.QueryOrderArgs | binanceapi.php:444-447 | symbol, then orderId, origClientOrderId and recvWindow when truthy; the identifiers are missing iff both given identifiers are falsy |
| Binance.BinanceApi.QueryOrder | binanceapi.php:443-459 | with both identifiers falsy: FALSE and exactly the missing-identifier message, with nothing signed and nothing sent. Otherwise a signed GET of /api/v3/order. Headers unchanged either way |
| Binance.CancelOrderArgs | binanceapi.php:474-478 | symbol, then orderId, origClientOrderId, newClientOrderId and recvWindow when truthy; the identifiers are missing iff the two given identifiers are falsy |
| Binance.BinanceApi.CancelOrder | binanceapi.php:473-490 | like queryOrder's rejection when both identifiers are falsy; otherwise a signed DELETE of /api/v3/order |
| Binance.OpenOrdersArgs | binanceapi.php:502-503 | symbol, then recvWindow when truthy |
| Binance.BinanceApi.OpenOrders | binanceapi.php:501-513 | a signed GET of /api/v3/openOrders with those arguments |
| Binance.AllOrdersArgs | binanceapi.php:526-529 | symbol, then orderId, limit and recvWindow when truthy |
| Binance.BinanceApi.AllOrders | binanceapi.php:525-539 | a signed GET of /api/v3/allOrders with those arguments |
| Binance.AccountInfoArgs | binanceapi.php:550-551 | only recvWindow, and only when truthy |
| Binance.BinanceApi.AccountInfo | binanceapi.php:549-561 | a signed GET of /api/v3/account with those arguments |
| Binance.MyTradesArgs | binanceapi.php:575-578 | symbol, then fromId, limit and recvWindow when truthy (fromId before limit, as in the code) |
| Binance.BinanceApi.MyTrades | binanceapi.php:574-588 | a signed GET of /api/v3/myTrades with those arguments |
| Binance.PutIfGivenWf | binanceapi.php:359-361 | assigning an optional argument only when truthy keeps an argument list free of repeated keys |
| Binance.AggTradesArgsWf | binanceapi.php:217-221 | aggTrades' arguments list no key twice |
| Binance.CandlesticksArgsWf | binanceapi.php:250-253 | candlesticks' arguments list no key twice |
| Binance.OrderArgsWf | binanceapi.php:350-361 | order's arguments list no key twice |
| Binance.OrderTestArgsWf | binanceapi.php:392-404 | orderTest's arguments list no key twice |
| Binance.QueryOrderArgsWf | binanceapi.php:444-447 | queryOrder's arguments list no key twice |
| Binance.CancelOrderArgsWf | binanceapi.php:474-478 | cancelOrder's arguments list no key twice |
| Binance.OpenOrdersArgsWf | binanceapi.php:502-503 | openOrders' arguments list no key twice |
| Binance.AllOrdersArgsWf | binanceapi.php:526-529 | allOrders' arguments list no key twice |
| Binance.AccountInfoArgsWf | binanceapi.php:550-551 | accountInfo's arguments list no key twice |
| Binance.MyTradesArgsWf | binanceapi.php:575-578 | myTrades' arguments list no key twice |
| Php.Lower | binanceapi.php:127 | lower-casing keeps the length and maps each ASCII capital to its lower-case letter; the transport supports a verb iff its lower-case form is one of its methods |
| Php.LowerOfLowerCase | binanceapi.php:127 | a verb without capitals is its own lower-case form, so it is found among the transport's lower-case methods |
| Scenarios.JsonHeadersSurviveAuth | binanceapi.php:57-68 | setting and then clearing the key header restores the constructor's headers |
| Scenarios.QueryOrderWithoutIdentifier | binanceapi.php:443-451 | FALSE. The first `getErrors()` returns exactly the missing-identifier message and the second returns nothing. The headers are untouched |
| Scenarios.PingOnGatewayTimeout | binanceapi.php:104-105 | on a 504, ping is TRUE and no message is recorded |
| Scenarios.PingOnEmptyBody | binanceapi.php:98-102 | on a 200 with an empty body, ping is FALSE and no message is recorded |
| Scenarios.OrderRejected | binanceapi.php:107-109 | for any order fields and any body text, a 400 whose body decodes to code and msg gives FALSE, exactly the message "code: msg", and the constructor's headers |
| Scenarios.OrderAccepted | binanceapi.php:368-369 | for any order fields, a 200 whose body text decodes to a truthy value gives back that value, with no messages and the constructor's headers |
| Scenarios.CancelWithoutDelete | binanceapi.php:134-135 | on a transport without DELETE, cancelOrder gives FALSE and exactly "delete is not a valid HTTP method" |
| Scenarios.LtcFoundAfterEth | binanceapi.php:297-301 | 'ltcbtc' finds the 'LTCBTC' ticker's price after skipping 'ETHBTC' |
| Scenarios.XyzNotListed | binanceapi.php:297-304 | 'XYZ' is not found in a listing holding only 'ETHBTC' |
| Scenarios.TickerLookups | binanceapi.php:297-301 | 'ltcbtc' finds the 'LTCBTC' ticker's price after skipping 'ETHBTC'; 'XYZ' finds nothing |

## Left out

- The transport (`curl.php`) is not part of this model. Its answer is a
  `Reply` parameter. Its options (SSL verification flags) are not modelled;
  only its header map and its set of verbs are.
- Foreign functions:
  - `hash_hmac('SHA256', …)` and `http_build_query` are functions the
    constructor receives, left uninterpreted;
  - `json_decode` is represented by the decoded value carried in the
    `Response`.
- `microtime` is the `now` parameter. `round(microtime(TRUE)*1000)` yields a
  float in PHP; the model uses the integer it rounds to.
- Php.Text: converting a float or an object to a string gives `""`. PHP
  renders floats in decimal and fails on objects without `__toString`.
  Float values are otherwise opaque.
- Loose comparison (`==`) is modelled as exact:
  - getBody compares `Status-Code` with '200' and '504'; the status is an
    integer compared exactly;
  - getPrice compares upper-cased strings with `==`. PHP compares two
    numeric strings numerically, so '1e1' would match '10'. The model uses
    exact string equality.
- Binance.BinanceApi.GetPrice: `foreach` over a decoded object visits its
  properties. The model scans only decoded JSON arrays, which is what the
  price listing is.
- Binance.BinanceApi.ValidateAggTrades, Binance.AggTradesArgs and
  Binance.BinanceApi.AggTrades require both times to be integers or NULL, as
  the docblock declares. PHP would also subtract numeric strings and floats.
- Argument keys are restricted to the parameter names the client uses
  (`Params.Param`). A caller cannot add arbitrary keys to an argument list.
- `validate_candlesticks()` and `validate_order()` accept every argument
  list. They are not separate members; their call sites are commented.
- Thin wrappers without logic of their own are not modelled: `time()`,
  `depth()`, `ticker24hr()`, `allBookTickers()`, and the three user-stream
  calls. `allPrices()` is modelled because `getPrice()` uses it.
- Binance.BinanceApi.ClearAuth: the key is modelled as a string, and so
  are header values. A client built with a NULL key
  (binanceapi.php:13) would set `X-MBX-APIKEY => NULL` in `setAuth()`,
  and `clearAuth()` would leave it in place, because `isset()` is false for
  a NULL value (binanceapi.php:58, 67). The model does not capture that
  case; with a string key, the header is always removed.
- Binance.BinanceApi.constructor: a fresh `Curl` object is taken to have no
  headers before `Content-Type` is set, and to implement exactly the verbs
  it is given. `curl.php` is not part of this model.
- Concurrency: two calls on one client sharing the header map are not
  modelled. Nor is a monotonic clock across calls.
