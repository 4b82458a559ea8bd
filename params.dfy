/**
 * The argument arrays the client builds (`$args`): PHP arrays keyed by the
 * request parameter names, which keep their keys in insertion order. That order
 * is the order `http_build_query` encodes them in, so it is what gets signed.
 */
module Params {
  import opened Wrappers
  import opened Php

  /** Every parameter name the client ever puts into an argument array. */
  datatype Param =
    | Symbol | Interval | FromId | StartTime | EndTime | Limit
    | Side | Type | TimeInForce | Quantity | Price
    | NewClientOrderId | StopPrice | IcebergQty
    | OrderId | OrigClientOrderId | RecvWindow
    | Timestamp | Signature

  /** The parameter's name on the wire. */
  function Name(p: Param): string {
    match p
    case Symbol => "symbol"
    case Interval => "interval"
    case FromId => "fromId"
    case StartTime => "startTime"
    case EndTime => "endTime"
    case Limit => "limit"
    case Side => "side"
    case Type => "type"
    case TimeInForce => "timeInForce"
    case Quantity => "quantity"
    case Price => "price"
    case NewClientOrderId => "newClientOrderId"
    case StopPrice => "stopPrice"
    case IcebergQty => "icebergQty"
    case OrderId => "orderId"
    case OrigClientOrderId => "origClientOrderId"
    case RecvWindow => "recvWindow"
    case Timestamp => "timestamp"
    case Signature => "signature"
  }

  /** An argument array: its keys in insertion order and the value stored under each. */
  datatype Args = Args(order: seq<Param>, values: map<Param, Mixed>)

  /** The array `array()`. */
  const EmptyArgs := Args([], map[])

  /** No key occurs twice in `keys`. */
  ghost predicate Distinct(keys: seq<Param>) {
    |keys| == 0 || (keys[|keys| - 1] !in keys[..|keys| - 1] && Distinct(keys[..|keys| - 1]))
  }

  /** Each key listed once, and exactly the keys that hold a value. */
  ghost predicate Wf(a: Args) {
    && Distinct(a.order)
    && (forall k :: k in a.values <==> k in a.order)
  }

  /** `array_key_exists($k, $a)`. */
  predicate HasKey(a: Args, k: Param) {
    k in a.values
  }

  /** `$a[$k]` when the key exists. */
  function Get(a: Args, k: Param): (r: Option<Mixed>)
    ensures r.Some? <==> HasKey(a, k)
  {
    if k in a.values then Some(a.values[k]) else None
  }

  /** `isset($a[$k])`: the key exists and its value is not NULL. */
  predicate IsSet(a: Args, k: Param) {
    k in a.values && !a.values[k].Null?
  }

  /**
   * `$a[$k] = $v`: an existing key keeps its position and takes the new value,
   * a new key is appended at the end; every other key keeps its value.
   */
  function Put(a: Args, k: Param, v: Mixed): (r: Args)
    ensures r.values == a.values[k := v]
    ensures r.order == if HasKey(a, k) then a.order else a.order + [k]
  {
    Args(if k in a.values then a.order else a.order + [k], a.values[k := v])
  }

  /** Assignment keeps an array well formed. */
  lemma PutWf(a: Args, k: Param, v: Mixed)
    requires Wf(a)
    ensures Wf(Put(a, k, v))
  {
    var r := Put(a, k, v);
    if k !in a.values {
      assert r.order[..|r.order| - 1] == a.order;
      assert forall k' :: k' in r.order <==> k' in a.order || k' == k;
    }
  }

  /** `array($k => $v)`. */
  function Single(k: Param, v: Mixed): (r: Args)
    ensures r.order == [k] && r.values == map[k := v]
  {
    Put(EmptyArgs, k, v)
  }

  /** A one-key array is well formed. */
  lemma SingleWf(k: Param, v: Mixed)
    ensures Wf(Single(k, v))
  {
    PutWf(EmptyArgs, k, v);
  }

  /** Distinct parameters go out under distinct names, so no repeated key means no repeated name on the wire. */
  lemma NameInjective(p: Param, q: Param)
    ensures Name(p) == Name(q) ==> p == q
  {
  }
}
