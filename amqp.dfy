/** The vocabulary shared by the three clients: JSON values, option objects,
    exchanges, deliveries, the errors the clients throw, and the actions a
    broker channel performs. */
module Amqp {
  import opened Wrappers

  newtype Byte = x: int | 0 <= x < 256
  type Bytes = seq<Byte>

  /** A JSON value. Numbers are integers; floating point is not modelled. */
  datatype Json =
    | JNull
    | JBool(b: bool)
    | JNum(n: int)
    | JStr(s: string)
    | JArr(items: seq<Json>)
    | JObj(fields: map<string, Json>)

  /** JavaScript truthiness, as `a || b` uses it. `undefined` is read as JNull. */
  predicate Truthy(v: Json) {
    match v
    case JNull => false
    case JBool(b) => b
    case JNum(n) => n != 0
    case JStr(s) => s != ""
    case JArr(_) => true
    case JObj(_) => true
  }

  /** An options object; `{}` is the empty map and a missing key is `undefined`. */
  type Options = map<string, Json>

  /** `options.key`, with `undefined` read as JNull. */
  function Get(options: Options, key: string): (v: Json)
    ensures key !in options ==> v == JNull
    ensures key in options ==> v == options[key]
  {
    if key in options then options[key] else JNull
  }

  /** The object literal `{ key: v, ...options }`: `v` is a default the
      caller's options override. */
  function WithDefault(options: Options, key: string, v: Json): (r: Options)
    ensures r.Keys == options.Keys + {key}
    ensures key in options ==> r[key] == options[key]
    ensures key !in options ==> r[key] == v
    ensures forall k :: k in options ==> r[k] == options[k]
  {
    map[key := v] + options
  }

  /** The object literal `{ ...options, key: v }`: `v` wins over the caller. */
  function WithForced(options: Options, key: string, v: Json): (r: Options)
    ensures r.Keys == options.Keys + {key}
    ensures r[key] == v
    ensures forall k :: k in options && k != key ==> r[k] == options[k]
  {
    options[key := v]
  }

  /** `{ persistent: true, ...options }`: the standalone clients' publish
      options, where the caller may turn persistence off. */
  function DefaultPersistent(options: Options): (r: Options)
    ensures "persistent" in r && r["persistent"] == (if "persistent" in options then options["persistent"] else JBool(true))
    ensures forall k :: k in options ==> k in r && r[k] == options[k]
    ensures r.Keys == options.Keys + {"persistent"}
  {
    WithDefault(options, "persistent", JBool(true))
  }

  /** `{ ...options, persistent: true }`: the service's publish options, where
      persistence is forced whatever the caller asks. */
  function ForcedPersistent(options: Options): (r: Options)
    ensures "persistent" in r && r["persistent"] == JBool(true)
    ensures forall k :: k in options && k != "persistent" ==> k in r && r[k] == options[k]
    ensures r.Keys == options.Keys + {"persistent"}
  {
    WithForced(options, "persistent", JBool(true))
  }

  /** `{ durable: true }`, the options every exchange and consumed queue is asserted with. */
  const Durable: Options := map["durable" := JBool(true)]

  /** An entry of a configuration's `exchanges` object. */
  datatype Exchange = Exchange(name: string, kind: string)

  /** A message the broker hands to a consumer callback. */
  datatype Delivery = Delivery(deliveryTag: nat, content: Bytes)

  /** `JSON.stringify` followed by `Buffer.from`, and `msg.content.toString()`
      followed by `JSON.parse`. Both are left abstract; decoding may fail. */
  datatype Codec = Codec(encode: Json -> Bytes, decode: Bytes -> Option<Json>)

  /** The codec reads back every value it writes. */
  ghost predicate RoundTrips(c: Codec) {
    forall j :: c.decode(c.encode(j)) == Some(j)
  }

  /** What the clients throw. */
  datatype Error =
    | NotConnected                        // the publisher client's own gate
    | NoChannel                           // a method called before connect: a TypeError on the missing wrapper
    | ExchangeNotFound(exchange: string)  // the broker refused a publish
    | ConnectFailed(reason: string)       // waitForConnect rejected

  /** `error.message`. The connect error is rethrown as it came, so its text
      is the library's own; only the client's gate has a text of its own. */
  function ErrorMessage(e: Error): (m: string)
    ensures e == NotConnected ==> m == "Not connected to RabbitMQ"
    ensures e.ConnectFailed? ==> m == e.reason
    ensures !e.ConnectFailed? ==> m != ""
  {
    match e
    case NotConnected => "Not connected to RabbitMQ"
    case NoChannel => "Cannot read properties of null"
    case ExchangeNotFound(x) => "NOT_FOUND - no exchange '" + x + "'"
    case ConnectFailed(reason) => reason
  }

  /** The events a client re-emits on its own emitter. */
  datatype ClientEvent = Connected | Disconnected(err: string)

  /** The value the connected flag must have after the events it re-emitted:
      true exactly when the last one was a connect. */
  predicate ConnectedAfter(events: seq<ClientEvent>) {
    |events| > 0 && events[|events| - 1] == Connected
  }

  /** One step in the life of the fake broker: channel operations, the
      consumer callback's call of the application handler, and teardown. */
  datatype Action =
    | AssertExchange(exchange: string, kind: string, options: Options)
    | AssertQueue(queue: string, options: Options)
    | BindQueue(queue: string, exchange: string, routingKey: string)
    | Consume(queue: string, options: Options)
    | Publish(exchange: string, routingKey: string, content: Bytes, options: Options)
    | Handle(payload: Json)
    | Ack(delivery: Delivery)
    | Nack(delivery: Delivery, allUpTo: bool, requeue: bool)
    | CloseChannel
    | CloseConnection
}
