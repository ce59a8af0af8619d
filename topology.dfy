/** The setup ledger of a channel wrapper: the setup functions a client
    registers (the exchange loop passed to `createChannel`, and one closure
    per `createQueue` and `consume` call), what each does to a channel, and
    the wrapper that keeps them.

    The connection manager runs the ledger on every new channel. That part of
    the library is not modelled: `ChannelWrapper.Replay` states it as the
    contract the clients rely on: a replay runs the ledger in order. */
module Topology {
  import opened Wrappers
  import opened Amqp
  import opened Broker

  /** A registered setup function. A consumer setup keeps the caller's handler,
      which the delivery callback it installs runs (module DeliveryPolicy). */
  datatype Setup =
    | ExchangeSetup(exchanges: seq<Exchange>)
    | QueueSetup(queue: string, exchange: string, routingKey: string, options: Options)
    | ConsumerSetup(queue: string, onMessage: Json -> bool, options: Options)

  /** The exchange loop: one durable assertion per configured exchange. */
  function ExchangeAssertions(exchanges: seq<Exchange>): seq<Action>
  {
    if exchanges == [] then []
    else [AssertExchange(exchanges[0].name, exchanges[0].kind, Durable)] + ExchangeAssertions(exchanges[1..])
  }

  /** The loop asserts every configured exchange, durable, in configuration
      order, and does nothing else. */
  lemma {:induction false} ExchangeAssertionsSpec(exchanges: seq<Exchange>)
    ensures |ExchangeAssertions(exchanges)| == |exchanges|
    ensures forall i :: 0 <= i < |exchanges| ==>
      ExchangeAssertions(exchanges)[i] == AssertExchange(exchanges[i].name, exchanges[i].kind, Durable)
  {
    if exchanges != [] {
      ExchangeAssertionsSpec(exchanges[1..]);
      var r := ExchangeAssertions(exchanges);
      assert r == [AssertExchange(exchanges[0].name, exchanges[0].kind, Durable)] + ExchangeAssertions(exchanges[1..]);
      forall i | 0 < i < |exchanges|
        ensures r[i] == AssertExchange(exchanges[i].name, exchanges[i].kind, Durable)
      {
        assert r[i] == ExchangeAssertions(exchanges[1..])[i - 1];
        assert exchanges[1..][i - 1] == exchanges[i];
      }
    }
  }

  /** `{ durable: true, ...options }`, the queue options of `createQueue`. */
  function QueueOptions(options: Options): (r: Options)
    ensures Get(r, "durable") == (if "durable" in options then options["durable"] else JBool(true))
    ensures forall k :: k in options ==> k in r && r[k] == options[k]
    ensures r.Keys == options.Keys + {"durable"}
  {
    WithDefault(options, "durable", JBool(true))
  }

  /** What running one setup function does to a channel. */
  function SetupActions(s: Setup): seq<Action>
  {
    match s
    case ExchangeSetup(exchanges) => ExchangeAssertions(exchanges)
    case QueueSetup(q, x, key, options) => [AssertQueue(q, QueueOptions(options)), BindQueue(q, x, key)]
    case ConsumerSetup(q, _, options) => [AssertQueue(q, Durable), Consume(q, options)]
  }

  /** `ledger` holds a consumer registration of `onMessage` for `queue`. */
  ghost predicate Registered(ledger: seq<Setup>, queue: string, onMessage: Json -> bool) {
    exists i :: 0 <= i < |ledger| && ledger[i].ConsumerSetup? && ledger[i].queue == queue && ledger[i].onMessage == onMessage
  }

  /** What running a whole ledger, in registration order, does to a channel. */
  function LedgerActions(ledger: seq<Setup>): seq<Action>
  {
    if ledger == [] then [] else SetupActions(ledger[0]) + LedgerActions(ledger[1..])
  }

  lemma {:induction false} LedgerActionsAppend(a: seq<Setup>, b: seq<Setup>)
    ensures LedgerActions(a + b) == LedgerActions(a) + LedgerActions(b)
  {
    if a == [] {
      assert a + b == b;
    } else {
      var ab := a + b;
      assert ab[0] == a[0];
      assert ab[1..] == a[1..] + b;
      LedgerActionsAppend(a[1..], b);
      calc {
        LedgerActions(ab);
        SetupActions(a[0]) + LedgerActions(a[1..] + b);
        SetupActions(a[0]) + (LedgerActions(a[1..]) + LedgerActions(b));
        (SetupActions(a[0]) + LedgerActions(a[1..])) + LedgerActions(b);
      }
    }
  }

  /** What one more setup function adds to a replay. */
  lemma LedgerActionsSnoc(ledger: seq<Setup>, s: Setup)
    ensures LedgerActions(ledger + [s]) == LedgerActions(ledger) + SetupActions(s)
  {
    LedgerActionsAppend(ledger, [s]);
    assert LedgerActions([s]) == SetupActions(s) + LedgerActions([]);
  }

  /** Every bind and every consumer start on a queue comes after an assertion
      of that queue. */
  ghost predicate QueuesAssertedFirst(t: seq<Action>) {
    forall i :: 0 <= i < |t| && (t[i].BindQueue? || t[i].Consume?) ==>
      exists j :: 0 <= j < i && t[j].AssertQueue? && t[j].queue == t[i].queue
  }

  lemma QueuesAssertedFirstAppend(a: seq<Action>, b: seq<Action>)
    requires QueuesAssertedFirst(a) && QueuesAssertedFirst(b)
    ensures QueuesAssertedFirst(a + b)
  {
    forall i | 0 <= i < |a + b| && ((a + b)[i].BindQueue? || (a + b)[i].Consume?)
      ensures exists j :: 0 <= j < i && (a + b)[j].AssertQueue? && (a + b)[j].queue == (a + b)[i].queue
    {
      if i < |a| {
        assert (a + b)[i] == a[i];
        var j :| 0 <= j < i && a[j].AssertQueue? && a[j].queue == a[i].queue;
        assert (a + b)[j] == a[j];
      } else {
        assert (a + b)[i] == b[i - |a|];
        var j :| 0 <= j < i - |a| && b[j].AssertQueue? && b[j].queue == b[i - |a|].queue;
        assert (a + b)[|a| + j] == b[j];
      }
    }
  }

  /** One setup function on its own: the exchange loop only asserts
      exchanges; a queue or consumer setup does two things to its own queue,
      asserting it (durable unless overridden) first, and asserts no exchange. */
  lemma SetupActionsSpec(s: Setup)
    ensures QueuesAssertedFirst(SetupActions(s))
    ensures s.ExchangeSetup? ==> forall i :: 0 <= i < |SetupActions(s)| ==> SetupActions(s)[i].AssertExchange?
    ensures !s.ExchangeSetup? ==>
      && |SetupActions(s)| == 2
      && SetupActions(s)[0].AssertQueue? && SetupActions(s)[0].queue == s.queue
      && SetupActions(s)[0].options == (if s.QueueSetup? then QueueOptions(s.options) else Durable)
      && (SetupActions(s)[1].BindQueue? || SetupActions(s)[1].Consume?) && SetupActions(s)[1].queue == s.queue
  {
    var a := SetupActions(s);
    if s.ExchangeSetup? {
      ExchangeAssertionsSpec(s.exchanges);
      assert forall i :: 0 <= i < |a| ==> a[i].AssertExchange?;
    } else {
      assert a[0].AssertQueue? && a[0].queue == a[1].queue;
    }
  }

  /** Whatever the clients register, a replay never binds or consumes a
      queue before asserting it. */
  lemma {:induction false} LedgerAssertsQueuesFirst(ledger: seq<Setup>)
    ensures QueuesAssertedFirst(LedgerActions(ledger))
  {
    if ledger != [] {
      LedgerAssertsQueuesFirst(ledger[1..]);
      SetupActionsSpec(ledger[0]);
      QueuesAssertedFirstAppend(SetupActions(ledger[0]), LedgerActions(ledger[1..]));
    }
  }

  /** The setup `createChannel` is given asserts every configured exchange,
      durable, in configuration order, and does nothing else. */
  lemma InitialLedgerAssertsExchanges(exchanges: seq<Exchange>)
    ensures var t := LedgerActions([ExchangeSetup(exchanges)]);
      |t| == |exchanges| &&
      forall i :: 0 <= i < |t| ==> t[i] == AssertExchange(exchanges[i].name, exchanges[i].kind, Durable)
  {
    assert LedgerActions([ExchangeSetup(exchanges)]) == ExchangeAssertions(exchanges) + LedgerActions([]);
    ExchangeAssertionsSpec(exchanges);
  }

  /** Registering a queue adds its assertion, then its binding, to the end of
      what a replay does. */
  lemma QueueRegistration(ledger: seq<Setup>, q: string, x: string, key: string, options: Options)
    ensures LedgerActions(ledger + [QueueSetup(q, x, key, options)])
         == LedgerActions(ledger) + [AssertQueue(q, QueueOptions(options)), BindQueue(q, x, key)]
  {
    LedgerActionsSnoc(ledger, QueueSetup(q, x, key, options));
  }

  /** Registering a consumer adds a durable assertion of its queue, then the
      consumer start, to the end of what a replay does. */
  lemma ConsumerRegistration(ledger: seq<Setup>, q: string, h: Json -> bool, options: Options)
    ensures LedgerActions(ledger + [ConsumerSetup(q, h, options)])
         == LedgerActions(ledger) + [AssertQueue(q, Durable), Consume(q, options)]
  {
    LedgerActionsSnoc(ledger, ConsumerSetup(q, h, options));
  }

  /** Re-running a ledger declares no exchange the first run did not: on the
      broker's exchange set a replay is idempotent. */
  lemma ReplayIdempotent(t: seq<Action>, ledger: seq<Setup>)
    ensures Asserted(t + LedgerActions(ledger) + LedgerActions(ledger)) == Asserted(t + LedgerActions(ledger))
  {
    var l := LedgerActions(ledger);
    AssertedAppend(t + l, l);
    AssertedAppend(t, l);
  }

  /** The exchange loop of the setup function, run against a channel. */
  method SetupExchanges(channel: FakeBroker, exchanges: seq<Exchange>)
    modifies channel
    ensures channel.trace == old(channel.trace) + ExchangeAssertions(exchanges)
  {
    var i := 0;
    while i < |exchanges|
      invariant 0 <= i <= |exchanges|
      invariant channel.trace == old(channel.trace) + ExchangeAssertions(exchanges[..i])
    {
      var x := exchanges[i];
      channel.Apply(AssertExchange(x.name, x.kind, Durable));
      assert exchanges[..i + 1] == exchanges[..i] + [x];
      ExchangeAssertionsAppend(exchanges[..i], x);
      i := i + 1;
    }
    assert exchanges[..i] == exchanges;
  }

  lemma {:induction false} ExchangeAssertionsAppend(exchanges: seq<Exchange>, x: Exchange)
    ensures ExchangeAssertions(exchanges + [x]) == ExchangeAssertions(exchanges) + [AssertExchange(x.name, x.kind, Durable)]
  {
    if exchanges == [] {
      assert ExchangeAssertions([x]) == [AssertExchange(x.name, x.kind, Durable)] + ExchangeAssertions([]);
    } else {
      assert (exchanges + [x])[0] == exchanges[0];
      assert (exchanges + [x])[1..] == exchanges[1..] + [x];
      ExchangeAssertionsAppend(exchanges[1..], x);
    }
  }

  /** One setup function, run against a channel. */
  method RunSetup(channel: FakeBroker, s: Setup)
    modifies channel
    ensures channel.trace == old(channel.trace) + SetupActions(s)
  {
    match s
    case ExchangeSetup(exchanges) =>
      SetupExchanges(channel, exchanges);
    case QueueSetup(q, x, key, options) =>
      channel.Apply(AssertQueue(q, QueueOptions(options)));
      channel.Apply(BindQueue(q, x, key));
    case ConsumerSetup(q, _, options) =>
      channel.Apply(AssertQueue(q, Durable));
      channel.Apply(Consume(q, options));
  }

  /** The arguments `amqp.connect` is called with. */
  datatype ConnectionManager = ConnectionManager(urls: seq<string>, heartbeatIntervalInSeconds: nat, reconnectTimeInSeconds: nat)

  /** `amqp.connect([uri], { heartbeatIntervalInSeconds: 5, reconnectTimeInSeconds: 5 })`. */
  function Connect(uri: string): (c: ConnectionManager)
    ensures c.urls == [uri]
    ensures c.heartbeatIntervalInSeconds == 5 && c.reconnectTimeInSeconds == 5
  {
    ConnectionManager([uri], 5, 5)
  }

  /** The two ordered steps of a client's teardown: the channel wrapper, if
      there is one, then the connection, if there is one. */
  function CloseSteps(hasChannel: bool, hasConnection: bool): (r: seq<Action>)
    ensures CloseChannel in r <==> hasChannel
    ensures CloseConnection in r <==> hasConnection
    ensures |r| == (if hasChannel then 1 else 0) + (if hasConnection then 1 else 0)
    ensures hasChannel ==> r[0] == CloseChannel
    ensures hasConnection ==> r[|r| - 1] == CloseConnection
  {
    (if hasChannel then [CloseChannel] else []) + (if hasConnection then [CloseConnection] else [])
  }

  /** The library's channel wrapper, reduced to what the clients use: the
      setup ledger, publishing onto the current channel, and closing. */
  class ChannelWrapper {
    const channel: FakeBroker
    var ledger: seq<Setup>

    /** `connection.createChannel({ setup })`. */
    constructor (channel: FakeBroker, setup: Setup)
      ensures this.channel == channel && ledger == [setup]
    {
      this.channel := channel;
      ledger := [setup];
    }

    /** `addSetup`: append a setup function to the ledger. */
    method AddSetup(s: Setup)
      modifies this
      ensures ledger == old(ledger) + [s]
      ensures LedgerActions(ledger) == LedgerActions(old(ledger)) + SetupActions(s)
    {
      LedgerActionsSnoc(ledger, s);
      ledger := ledger + [s];
    }

    /** What the library does on every new channel, taken as its contract:
        run each setup function once, in registration order. */
    method Replay()
      modifies channel
      ensures channel.trace == old(channel.trace) + LedgerActions(ledger)
    {
      var setups := ledger;
      ghost var t0 := channel.trace;
      var i := 0;
      while i < |setups|
        invariant 0 <= i <= |setups|
        invariant channel.trace == t0 + LedgerActions(setups[..i])
      {
        var s := setups[i];
        ghost var done := LedgerActions(setups[..i]);
        RunSetup(channel, s);
        assert channel.trace == t0 + (done + SetupActions(s));
        assert setups[..i + 1] == setups[..i] + [s];
        LedgerActionsSnoc(setups[..i], s);
        i := i + 1;
      }
      assert setups[..i] == setups;
    }

    /** `channelWrapper.publish`: handed straight to the channel. */
    method Publish(exchange: string, routingKey: string, content: Bytes, options: Options) returns (r: Result<bool, Error>)
      modifies channel
      ensures r == PublishVerdict(old(channel.trace), exchange)
      ensures channel.trace == if r.Ok? then old(channel.trace) + [Action.Publish(exchange, routingKey, content, options)] else old(channel.trace)
      ensures Asserted(channel.trace) == Asserted(old(channel.trace))
    {
      r := channel.Publish(exchange, routingKey, content, options);
    }

    method Close()
      modifies channel
      ensures channel.trace == old(channel.trace) + [CloseChannel]
    {
      channel.Apply(CloseChannel);
    }
  }
}
