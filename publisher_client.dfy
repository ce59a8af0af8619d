/** The publisher service's client: the same connection handling as the
    consumer's, but `publish` is gated on the connected flag and throws
    rather than handing a message to a disconnected wrapper. */
module PublisherClient {
  import opened Wrappers
  import opened Amqp
  import opened Broker
  import opened Topology

  /** The publisher service's configured exchanges, in configuration order. */
  const ConfiguredExchanges: seq<Exchange> := [
    Exchange("events", "topic"),
    Exchange("commands", "direct"),
    Exchange("notifications", "topic"),
    Exchange("dead-letter", "fanout")
  ]

  /** The answer of a gated publish on `exchange`: refused while disconnected,
      otherwise the broker's answer after trace `t`. */
  function GatedVerdict(connected: bool, t: seq<Action>, exchange: string): (r: Result<bool, Error>)
    ensures !connected ==> r == Err(NotConnected)
    ensures connected ==> r == PublishVerdict(t, exchange)
  {
    if !connected then Err(NotConnected) else PublishVerdict(t, exchange)
  }

  /** The answer depends on the trace only through the exchanges it asserted,
      so publishes do not change it. */
  lemma GatedVerdictStable(connected: bool, t1: seq<Action>, t2: seq<Action>, exchange: string)
    requires Asserted(t1) == Asserted(t2)
    ensures GatedVerdict(connected, t1, exchange) == GatedVerdict(connected, t2, exchange)
  {
  }

  class Client {
    const uri: string
    const exchanges: seq<Exchange>
    const codec: Codec
    const broker: FakeBroker
    var connection: Option<ConnectionManager>
    var channelWrapper: ChannelWrapper?
    var isConnected: bool
    var emitted: seq<ClientEvent>

    ghost predicate Valid()
      reads this
    {
      && (channelWrapper != null <==> connection.Some?)
      && (channelWrapper != null ==> channelWrapper.channel == broker)
      && (isConnected ==> connection.Some?)
      && isConnected == ConnectedAfter(emitted)
    }

    constructor (uri: string, exchanges: seq<Exchange>, codec: Codec, broker: FakeBroker)
      ensures Valid()
      ensures this.uri == uri && this.exchanges == exchanges && this.codec == codec && this.broker == broker
      ensures connection.None? && channelWrapper == null && !isConnected && emitted == []
    {
      this.uri := uri;
      this.exchanges := exchanges;
      this.codec := codec;
      this.broker := broker;
      connection := None;
      channelWrapper := null;
      isConnected := false;
      emitted := [];
    }

    method OnConnect()
      requires Valid() && connection.Some?
      modifies this
      ensures Valid()
      ensures isConnected && emitted == old(emitted) + [Connected]
      ensures connection == old(connection) && channelWrapper == old(channelWrapper)
    {
      isConnected := true;
      emitted := emitted + [Connected];
    }

    method OnDisconnect(err: string)
      requires Valid() && connection.Some?
      modifies this
      ensures Valid()
      ensures !isConnected && emitted == old(emitted) + [Disconnected(err)]
      ensures connection == old(connection) && channelWrapper == old(channelWrapper)
    {
      isConnected := false;
      emitted := emitted + [Disconnected(err)];
    }

    method IsConnected() returns (b: bool)
      requires Valid()
      ensures b == isConnected
      ensures b <==> ConnectedAfter(emitted)
    {
      b := isConnected;
    }

    method Connect(waitError: Option<string>) returns (r: Result<bool, Error>)
      requires Valid()
      modifies this
      ensures Valid()
      ensures connection == Some(Topology.Connect(uri))
      ensures channelWrapper != null && fresh(channelWrapper)
      ensures channelWrapper.ledger == [ExchangeSetup(exchanges)]
      ensures isConnected == old(isConnected) && emitted == old(emitted)
      ensures r == if waitError.None? then Ok(true) else Err(ConnectFailed(waitError.value))
    {
      connection := Some(Topology.Connect(uri));
      channelWrapper := new ChannelWrapper(broker, ExchangeSetup(exchanges));
      if waitError.Some? {
        return Err(ConnectFailed(waitError.value));
      }
      r := Ok(true);
    }

    method Close()
      requires Valid()
      modifies broker
      ensures broker.trace == old(broker.trace) + CloseSteps(channelWrapper != null, connection.Some?)
    {
      if channelWrapper != null {
        channelWrapper.Close();
      }
      if connection.Some? {
        broker.Apply(CloseConnection);
      }
    }

    /** `publish(exchange, routingKey, message, options)`: throws "Not
        connected to RabbitMQ" and sends nothing while the flag is false;
        otherwise sends the encoded message with `persistent: true` unless the
        options override it, and returns true or rethrows the channel's error. */
    method Publish(exchange: string, routingKey: string, message: Json, options: Options) returns (r: Result<bool, Error>)
      requires Valid()
      modifies broker
      ensures r == GatedVerdict(isConnected, old(broker.trace), exchange)
      ensures !isConnected ==> r == Err(NotConnected) && broker.trace == old(broker.trace)
      ensures broker.trace ==
        if r.Ok? then old(broker.trace) + [Action.Publish(exchange, routingKey, codec.encode(message), DefaultPersistent(options))]
        else old(broker.trace)
      ensures Asserted(broker.trace) == Asserted(old(broker.trace))
    {
      if !isConnected {
        return Err(NotConnected);
      }
      var buffer := codec.encode(message);
      r := channelWrapper.Publish(exchange, routingKey, buffer, DefaultPersistent(options));
    }
  }

  /** With the publisher's configuration, the initial setup asserts events,
      commands, notifications and dead-letter, durable, in that order. */
  lemma ConfiguredSetup()
    ensures LedgerActions([ExchangeSetup(ConfiguredExchanges)]) == [
      AssertExchange("events", "topic", Durable),
      AssertExchange("commands", "direct", Durable),
      AssertExchange("notifications", "topic", Durable),
      AssertExchange("dead-letter", "fanout", Durable)
    ]
  {
    InitialLedgerAssertsExchanges(ConfiguredExchanges);
  }
}
