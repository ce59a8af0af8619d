/** The consumer service's client: a connection manager with a connected flag
    driven by the connection's events, a channel wrapper whose setup asserts
    the configured exchanges, queue and consumer registration on the setup
    ledger, and publishing with persistence as an overridable default. */
module ConsumerClient {
  import opened Wrappers
  import opened Amqp
  import opened Broker
  import opened Topology
  import DeliveryPolicy

  class Client {
    const uri: string
    const exchanges: seq<Exchange>   // `Object.values(config.exchanges)`, in configuration order
    const codec: Codec
    const broker: FakeBroker         // the peer every channel of this client talks to
    var connection: Option<ConnectionManager>
    var channelWrapper: ChannelWrapper?
    var isConnected: bool
    var emitted: seq<ClientEvent>    // what the client's own emitter has emitted

    ghost predicate Valid()
      reads this
    {
      && (channelWrapper != null <==> connection.Some?)
      && (channelWrapper != null ==> channelWrapper.channel == broker)
      && (isConnected ==> connection.Some?)
      && isConnected == ConnectedAfter(emitted)
    }

    /** `createRabbitMQClient(config)`: nothing is connected yet. */
    constructor (uri: string, exchanges: seq<Exchange>, codec: Codec, broker: FakeBroker)
      ensures Valid()
      ensures this.uri == uri && this.exchanges == exchanges && this.codec == codec && this.broker == broker
      ensures connection.None? && channelWrapper == null && !isConnected && emitted == []
    {
      this.uri := uri;
      this.exchanges := exchanges;
      this.codec := codec;
      this.broker := broker;
      connection := None;
      channelWrapper := null;
      isConnected := false;
      emitted := [];
    }

    /** The connection's `connect` listener (registered by `Connect`). */
    method OnConnect()
      requires Valid() && connection.Some?
      modifies this
      ensures Valid()
      ensures isConnected && emitted == old(emitted) + [Connected]
      ensures connection == old(connection) && channelWrapper == old(channelWrapper)
    {
      isConnected := true;
      emitted := emitted + [Connected];
    }

    /** The connection's `disconnect` listener (registered by `Connect`). */
    method OnDisconnect(err: string)
      requires Valid() && connection.Some?
      modifies this
      ensures Valid()
      ensures !isConnected && emitted == old(emitted) + [Disconnected(err)]
      ensures connection == old(connection) && channelWrapper == old(channelWrapper)
    {
      isConnected := false;
      emitted := emitted + [Disconnected(err)];
    }

    method IsConnected() returns (b: bool)
      requires Valid()
      ensures b == isConnected
      ensures b <==> ConnectedAfter(emitted)
    {
      b := isConnected;
    }

    /** `connect()`: creates the connection manager and a channel wrapper whose
        only setup function is the exchange loop. `waitError` is how the
        library's `waitForConnect` settles: None when it resolves. */
    method Connect(waitError: Option<string>) returns (r: Result<bool, Error>)
      requires Valid()
      modifies this
      ensures Valid()
      ensures connection == Some(Topology.Connect(uri))
      ensures channelWrapper != null && fresh(channelWrapper)
      ensures channelWrapper.ledger == [ExchangeSetup(exchanges)]
      ensures isConnected == old(isConnected) && emitted == old(emitted)
      ensures r == if waitError.None? then Ok(true) else Err(ConnectFailed(waitError.value))
    {
      connection := Some(Topology.Connect(uri));
      channelWrapper := new ChannelWrapper(broker, ExchangeSetup(exchanges));
      if waitError.Some? {
        return Err(ConnectFailed(waitError.value));
      }
      r := Ok(true);
    }

    /** `close()`: the channel wrapper first, then the connection, each only
        if it was ever created. */
    method Close()
      requires Valid()
      modifies broker
      ensures broker.trace == old(broker.trace) + CloseSteps(channelWrapper != null, connection.Some?)
    {
      if channelWrapper != null {
        channelWrapper.Close();
      }
      if connection.Some? {
        broker.Apply(CloseConnection);
      }
    }

    /** `publish(exchange, routingKey, message, options)`: sends the encoded
        message with `persistent: true` unless the caller's options say
        otherwise; returns true, or rethrows what the channel threw. */
    method Publish(exchange: string, routingKey: string, message: Json, options: Options) returns (r: Result<bool, Error>)
      requires Valid()
      modifies broker
      ensures channelWrapper == null ==> r == Err(NoChannel) && broker.trace == old(broker.trace)
      ensures channelWrapper != null ==> r == PublishVerdict(old(broker.trace), exchange)
      ensures channelWrapper != null ==> (broker.trace ==
        if r.Ok? then old(broker.trace) + [Action.Publish(exchange, routingKey, codec.encode(message), DefaultPersistent(options))]
        else old(broker.trace))
      ensures r.Ok? ==> r.value
    {
      if channelWrapper == null {
        return Err(NoChannel);
      }
      var buffer := codec.encode(message);
      r := channelWrapper.Publish(exchange, routingKey, buffer, DefaultPersistent(options));
    }

    /** `createQueue(queueName, exchange, routingKey, options)`: registers a
        setup that asserts the queue (durable unless the options say otherwise)
        and then binds it. */
    method CreateQueue(queueName: string, exchange: string, routingKey: string, options: Options) returns (r: Result<(), Error>)
      requires Valid()
      modifies channelWrapper
      ensures r.Ok? <==> channelWrapper != null
      ensures r.Err? ==> r.error == NoChannel
      ensures channelWrapper != null ==>
        && channelWrapper.ledger == old(channelWrapper.ledger) + [QueueSetup(queueName, exchange, routingKey, options)]
        && LedgerActions(channelWrapper.ledger) == LedgerActions(old(channelWrapper.ledger))
             + [AssertQueue(queueName, QueueOptions(options)), BindQueue(queueName, exchange, routingKey)]
    {
      if channelWrapper == null {
        return Err(NoChannel);
      }
      channelWrapper.AddSetup(QueueSetup(queueName, exchange, routingKey, options));
      r := Ok(());
    }

    /** `consume(queueName, onMessage, options)`: registers a setup that
        asserts the queue durable and then starts a consumer whose callback
        is `DeliveryPolicy.OnMessage` with this handler and codec. */
    method Consume(queueName: string, onMessage: Json -> bool, options: Options) returns (r: Result<(), Error>)
      requires Valid()
      modifies channelWrapper
      ensures r.Ok? <==> channelWrapper != null
      ensures r.Err? ==> r.error == NoChannel
      ensures channelWrapper != null ==>
        && channelWrapper.ledger == old(channelWrapper.ledger) + [ConsumerSetup(queueName, onMessage, options)]
        && LedgerActions(channelWrapper.ledger) == LedgerActions(old(channelWrapper.ledger))
             + [AssertQueue(queueName, Durable), Action.Consume(queueName, options)]
        && Registered(channelWrapper.ledger, queueName, onMessage)
    {
      if channelWrapper == null {
        return Err(NoChannel);
      }
      channelWrapper.AddSetup(ConsumerSetup(queueName, onMessage, options));
      assert channelWrapper.ledger[|channelWrapper.ledger| - 1] == ConsumerSetup(queueName, onMessage, options);
      r := Ok(());
    }

    /** The callback the consumer that `Consume` registered for `queue` runs
        for each delivery on that queue: `onMessage` is the handler that
        registration carries. */
    method OnDelivery(queue: string, onMessage: Json -> bool, msg: Option<Delivery>)
      requires Valid() && channelWrapper != null
      requires Registered(channelWrapper.ledger, queue, onMessage)
      modifies broker
      ensures broker.trace == old(broker.trace) + DeliveryPolicy.DeliveryEffects(codec, onMessage, msg)
    {
      DeliveryPolicy.OnMessage(channelWrapper.channel, codec, onMessage, msg);
    }
  }
}
