/** The NestJS service: the same connection and ledger handling as the
    standalone clients, without a connected flag (its connection listeners
    only log), and with persistence forced on every publish. */
module Service {
  import opened Wrappers
  import opened Amqp
  import opened Broker
  import opened Topology
  import DeliveryPolicy

  /** The service's configured exchanges, in configuration order. */
  const ConfiguredExchanges: seq<Exchange> := [Exchange("events", "topic"), Exchange("commands", "direct")]

  class RabbitMQService {
    const uri: string
    const codec: Codec
    const broker: FakeBroker
    var connection: Option<ConnectionManager>
    var channelWrapper: ChannelWrapper?

    ghost predicate Valid()
      reads this
    {
      && (channelWrapper != null <==> connection.Some?)
      && (channelWrapper != null ==> channelWrapper.channel == broker)
    }

    constructor (uri: string, codec: Codec, broker: FakeBroker)
      ensures Valid()
      ensures this.uri == uri && this.codec == codec && this.broker == broker
      ensures connection.None? && channelWrapper == null
    {
      this.uri := uri;
      this.codec := codec;
      this.broker := broker;
      connection := None;
      channelWrapper := null;
    }

    /** `onModuleInit`: the connection manager and a channel wrapper whose
        setup runs `setupExchanges`; `waitError` is how `waitForConnect`
        settles. */
    method OnModuleInit(waitError: Option<string>) returns (r: Result<(), Error>)
      requires Valid()
      modifies this
      ensures Valid()
      ensures connection == Some(Topology.Connect(uri))
      ensures channelWrapper != null && fresh(channelWrapper)
      ensures channelWrapper.ledger == [ExchangeSetup(ConfiguredExchanges)]
      ensures r == if waitError.None? then Ok(()) else Err(ConnectFailed(waitError.value))
    {
      connection := Some(Topology.Connect(uri));
      channelWrapper := new ChannelWrapper(broker, ExchangeSetup(ConfiguredExchanges));
      if waitError.Some? {
        return Err(ConnectFailed(waitError.value));
      }
      r := Ok(());
    }

    /** `onModuleDestroy`: closes the channel wrapper, then the connection,
        skipping whichever is absent. */
    method OnModuleDestroy()
      requires Valid()
      modifies broker
      ensures broker.trace == old(broker.trace) + CloseSteps(channelWrapper != null, connection.Some?)
    {
      if channelWrapper != null {
        channelWrapper.Close();
      }
      if connection.Some? {
        broker.Apply(CloseConnection);
      }
    }

    /** `setupExchanges(channel)`: every configured exchange, durable, in order.
        The ledger entry `ExchangeSetup(ConfiguredExchanges)` that `OnModuleInit`
        registers stands for the closure calling this method; its replay runs
        the same loop, `Topology.SetupExchanges`, through `Topology.RunSetup`. */
    method SetupExchanges(channel: FakeBroker)
      modifies channel
      ensures channel.trace == old(channel.trace) + ExchangeAssertions(ConfiguredExchanges)
      ensures |channel.trace| == |old(channel.trace)| + |ConfiguredExchanges|
      ensures forall i :: 0 <= i < |ConfiguredExchanges| ==>
        channel.trace[|old(channel.trace)| + i] == AssertExchange(ConfiguredExchanges[i].name, ConfiguredExchanges[i].kind, Durable)
    {
      Topology.SetupExchanges(channel, ConfiguredExchanges);
    }

    /** `publish(exchange, routingKey, message, options)`: sends the encoded
        message with `persistent: true` whatever the options say; returns true
        or rethrows. */
    method Publish(exchange: string, routingKey: string, message: Json, options: Options) returns (r: Result<bool, Error>)
      requires Valid()
      modifies broker
      ensures channelWrapper == null ==> r == Err(NoChannel) && broker.trace == old(broker.trace)
      ensures channelWrapper != null ==> r == PublishVerdict(old(broker.trace), exchange)
      ensures channelWrapper != null ==> (broker.trace ==
        if r.Ok? then old(broker.trace) + [Action.Publish(exchange, routingKey, codec.encode(message), ForcedPersistent(options))]
        else old(broker.trace))
      ensures r.Ok? ==> r.value
    {
      if channelWrapper == null {
        return Err(NoChannel);
      }
      var buffer := codec.encode(message);
      r := channelWrapper.Publish(exchange, routingKey, buffer, ForcedPersistent(options));
    }

    method CreateQueue(queueName: string, exchange: string, routingKey: string, options: Options) returns (r: Result<(), Error>)
      requires Valid()
      modifies channelWrapper
      ensures r.Ok? <==> channelWrapper != null
      ensures r.Err? ==> r.error == NoChannel
      ensures channelWrapper != null ==>
        && channelWrapper.ledger == old(channelWrapper.ledger) + [QueueSetup(queueName, exchange, routingKey, options)]
        && LedgerActions(channelWrapper.ledger) == LedgerActions(old(channelWrapper.ledger))
             + [AssertQueue(queueName, QueueOptions(options)), BindQueue(queueName, exchange, routingKey)]
    {
      if channelWrapper == null {
        return Err(NoChannel);
      }
      channelWrapper.AddSetup(QueueSetup(queueName, exchange, routingKey, options));
      r := Ok(());
    }

    method Consume(queueName: string, onMessage: Json -> bool, options: Options) returns (r: Result<(), Error>)
      requires Valid()
      modifies channelWrapper
      ensures r.Ok? <==> channelWrapper != null
      ensures r.Err? ==> r.error == NoChannel
      ensures channelWrapper != null ==>
        && channelWrapper.ledger == old(channelWrapper.ledger) + [ConsumerSetup(queueName, onMessage, options)]
        && LedgerActions(channelWrapper.ledger) == LedgerActions(old(channelWrapper.ledger))
             + [AssertQueue(queueName, Durable), Action.Consume(queueName, options)]
        && Registered(channelWrapper.ledger, queueName, onMessage)
    {
      if channelWrapper == null {
        return Err(NoChannel);
      }
      channelWrapper.AddSetup(ConsumerSetup(queueName, onMessage, options));
      assert channelWrapper.ledger[|channelWrapper.ledger| - 1] == ConsumerSetup(queueName, onMessage, options);
      r := Ok(());
    }

    /** The callback the consumer that `Consume` registered for `queue` runs
        for each delivery on that queue: `onMessage` is the handler that
        registration carries. */
    method OnDelivery(queue: string, onMessage: Json -> bool, msg: Option<Delivery>)
      requires Valid() && channelWrapper != null
      requires Registered(channelWrapper.ledger, queue, onMessage)
      modifies broker
      ensures broker.trace == old(broker.trace) + DeliveryPolicy.DeliveryEffects(codec, onMessage, msg)
    {
      DeliveryPolicy.OnMessage(channelWrapper.channel, codec, onMessage, msg);
    }
  }
}
