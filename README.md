# Resilient RabbitMQ clients: a Dafny model

This project models the logic that the repository's three RabbitMQ clients own
themselves, on top of the `amqp-connection-manager` library:

- the consumer service's client (`rabbitmq-consumer/src/rabbitmq-client.js`),
- the publisher service's client (`rabbitmq-publisher/src/rabbitmq-client.js`) and
  its publisher (`rabbitmq-publisher/src/publisher.js`),
- the NestJS service (`centralized-service/src/rabbitmq/rabbitmq.service.ts`).

The broker is a fake (`Broker.FakeBroker`). It records every channel operation in
one trace: exchange and queue assertions, bindings, consumer starts, publishes,
acks, nacks and the two teardown steps. The consumer callback's call of the
application handler is recorded in the same trace, so the contracts can talk
about order. The fake refuses a publish to an exchange that no earlier action
asserted. The default exchange `""` always exists. `FakeBroker.Apply` records a
BindQueue to an exchange that was never asserted, where a real broker refuses
the bind.

The library's channel wrapper is a class (`Topology.ChannelWrapper`) that keeps
the setup ledger. The ledger is the sequence of setup functions the clients
register: the exchange loop given to `createChannel`, then one entry per
`createQueue` and per `consume` call. `LedgerActions` says what a replay does to a
channel. The library runs the ledger on every new channel, but that code is not
modelled. `ChannelWrapper.Replay` states it as an assumed contract: a replay runs
the ledger in order.

JSON encoding is a `Codec` pair of functions, and its `decode` may fail. The
random ids are a stream `idGen` that the publisher is built with. Timestamps, and
how `waitForConnect` settles, are method parameters. The connection's `connect`
and `disconnect` events are methods that the environment calls.

Main results:
- Replaying any ledger never binds or consumes a queue before asserting it
  (`Topology.LedgerAssertsQueuesFirst`).
- In the sequential model, where each consumer callback runs to its end before
  the next delivery is handled, each delivery is settled exactly once, in
  arrival order, and is never requeued (`DeliveryPolicy.EachDeliverySettledOnce`).
- For entries whose `options` is an object, a batch sends exactly one publish
  per successful entry, to that entry's route and in entry order, and each
  entry lands in exactly one of the two lists of the summary (`Publisher.BatchSends`, `Publisher.BatchFacts`,
  `Publisher.Publisher.PublishBatch`).

## Model

| member | source | states |
|---|---|---|
| `Amqp.DefaultPersistent` | rabbitmq-consumer/src/rabbitmq-client.js:58-61 | publish options carry `persistent: true` unless the caller set `persistent`, in which case the caller's value is kept; every other caller option is kept unchanged |
| `Amqp.ForcedPersistent` | centralized-service/src/rabbitmq/rabbitmq.service.ts:72 | publish options always carry `persistent: true`, even when the caller set it false; every other caller option is kept |
| `Amqp.ErrorMessage` | rabbitmq-publisher/src/rabbitmq-client.js:58-60 | the not-connected error's text is exactly "Not connected to RabbitMQ"; a connect error keeps the library's text unchanged, since it is rethrown as it came |
| `Topology.SetupActionsSpec` | rabbitmq-consumer/src/rabbitmq-client.js:76-108 | the exchange loop only asserts exchanges. A queue or consumer setup does exactly two things to its own queue: first it asserts the queue (durable unless the queue setup's options override it), then it binds it or starts the consumer. It asserts no exchange. The service's setups (rabbitmq.service.ts:98-134) are the same |
| `Topology.RunSetup` | rabbitmq-consumer/src/rabbitmq-client.js:30-108 | running one setup against a channel appends exactly that setup's actions to the channel's trace. For the exchange loop these are its assertions; for a queue setup, AssertQueue with the durable default and then BindQueue; for a consumer setup, a durable AssertQueue and then the consumer start with the caller's options. The service's closures (rabbitmq.service.ts:35-37, 98-104, 112-134) are the same |
| `Topology.ExchangeAssertionsSpec` | rabbitmq-consumer/src/rabbitmq-client.js:31-36 | the exchange loop produces one assertion per configured exchange, with options `{durable: true}`, in configuration order, and nothing else |
| `Topology.QueueOptions` | rabbitmq-consumer/src/rabbitmq-client.js:77 | a queue is asserted durable unless the caller's options set `durable`; the caller's options are all kept |
| `Topology.SetupExchanges` | rabbitmq-consumer/src/rabbitmq-client.js:30-37 | running the loop against a channel appends exactly the exchange assertions to its trace |
| `Topology.InitialLedgerAssertsExchanges` | rabbitmq-publisher/src/rabbitmq-client.js:29-39 | the setup that `createChannel` is given asserts every configured exchange, durable, in configuration order, and does nothing else |
| `Topology.QueueRegistration` | rabbitmq-consumer/src/rabbitmq-client.js:75-83 | registering a queue adds AssertQueue (with the durable default) and then BindQueue(queue, exchange, routingKey) to the end of what a replay does |
| `Topology.ConsumerRegistration` | rabbitmq-consumer/src/rabbitmq-client.js:85-109 | registering a consumer adds AssertQueue(queue, durable) and then Consume(queue, options) to the end of what a replay does |
| `Topology.LedgerAssertsQueuesFirst` | rabbitmq-consumer/src/rabbitmq-client.js:75-109 | for every ledger the clients can build, each BindQueue or Consume on a queue comes after an AssertQueue of that queue in the replay |
| `Topology.ReplayIdempotent` | rabbitmq-consumer/src/rabbitmq-client.js:29-38 | running the ledger a second time declares no exchange that the first run did not declare |
| `Topology.Connect` | rabbitmq-consumer/src/rabbitmq-client.js:12-15 | the connection manager is created with the one configured URI, a 5 s heartbeat and a 5 s reconnect time |
| `Topology.CloseSteps` | rabbitmq-publisher/src/rabbitmq-client.js:50-54 | teardown closes the channel wrapper exactly when it exists and the connection exactly when it exists, and the wrapper comes first |
| `Topology.ChannelWrapper.constructor` | rabbitmq-consumer/src/rabbitmq-client.js:29-38 | a new wrapper's ledger holds only the setup function that it was created with |
| `Topology.ChannelWrapper.AddSetup` | rabbitmq-consumer/src/rabbitmq-client.js:76 | the ledger only grows: the new setup function is appended, and a replay then does the old actions followed by the new ones |
| `Topology.ChannelWrapper.Replay` | rabbitmq-consumer/src/rabbitmq-client.js:29-38 | the assumed library contract: a replay appends the actions of every ledger entry to the channel's trace, in registration order |
| `Topology.ChannelWrapper.Publish` | rabbitmq-consumer/src/rabbitmq-client.js:58-61 | the wrapper hands a publish directly to the channel and returns the broker's answer; it is recorded only if accepted |
| `Topology.ChannelWrapper.Close` | rabbitmq-consumer/src/rabbitmq-client.js:50 | closing the wrapper appends CloseChannel to the trace |
| `DeliveryPolicy.Decision` | rabbitmq-consumer/src/rabbitmq-client.js:91-102 | a delivery is acked exactly when it decodes and the handler completes; otherwise it is nacked with allUpTo = false and requeue = false |
| `DeliveryPolicy.DeliveryEffects` | rabbitmq-consumer/src/rabbitmq-client.js:90-104 | a null delivery does nothing. Otherwise: Ack(m) happens iff decode and handler both succeed; a nack happens iff one of them fails, and it is never requeued and never multiple; the handler runs iff decode succeeds, and it gets the decoded payload; every ack comes after the handler ran; the last action is the delivery's decision |
| `DeliveryPolicy.OnMessage` | centralized-service/src/rabbitmq/rabbitmq.service.ts:116-130 | the consumer callback appends exactly the delivery's effects to the channel's trace |
| `DeliveryPolicy.EachDeliverySettledOnce` | rabbitmq-consumer/src/rabbitmq-client.js:90-104 | over any stream of deliveries, the acks and nacks are exactly one decision per non-null delivery, in arrival order; a null delivery gets none |
| `DeliveryPolicy.FailClosedConsumption` | rabbitmq-consumer/src/rabbitmq-client.js:93-101 | take a handler that throws on a first message and completes on a second: the trace settles them as Nack(first, false, false) and then Ack(second) |
| `DeliveryPolicy.PublishedMessageReachesHandler` | rabbitmq-consumer/src/rabbitmq-client.js:93-95 | take a codec that reads back what it writes: a published payload reaches the handler as published and is acked exactly when the handler completes |
| `ConsumerClient.Client.constructor` | rabbitmq-consumer/src/rabbitmq-client.js:5-8 | a new client has no connection and no channel wrapper, the connected flag is false and nothing has been emitted |
| `ConsumerClient.Client.OnConnect` | rabbitmq-consumer/src/rabbitmq-client.js:17-21 | the flag becomes true and `connected` is re-emitted; the invariant "flag == the last emitted event was connected" is kept |
| `ConsumerClient.Client.OnDisconnect` | rabbitmq-consumer/src/rabbitmq-client.js:23-27 | the flag becomes false and `disconnected` is re-emitted with the error; the invariant is kept |
| `ConsumerClient.Client.IsConnected` | rabbitmq-consumer/src/rabbitmq-client.js:119 | returns the flag, which is true exactly when the last emitted event was `connected` |
| `ConsumerClient.Client.Connect` | rabbitmq-consumer/src/rabbitmq-client.js:10-47 | creates the connection manager and a fresh wrapper whose ledger is the exchange setup alone; returns true, or rethrows when `waitForConnect` rejects |
| `ConsumerClient.Client.Close` | rabbitmq-consumer/src/rabbitmq-client.js:49-53 | closes the wrapper and then the connection, skipping each one that was never created |
| `ConsumerClient.Client.Publish` | rabbitmq-consumer/src/rabbitmq-client.js:55-73 | sends the encoded message with `persistent: true` as an overridable default. Returns true when the broker accepts it, otherwise rethrows and sends nothing; with no wrapper it throws |
| `ConsumerClient.Client.CreateQueue` | rabbitmq-consumer/src/rabbitmq-client.js:75-83 | appends the queue setup to the ledger. A replay then asserts the queue before binding it |
| `ConsumerClient.Client.Consume` | rabbitmq-consumer/src/rabbitmq-client.js:85-109 | appends the consumer setup, which carries the caller's handler for that queue, to the ledger. A replay then asserts the queue durable before starting the consumer |
| `ConsumerClient.Client.OnDelivery` | rabbitmq-consumer/src/rabbitmq-client.js:90-104 | the callback runs a handler that a `consume` call registered for that queue, and applies the delivery outcome policy with this client's codec |
| `PublisherClient.Client.constructor` | rabbitmq-publisher/src/rabbitmq-client.js:5-8 | a new client has no connection and no wrapper, and the connected flag is false |
| `PublisherClient.Client.OnConnect` | rabbitmq-publisher/src/rabbitmq-client.js:17-21 | the flag becomes true and `connected` is re-emitted |
| `PublisherClient.Client.OnDisconnect` | rabbitmq-publisher/src/rabbitmq-client.js:23-27 | the flag becomes false and `disconnected` is re-emitted with the error |
| `PublisherClient.Client.IsConnected` | rabbitmq-publisher/src/rabbitmq-client.js:86 | returns the flag, which is true exactly when the last emitted event was `connected` |
| `PublisherClient.Client.Connect` | rabbitmq-publisher/src/rabbitmq-client.js:10-48 | creates the connection manager and a fresh wrapper whose ledger is the exchange setup alone; returns true, or rethrows |
| `PublisherClient.Client.Close` | rabbitmq-publisher/src/rabbitmq-client.js:50-54 | closes the wrapper and then the connection, skipping each one that was never created |
| `PublisherClient.Client.Publish` | rabbitmq-publisher/src/rabbitmq-client.js:56-78 | while disconnected it throws "Not connected to RabbitMQ" and sends nothing. When connected it sends with the overridable `persistent: true` default and returns true, or rethrows the channel's error |
| `PublisherClient.ConfiguredSetup` | rabbitmq-publisher/src/rabbitmq-client.js:31-37 | with the publisher's configuration, the setup asserts events, commands, notifications and dead-letter, durable, in that order |
| `Service.RabbitMQService.constructor` | centralized-service/src/rabbitmq/rabbitmq.service.ts:16-17 | the service starts with no connection and no channel wrapper |
| `Service.RabbitMQService.OnModuleInit` | centralized-service/src/rabbitmq/rabbitmq.service.ts:19-46 | creates the connection manager and a fresh wrapper whose setup is `setupExchanges`; rethrows when `waitForConnect` rejects |
| `Service.RabbitMQService.OnModuleDestroy` | centralized-service/src/rabbitmq/rabbitmq.service.ts:48-52 | closes the wrapper and then the connection, and tolerates either one being absent |
| `Service.RabbitMQService.SetupExchanges` | centralized-service/src/rabbitmq/rabbitmq.service.ts:54-61 | asserts every configured exchange with `durable: true`, in configuration order |
| `Service.RabbitMQService.Publish` | centralized-service/src/rabbitmq/rabbitmq.service.ts:63-90 | sends the encoded message with `persistent: true` forced over the caller's options. Returns true, or rethrows and sends nothing |
| `Service.RabbitMQService.CreateQueue` | centralized-service/src/rabbitmq/rabbitmq.service.ts:92-105 | appends the queue setup. A replay asserts the queue (durable by default) before binding it |
| `Service.RabbitMQService.Consume` | centralized-service/src/rabbitmq/rabbitmq.service.ts:107-135 | appends the consumer setup, which carries the caller's handler for that queue. A replay asserts the queue durable before consuming from it |
| `Service.RabbitMQService.OnDelivery` | centralized-service/src/rabbitmq/rabbitmq.service.ts:116-130 | the callback runs a handler that a `consume` call registered for that queue. It acks only after the handler completes, nacks (false, false) on a decode or handler failure, and ignores null |
| `Publisher.EventEnvelope` | rabbitmq-publisher/src/publisher.js:24-29 | the event envelope has exactly the fields type, data, timestamp and id, holding the given values |
| `Publisher.CommandEnvelope` | rabbitmq-publisher/src/publisher.js:42-47 | the command envelope has exactly the fields command, data, timestamp and id |
| `Publisher.NotificationEnvelope` | rabbitmq-publisher/src/publisher.js:60-65 | the notification envelope has exactly the fields userId, notification, timestamp and id |
| `Publisher.NotificationKey` | rabbitmq-publisher/src/publisher.js:69 | a notification's routing key is "user." followed by the user id |
| `Publisher.ResolveId` | rabbitmq-publisher/src/publisher.js:23 | the id is the caller's `messageId` when it is truthy, otherwise the generated one; a non-empty generated id gives a truthy id |
| `Publisher.Route` | rabbitmq-publisher/src/publisher.js:84-101 | "event" goes to the events exchange keyed by the event type, "command" to commands keyed by the command name, and "notification" to notifications keyed by `user.<id>`. Any other type uses the entry's own exchange and routing key |
| `Publisher.SummaryPartition` | rabbitmq-publisher/src/publisher.js:112-118 | results plus errors count every entry once, and the error list is empty exactly when every entry was published |
| `Publisher.Summary` | rabbitmq-publisher/src/publisher.js:112-119 | successful = number of results and failed = number of errors; success holds exactly when no entry failed |
| `Publisher.Publisher.constructor` | rabbitmq-publisher/src/publisher.js:1 | a new publisher has made no id-generator calls |
| `Publisher.Publisher.GenerateId` | rabbitmq-publisher/src/publisher.js:123-128 | each call returns the next value of the id stream |
| `Publisher.Publisher.MessageIdFor` | rabbitmq-publisher/src/publisher.js:23 | `options.messageId || generateId()`: generates an id only when the caller's id is falsy |
| `Publisher.Publisher.PublishMessage` | rabbitmq-publisher/src/publisher.js:3-19 | on success returns {success: true, exchange, routingKey, messageId}, with the caller's id or a generated one. On failure it rethrows the client's error and generates no id |
| `Publisher.Publisher.PublishEvent` | rabbitmq-publisher/src/publisher.js:22-37 | publishes the event envelope to the events exchange with the type as routing key. The envelope's id is passed on as the `messageId` option and is returned whenever it is truthy. One id is drawn when the caller gave no truthy id, and a second one only after a successful publish whose id is falsy. A failure sends nothing |
| `Publisher.Publisher.PublishCommand` | rabbitmq-publisher/src/publisher.js:40-55 | the same for commands: the commands exchange, with the command name as routing key, and the same id draws |
| `Publisher.Publisher.PublishNotification` | rabbitmq-publisher/src/publisher.js:58-73 | the same for notifications: the notifications exchange, with routing key `user.<userId>`, and the same id draws |
| `Publisher.EntryAttempted` | rabbitmq-publisher/src/publisher.js:80-109 | an entry's outcome succeeds exactly when the client accepts its exchange. A failure carries the client's error; a success reports the entry's route |
| `Publisher.EntryActionSpec` | rabbitmq-publisher/src/publisher.js:84-101 | an accepted entry sends one publish to its route, with `persistent: true` as the overridable default |
| `Publisher.EntryIdSpec` | rabbitmq-publisher/src/publisher.js:22-37 | an envelope carries its id both in its body and as the `messageId` option. A truthy caller id is the id everywhere, and no id is drawn. Otherwise the envelope's id is the next drawn one, and the result reports it when it is not empty. A plain message that fails draws no id, and no entry draws more than two |
| `Publisher.EntryRunSpec` | rabbitmq-publisher/src/publisher.js:80-103 | one entry sends one publish, to its route, exactly when its outcome is a success, and sends nothing otherwise; it draws at most two ids and reports a truthy caller id |
| `Publisher.BatchStepSpec` | rabbitmq-publisher/src/publisher.js:84-101 | the per-entry step of the batch, against a client with a fixed connected flag and fixed asserted exchanges, has the per-entry properties for every entry, position and id count |
| `Publisher.BatchLength` | rabbitmq-publisher/src/publisher.js:80-110 | a batch run has exactly one outcome per entry |
| `Publisher.BatchOutcomes` | rabbitmq-publisher/src/publisher.js:80-110 | the i-th outcome of a batch is the outcome of the i-th entry against the client's answer for that entry's exchange; no failure stops the later entries |
| `Publisher.BatchSends` | rabbitmq-publisher/src/publisher.js:80-110 | what a batch sends is exactly one publish per successful entry, to that entry's route, in entry order |
| `Publisher.BatchIds` | rabbitmq-publisher/src/publisher.js:80-110 | a batch of k entries draws between 0 and 2k ids, and every successful entry with a truthy caller id reports that id |
| `Publisher.SendsCount` | rabbitmq-publisher/src/publisher.js:103-117 | the number of publishes sent equals the number of results |
| `Publisher.BatchFacts` | rabbitmq-publisher/src/publisher.js:76-120 | for the summary of a batch run: total = number of entries, and successful + failed = total; success holds iff every entry succeeded; one publish is sent per success; each outcome is its entry's |
| `Publisher.Publisher.PublishEntry` | rabbitmq-publisher/src/publisher.js:82-101 | one batch entry dispatched by its type. The outcome, the id counter and the broker's new trace are those of `Entry`: on failure the trace is unchanged, and on success it gains the one publish to the entry's route |
| `Publisher.Publisher.PublishBatch` | rabbitmq-publisher/src/publisher.js:76-120 | the entries are attempted once each, in order. The broker's new trace is the old one followed by what `Batch` sends, and the outcomes and id counter are `Batch`'s. The summary lists the results of the successes and the failures with their entry and error text, and counts them |

## Left out

- Library internals. These live in `amqp-connection-manager` and `amqplib`, which are not part of this model: reconnect and backoff, heartbeats, deciding when to replay the ledger, running a setup at once when `addSetup` is called on a live channel, and `waitForConnect`. `waitForConnect` survives only as the `waitError` parameter of `Connect` and `OnModuleInit`.
- Publish buffering in the library. The consumer client and the service do not check the connection, and the model lets the fake channel answer their publishes at once.
- Async interleaving and concurrency between queues. Each call is one sequential step.
- Logging (`console`, the NestJS `Logger`). The service's `connect` and `disconnect` listeners only log, so the service has no connected flag.
- Listener registration through `on` and `off`. The emitter is reduced to the list of events it emitted.
- The text of the TypeError thrown when a method runs before `connect`. It is modelled as the single error `NoChannel`.
- JSON details. Encoding and decoding stay abstract. Encoding a `Json` value never fails, so the stringify-failure path is not modelled. Numbers are integers.
- The case where `channel.ack` itself throws and the message is then also nacked. The model assumes ack does not throw.
- Failures of the library's own `close()`. Each close step is assumed to succeed.
- ConsumerClient.Client.CreateQueue: returns success whenever a wrapper exists. A setup that the library runs at once and that rejects is not modelled. The same holds for ConsumerClient.Client.Consume, Service.RabbitMQService.CreateQueue and Service.RabbitMQService.Consume.
- Publisher.Publisher.PublishEvent, Publisher.Publisher.PublishCommand and Publisher.Publisher.PublishNotification: `eventType`, `commandName` and `userId` are modelled as strings, in batches and in direct calls. The code accepts any value there, so an envelope whose `userId` is a number (with routing key `user.42`), and batch entries with missing fields (read as empty strings, JNull or `{}`, not as `user.undefined`), are not captured.
- The format of generated ids (base-36 digits of `Math.random`). An id is any value of the `idGen` stream.
- HTTP routes, server bootstrap, configuration loading, NestJS modules and the example message handlers. These are glue, and the configured exchange lists appear only as example data.
- Publisher.Publisher.PublishBatch and Publisher.Publisher.PublishEntry: an entry whose `options` is `null`, or an entry that is itself `null`, cannot be expressed, because `options` is a map and an entry a record. In the code such a plain entry is sent and then fails when `options.messageId` is read, so it is filed under `errors` although the broker holds its publish; such an event, command or notification entry fails before sending and draws no id; a `null` entry fails on `msg.type`. The promise "one publish per successful entry" holds only for entries whose `options` is an object.
- Conflict detection between declarations, duplicate-subscription checks, a `replayFailed` event and a FIFO buffer of pending publishes: the code has none of them.
- DeliveryPolicy.EachDeliverySettledOnce: holds in the sequential model only. The callback is async and no prefetch limit is set, so two callbacks on one queue can overlap and settle out of arrival order; the model does not capture that.
- Amqp.ErrorMessage: the texts for NoChannel and ExchangeNotFound are placeholders. They stand for the runtime's TypeError and the broker's NOT_FOUND reply, whose wording the code does not fix.
- The fake broker's rule of refusing a publish to an unasserted exchange is a modelling choice. It gives the batch realistic partial failures; a real broker refuses such a publish by closing the channel.
