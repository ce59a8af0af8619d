/** The publisher: envelopes for events, commands and notifications, the
    exchange and routing key each goes to, the message id threaded from the
    caller's options (or generated) into the envelope and the result, and
    batch publishing with a per-message summary. */
module Publisher {
  import opened Wrappers
  import opened Amqp
  import opened Broker
  import opened PublisherClient

  /** What a successful publish returns. */
  datatype PublishResult = PublishResult(success: bool, exchange: string, routingKey: string, messageId: Json)

  /** `config.rabbitmq.exchanges.{events,commands,notifications}.name`. */
  datatype ExchangeNames = ExchangeNames(events: string, commands: string, notifications: string)

  /** One entry of a batch; a missing field is the empty string, JNull or `{}`. */
  datatype BatchMessage = BatchMessage(
    kind: string,            // `msg.type`
    eventType: string,
    commandName: string,
    userId: string,
    exchange: string,
    routingKey: string,
    data: Json,
    notification: Json,
    message: Json,
    options: Options)

  datatype BatchError = BatchError(message: BatchMessage, error: string)

  datatype BatchSummary = BatchSummary(
    success: bool,
    results: seq<PublishResult>,
    errors: seq<BatchError>,
    total: nat,
    successful: nat,
    failed: nat)

  /** `{ type, data, timestamp, id }`. */
  function EventEnvelope(eventType: string, data: Json, timestamp: string, id: Json): (j: Json)
    ensures j.JObj? && j.fields.Keys == {"type", "data", "timestamp", "id"}
    ensures j.fields["type"] == JStr(eventType) && j.fields["data"] == data
    ensures j.fields["timestamp"] == JStr(timestamp) && j.fields["id"] == id
  {
    JObj(map["type" := JStr(eventType), "data" := data, "timestamp" := JStr(timestamp), "id" := id])
  }

  /** `{ command, data, timestamp, id }`. */
  function CommandEnvelope(commandName: string, data: Json, timestamp: string, id: Json): (j: Json)
    ensures j.JObj? && j.fields.Keys == {"command", "data", "timestamp", "id"}
    ensures j.fields["command"] == JStr(commandName) && j.fields["data"] == data
    ensures j.fields["timestamp"] == JStr(timestamp) && j.fields["id"] == id
  {
    JObj(map["command" := JStr(commandName), "data" := data, "timestamp" := JStr(timestamp), "id" := id])
  }

  /** `{ userId, notification, timestamp, id }`. */
  function NotificationEnvelope(userId: string, notification: Json, timestamp: string, id: Json): (j: Json)
    ensures j.JObj? && j.fields.Keys == {"userId", "notification", "timestamp", "id"}
    ensures j.fields["userId"] == JStr(userId) && j.fields["notification"] == notification
    ensures j.fields["timestamp"] == JStr(timestamp) && j.fields["id"] == id
  {
    JObj(map["userId" := JStr(userId), "notification" := notification, "timestamp" := JStr(timestamp), "id" := id])
  }

  /** The routing key of a notification: `user.<userId>`. */
  function NotificationKey(userId: string): (k: string)
    ensures |k| == |userId| + 5
    ensures k[..5] == "user." && k[5..] == userId
  {
    "user." + userId
  }

  /** `options.messageId || generateId()`, where `generated` is the id the
      call to `generateId` would return. */
  function ResolveId(options: Options, generated: string): (id: Json)
    ensures Truthy(Get(options, "messageId")) ==> id == options["messageId"]
    ensures !Truthy(Get(options, "messageId")) ==> id == JStr(generated)
    ensures generated != "" ==> Truthy(id)
  {
    if Truthy(Get(options, "messageId")) then options["messageId"] else JStr(generated)
  }

  /** The exchange and routing key `publishBatch` sends an entry to. */
  function Route(names: ExchangeNames, m: BatchMessage): (r: (string, string))
    ensures m.kind == "event" ==> r == (names.events, m.eventType)
    ensures m.kind == "command" ==> r == (names.commands, m.commandName)
    ensures m.kind == "notification" ==> r == (names.notifications, NotificationKey(m.userId))
    ensures m.kind != "event" && m.kind != "command" && m.kind != "notification" ==> r == (m.exchange, m.routingKey)
  {
    if m.kind == "event" then (names.events, m.eventType)
    else if m.kind == "command" then (names.commands, m.commandName)
    else if m.kind == "notification" then (names.notifications, NotificationKey(m.userId))
    else (m.exchange, m.routingKey)
  }

  /** The results of the entries that were published, in order. */
  function Successes(outcomes: seq<Result<PublishResult, Error>>): seq<PublishResult>
  {
    if outcomes == [] then []
    else
      var last := outcomes[|outcomes| - 1];
      Successes(outcomes[..|outcomes| - 1]) + (if last.Ok? then [last.value] else [])
  }

  /** The entries among the first `|outcomes|` that failed, each with its
      error text, in order. */
  function Failures(messages: seq<BatchMessage>, outcomes: seq<Result<PublishResult, Error>>): seq<BatchError>
    requires |outcomes| <= |messages|
  {
    if outcomes == [] then []
    else
      var k := |outcomes| - 1;
      Failures(messages, outcomes[..k])
        + (if outcomes[k].Err? then [BatchError(messages[k], ErrorMessage(outcomes[k].error))] else [])
  }

  /** Every entry lands in exactly one of the two lists, and the error list is
      empty exactly when every entry was published. */
  lemma {:induction false} SummaryPartition(messages: seq<BatchMessage>, outcomes: seq<Result<PublishResult, Error>>)
    requires |outcomes| <= |messages|
    ensures |Successes(outcomes)| + |Failures(messages, outcomes)| == |outcomes|
    ensures |Failures(messages, outcomes)| == 0 <==> forall i :: 0 <= i < |outcomes| ==> outcomes[i].Ok?
  {
    if outcomes != [] {
      var k := |outcomes| - 1;
      SummaryPartition(messages, outcomes[..k]);
      assert forall i :: 0 <= i < k ==> outcomes[..k][i] == outcomes[i];
    }
  }

  /** What one more entry adds to the two lists. */
  lemma SummaryStep(messages: seq<BatchMessage>, outcomes: seq<Result<PublishResult, Error>>, o: Result<PublishResult, Error>)
    requires |outcomes| < |messages|
    ensures Successes(outcomes + [o]) == Successes(outcomes) + (if o.Ok? then [o.value] else [])
    ensures Failures(messages, outcomes + [o])
         == Failures(messages, outcomes) + (if o.Err? then [BatchError(messages[|outcomes|], ErrorMessage(o.error))] else [])
  {
    assert (outcomes + [o])[..|outcomes|] == outcomes;
  }

  /** The summary `publishBatch` builds from its two lists. */
  function Summary(total: nat, results: seq<PublishResult>, errors: seq<BatchError>): (s: BatchSummary)
    ensures s.results == results && s.errors == errors
    ensures s.total == total && s.successful == |results| && s.failed == |errors|
    ensures s.success <==> errors == []
  {
    BatchSummary(|errors| == 0, results, errors, total, |results|, |errors|)
  }

  /** Entry `m` was attempted and got outcome `o`, where `verdict` is what the
      client answered for the entry's exchange: the outcome succeeds exactly
      when the client accepted, carries the client's error otherwise, and a
      success reports the entry's route. */
  predicate Attempted(names: ExchangeNames, m: BatchMessage, verdict: Result<bool, Error>, o: Result<PublishResult, Error>) {
    && (o.Ok? <==> verdict.Ok?)
    && (o.Err? ==> verdict.Err? && o.error == verdict.error)
    && (o.Ok? ==> o.value.success && (o.value.exchange, o.value.routingKey) == Route(names, m))
  }

  /** Entries of type event, command and notification are wrapped in an
      envelope that carries a message id; any other entry is published as is. */
  predicate IsEnvelope(m: BatchMessage) {
    m.kind == "event" || m.kind == "command" || m.kind == "notification"
  }

  /** How many ids an entry draws before it publishes: one for an envelope
      whose caller gave no truthy `messageId`, none otherwise. */
  function FirstDraws(m: BatchMessage): nat {
    if IsEnvelope(m) && !Truthy(Get(m.options, "messageId")) then 1 else 0
  }

  /** The id an envelope carries when `n` ids had been drawn before it. */
  function EntryId(m: BatchMessage, idGen: nat -> string, n: nat): Json {
    ResolveId(m.options, idGen(n))
  }

  /** The options the entry is handed to `publishMessage` with. */
  function EntryOptions(m: BatchMessage, idGen: nat -> string, n: nat): Options {
    if IsEnvelope(m) then WithForced(m.options, "messageId", EntryId(m, idGen, n)) else m.options
  }

  /** The message the entry publishes. */
  function EntryPayload(m: BatchMessage, timestamp: string, idGen: nat -> string, n: nat): Json {
    if m.kind == "event" then EventEnvelope(m.eventType, m.data, timestamp, EntryId(m, idGen, n))
    else if m.kind == "command" then CommandEnvelope(m.commandName, m.data, timestamp, EntryId(m, idGen, n))
    else if m.kind == "notification" then NotificationEnvelope(m.userId, m.notification, timestamp, EntryId(m, idGen, n))
    else m.message
  }

  /** What the broker records when the entry is accepted. */
  function EntryAction(names: ExchangeNames, codec: Codec, m: BatchMessage, timestamp: string, idGen: nat -> string, n: nat): Action {
    Action.Publish(Route(names, m).0, Route(names, m).1,
      codec.encode(EntryPayload(m, timestamp, idGen, n)), DefaultPersistent(EntryOptions(m, idGen, n)))
  }

  /** What the broker records for the entry: its publish when accepted,
      nothing otherwise. */
  function EntrySent(names: ExchangeNames, codec: Codec, m: BatchMessage, timestamp: string, idGen: nat -> string, n: nat, accepted: bool): seq<Action> {
    if accepted then [EntryAction(names, codec, m, timestamp, idGen, n)] else []
  }

  /** What `publishMessage` returns for the accepted entry. */
  function EntryResult(names: ExchangeNames, m: BatchMessage, idGen: nat -> string, n: nat): PublishResult {
    PublishResult(true, Route(names, m).0, Route(names, m).1,
      ResolveId(EntryOptions(m, idGen, n), idGen(n + FirstDraws(m))))
  }

  /** The entry's outcome, given the client's answer for its exchange. */
  function EntryOutcome(names: ExchangeNames, m: BatchMessage, idGen: nat -> string, n: nat, verdict: Result<bool, Error>): Result<PublishResult, Error> {
    if verdict.Ok? then Ok(EntryResult(names, m, idGen, n)) else Err(verdict.error)
  }

  /** The id counter after the entry: the second draw, for the result's id,
      happens only after an accepted publish whose options carry no truthy id. */
  function EntryIdCalls(m: BatchMessage, idGen: nat -> string, n: nat, accepted: bool): nat {
    n + FirstDraws(m) + (if accepted && !Truthy(Get(EntryOptions(m, idGen, n), "messageId")) then 1 else 0)
  }

  /** An entry's outcome has the shape `Attempted` describes. */
  lemma EntryAttempted(names: ExchangeNames, m: BatchMessage, idGen: nat -> string, n: nat, verdict: Result<bool, Error>)
    requires verdict.Ok? ==> verdict.value
    ensures Attempted(names, m, verdict, EntryOutcome(names, m, idGen, n, verdict))
  {
  }

  /** What an accepted entry sends goes to the entry's route, with
      `persistent` defaulted on. */
  lemma EntryActionSpec(names: ExchangeNames, codec: Codec, m: BatchMessage, timestamp: string, idGen: nat -> string, n: nat)
    ensures var a := EntryAction(names, codec, m, timestamp, idGen, n);
      && a.Publish? && (a.exchange, a.routingKey) == Route(names, m)
      && "persistent" in a.options
      && a.options["persistent"] == (if "persistent" in m.options then m.options["persistent"] else JBool(true))
  {
  }

  /** The message id of one entry: an envelope carries its id both in its
      body and as the `messageId` option; a truthy caller id is the id
      everywhere and no id is drawn; otherwise the envelope's id is the next
      drawn one, and the result reports it when it is not empty; at most two
      ids are drawn, and none by a plain message. */
  lemma EntryIdSpec(names: ExchangeNames, m: BatchMessage, timestamp: string, idGen: nat -> string, n: nat, accepted: bool)
    ensures IsEnvelope(m) ==>
      && EntryPayload(m, timestamp, idGen, n).JObj?
      && EntryPayload(m, timestamp, idGen, n).fields["id"] == EntryId(m, idGen, n)
      && EntryOptions(m, idGen, n)["messageId"] == EntryId(m, idGen, n)
    ensures IsEnvelope(m) && !Truthy(Get(m.options, "messageId")) ==> EntryId(m, idGen, n) == JStr(idGen(n))
    ensures Truthy(Get(m.options, "messageId")) ==>
      && EntryResult(names, m, idGen, n).messageId == m.options["messageId"]
      && EntryIdCalls(m, idGen, n, accepted) == n
    ensures IsEnvelope(m) && idGen(n) != "" ==> EntryResult(names, m, idGen, n).messageId == EntryId(m, idGen, n)
    ensures !IsEnvelope(m) ==> EntryIdCalls(m, idGen, n, false) == n
    ensures n <= EntryIdCalls(m, idGen, n, accepted) <= n + 2
  {
  }

  /** One entry, run: what the broker records, the outcome, and the id
      counter afterwards. */
  datatype EntryRun = EntryRun(sent: seq<Action>, outcome: Result<PublishResult, Error>, idCalls: nat)

  /** One entry against a client that answers `verdict` for the entry's
      exchange, with `n` ids drawn before it. */
  function Entry(names: ExchangeNames, codec: Codec, idGen: nat -> string, verdict: Result<bool, Error>,
                 m: BatchMessage, timestamp: string, n: nat): EntryRun
  {
    EntryRun(EntrySent(names, codec, m, timestamp, idGen, n, verdict.Ok?),
             EntryOutcome(names, m, idGen, n, verdict),
             EntryIdCalls(m, idGen, n, verdict.Ok?))
  }

  /** `sent` is one publish per route of `routes`, to that route, in order. */
  ghost predicate PublishesTo(sent: seq<Action>, routes: seq<(string, string)>) {
    && |sent| == |routes|
    && forall k :: 0 <= k < |sent| ==> sent[k].Publish? && (sent[k].exchange, sent[k].routingKey) == routes[k]
  }

  lemma PublishesToAppend(sent1: seq<Action>, routes1: seq<(string, string)>, sent2: seq<Action>, routes2: seq<(string, string)>)
    requires PublishesTo(sent1, routes1) && PublishesTo(sent2, routes2)
    ensures PublishesTo(sent1 + sent2, routes1 + routes2)
  {
    forall k | 0 <= k < |sent1| + |sent2|
      ensures (sent1 + sent2)[k].Publish? && ((sent1 + sent2)[k].exchange, (sent1 + sent2)[k].routingKey) == (routes1 + routes2)[k]
    {
      if k >= |sent1| {
        assert (sent1 + sent2)[k] == sent2[k - |sent1|] && (routes1 + routes2)[k] == routes2[k - |sent1|];
      }
    }
  }

  /** One entry sends one publish, to its route, exactly when its outcome is
      a success; its outcome has the shape `Attempted` describes; a truthy
      caller id is the result's id; it draws at most two ids. */
  lemma EntryRunSpec(names: ExchangeNames, codec: Codec, idGen: nat -> string, verdict: Result<bool, Error>,
                     m: BatchMessage, timestamp: string, n: nat)
    requires verdict.Ok? ==> verdict.value
    ensures var e := Entry(names, codec, idGen, verdict, m, timestamp, n);
      && Attempted(names, m, verdict, e.outcome)
      && PublishesTo(e.sent, if e.outcome.Ok? then [Route(names, m)] else [])
      && n <= e.idCalls <= n + 2
      && (e.outcome.Ok? && Truthy(Get(m.options, "messageId")) ==> e.outcome.value.messageId == m.options["messageId"])
  {
    EntryAttempted(names, m, idGen, n, verdict);
    EntryActionSpec(names, codec, m, timestamp, idGen, n);
    EntryIdSpec(names, m, timestamp, idGen, n, verdict.Ok?);
  }

  /** The per-entry step of `publishBatch` for a client whose flag is
      `connected` and whose broker asserted what `t` asserted, entry `k` being
      timestamped `clock(k)`. */
  function BatchStep(names: ExchangeNames, codec: Codec, idGen: nat -> string, connected: bool, t: seq<Action>,
                     clock: nat -> string): (BatchMessage, nat, nat) -> EntryRun
  {
    (m: BatchMessage, k: nat, n: nat) => Entry(names, codec, idGen, GatedVerdict(connected, t, Route(names, m).0), m, clock(k), n)
  }

  /** A whole batch: the publishes the broker records, the outcome of every
      entry and the id counter after the last one. */
  datatype BatchRun = BatchRun(sent: seq<Action>, outcomes: seq<Result<PublishResult, Error>>, idCalls: nat)

  /** The batch loop over the first `count` entries, `step(m, k, n)` being
      what entry `m` at index `k` does with `n` ids drawn before it, and `n`
      the ids drawn before the batch. */
  function Batch(step: (BatchMessage, nat, nat) -> EntryRun, messages: seq<BatchMessage>, n: nat, count: nat): BatchRun
    requires count <= |messages|
  {
    if count == 0 then BatchRun([], [], n)
    else
      var prev := Batch(step, messages, n, count - 1);
      var e := step(messages[count - 1], count - 1, prev.idCalls);
      BatchRun(prev.sent + e.sent, prev.outcomes + [e.outcome], e.idCalls)
  }

  /** The routes of the entries among the first `|outcomes|` that were
      published, in entry order. */
  function Sends(names: ExchangeNames, messages: seq<BatchMessage>, outcomes: seq<Result<PublishResult, Error>>): seq<(string, string)>
    requires |outcomes| <= |messages|
  {
    if outcomes == [] then []
    else
      var k := |outcomes| - 1;
      Sends(names, messages, outcomes[..k]) + (if outcomes[k].Ok? then [Route(names, messages[k])] else [])
  }

  /** What one more outcome adds to the routes sent to. */
  lemma SendsSnoc(names: ExchangeNames, messages: seq<BatchMessage>, outcomes: seq<Result<PublishResult, Error>>,
                  o: Result<PublishResult, Error>)
    requires |outcomes| < |messages|
    ensures Sends(names, messages, outcomes + [o])
         == Sends(names, messages, outcomes) + (if o.Ok? then [Route(names, messages[|outcomes|])] else [])
  {
    assert (outcomes + [o])[..|outcomes|] == outcomes;
  }

  /** One route per published entry. */
  lemma {:induction false} SendsCount(names: ExchangeNames, messages: seq<BatchMessage>, outcomes: seq<Result<PublishResult, Error>>)
    requires |outcomes| <= |messages|
    ensures |Sends(names, messages, outcomes)| == |Successes(outcomes)|
  {
    if outcomes != [] {
      var k := |outcomes| - 1;
      SendsCount(names, messages, outcomes[..k]);
    }
  }

  /** A batch has one outcome per entry. */
  lemma {:induction false} BatchLength(step: (BatchMessage, nat, nat) -> EntryRun, messages: seq<BatchMessage>, n: nat, count: nat)
    requires count <= |messages|
    ensures |Batch(step, messages, n, count).outcomes| == count
  {
    if count != 0 {
      BatchLength(step, messages, n, count - 1);
    }
  }

  /** Every entry is attempted once, in order: when each step's outcome has
      the shape `Attempted` describes, so has the batch's outcome at every
      index. */
  lemma {:induction false} BatchOutcomes(step: (BatchMessage, nat, nat) -> EntryRun, messages: seq<BatchMessage>, n: nat, count: nat,
                                         names: ExchangeNames, connected: bool, t: seq<Action>)
    requires count <= |messages|
    requires forall m: BatchMessage, k: nat, c: nat :: Attempted(names, m, GatedVerdict(connected, t, Route(names, m).0), step(m, k, c).outcome)
    ensures var b := Batch(step, messages, n, count);
      && |b.outcomes| == count
      && forall i :: 0 <= i < count ==> Attempted(names, messages[i], GatedVerdict(connected, t, Route(names, messages[i]).0), b.outcomes[i])
  {
    if count != 0 {
      var k := count - 1;
      var prev := Batch(step, messages, n, k);
      BatchOutcomes(step, messages, n, k, names, connected, t);
      var e := step(messages[k], k, prev.idCalls);
      var b := Batch(step, messages, n, count);
      assert b.outcomes == prev.outcomes + [e.outcome];
      forall i | 0 <= i < count
        ensures Attempted(names, messages[i], GatedVerdict(connected, t, Route(names, messages[i]).0), b.outcomes[i])
      {
        if i < k {
          assert b.outcomes[i] == prev.outcomes[i];
        } else {
          assert b.outcomes[i] == e.outcome;
        }
      }
    }
  }

  /** The broker receives one publish per accepted entry, on that entry's
      route, in entry order, and nothing else, when each step does so for its
      own entry. */
  lemma {:induction false} BatchSends(step: (BatchMessage, nat, nat) -> EntryRun, messages: seq<BatchMessage>, n: nat, count: nat,
                                      names: ExchangeNames)
    requires count <= |messages|
    requires forall m: BatchMessage, k: nat, c: nat :: PublishesTo(step(m, k, c).sent, if step(m, k, c).outcome.Ok? then [Route(names, m)] else [])
    ensures var b := Batch(step, messages, n, count);
      && |b.outcomes| == count
      && PublishesTo(b.sent, Sends(names, messages, b.outcomes))
  {
    BatchLength(step, messages, n, count);
    if count != 0 {
      var k := count - 1;
      var prev := Batch(step, messages, n, k);
      BatchSends(step, messages, n, k, names);
      var e := step(messages[k], k, prev.idCalls);
      var routes := if e.outcome.Ok? then [Route(names, messages[k])] else [];
      assert PublishesTo(e.sent, routes);
      PublishesToAppend(prev.sent, Sends(names, messages, prev.outcomes), e.sent, routes);
      SendsSnoc(names, messages, prev.outcomes, e.outcome);
    }
  }

  /** A truthy caller `messageId` is the id of that entry's result, and the
      batch draws at most two ids per entry, when each step does so. */
  lemma {:induction false} BatchIds(step: (BatchMessage, nat, nat) -> EntryRun, messages: seq<BatchMessage>, n: nat, count: nat)
    requires count <= |messages|
    requires forall m: BatchMessage, k: nat, c: nat :: c <= step(m, k, c).idCalls <= c + 2
    requires forall m: BatchMessage, k: nat, c: nat :: step(m, k, c).outcome.Ok? && Truthy(Get(m.options, "messageId")) ==>
               step(m, k, c).outcome.value.messageId == m.options["messageId"]
    ensures var b := Batch(step, messages, n, count);
      && |b.outcomes| == count
      && n <= b.idCalls <= n + 2 * count
      && forall i :: 0 <= i < count && b.outcomes[i].Ok? && Truthy(Get(messages[i].options, "messageId")) ==>
           b.outcomes[i].value.messageId == messages[i].options["messageId"]
  {
    if count != 0 {
      var k := count - 1;
      var prev := Batch(step, messages, n, k);
      BatchIds(step, messages, n, k);
      var e := step(messages[k], k, prev.idCalls);
      var b := Batch(step, messages, n, count);
      assert b.outcomes == prev.outcomes + [e.outcome];
      forall i | 0 <= i < count && b.outcomes[i].Ok? && Truthy(Get(messages[i].options, "messageId"))
        ensures b.outcomes[i].value.messageId == messages[i].options["messageId"]
      {
        if i < k {
          assert b.outcomes[i] == prev.outcomes[i];
        } else {
          assert b.outcomes[i] == e.outcome;
        }
      }
    }
  }

  /** The per-entry facts `BatchOutcomes`, `BatchSends` and `BatchIds` need,
      for the step of `publishBatch`. */
  lemma BatchStepSpec(names: ExchangeNames, codec: Codec, idGen: nat -> string, connected: bool, t: seq<Action>, clock: nat -> string)
    ensures var step := BatchStep(names, codec, idGen, connected, t, clock);
      && (forall m: BatchMessage, k: nat, c: nat :: Attempted(names, m, GatedVerdict(connected, t, Route(names, m).0), step(m, k, c).outcome))
      && (forall m: BatchMessage, k: nat, c: nat :: PublishesTo(step(m, k, c).sent, if step(m, k, c).outcome.Ok? then [Route(names, m)] else []))
      && (forall m: BatchMessage, k: nat, c: nat :: c <= step(m, k, c).idCalls <= c + 2)
      && (forall m: BatchMessage, k: nat, c: nat :: step(m, k, c).outcome.Ok? && Truthy(Get(m.options, "messageId")) ==>
            step(m, k, c).outcome.value.messageId == m.options["messageId"])
  {
    var step := BatchStep(names, codec, idGen, connected, t, clock);
    forall m, k: nat, c: nat
      ensures var e := step(m, k, c);
        && Attempted(names, m, GatedVerdict(connected, t, Route(names, m).0), e.outcome)
        && PublishesTo(e.sent, if e.outcome.Ok? then [Route(names, m)] else [])
        && c <= e.idCalls <= c + 2
        && (e.outcome.Ok? && Truthy(Get(m.options, "messageId")) ==> e.outcome.value.messageId == m.options["messageId"])
    {
      EntryRunSpec(names, codec, idGen, GatedVerdict(connected, t, Route(names, m).0), m, clock(k), c);
    }
  }

  /** One more entry of `publishBatch`: entry `i`, run against a broker
      whose trace `before` asserted what `t` asserted, extends the batch. */
  lemma BatchAdvance(names: ExchangeNames, codec: Codec, idGen: nat -> string, connected: bool, t: seq<Action>, clock: nat -> string,
                     messages: seq<BatchMessage>, n: nat, i: nat, prev: BatchRun, before: seq<Action>, e: EntryRun)
    requires i < |messages|
    requires Batch(BatchStep(names, codec, idGen, connected, t, clock), messages, n, i) == prev
    requires Asserted(before) == Asserted(t)
    requires e == Entry(names, codec, idGen, GatedVerdict(connected, before, Route(names, messages[i]).0), messages[i], clock(i), prev.idCalls)
    ensures Batch(BatchStep(names, codec, idGen, connected, t, clock), messages, n, i + 1)
         == BatchRun(prev.sent + e.sent, prev.outcomes + [e.outcome], e.idCalls)
  {
    GatedVerdictStable(connected, before, t, Route(names, messages[i]).0);
  }

  /** What `publishBatch` promises about a whole batch, from the lemmas above. */
  lemma BatchFacts(names: ExchangeNames, codec: Codec, idGen: nat -> string, connected: bool, t: seq<Action>, clock: nat -> string,
                   messages: seq<BatchMessage>, n: nat)
    ensures |Batch(BatchStep(names, codec, idGen, connected, t, clock), messages, n, |messages|).outcomes| == |messages|
    ensures var b := Batch(BatchStep(names, codec, idGen, connected, t, clock), messages, n, |messages|);
      var s := Summary(|messages|, Successes(b.outcomes), Failures(messages, b.outcomes));
      && (forall i :: 0 <= i < |messages| ==>
            Attempted(names, messages[i], GatedVerdict(connected, t, Route(names, messages[i]).0), b.outcomes[i]))
      && s.total == |messages| && s.successful + s.failed == s.total
      && (s.success <==> forall i :: 0 <= i < |messages| ==> b.outcomes[i].Ok?)
      && |b.sent| == s.successful
  {
    var step := BatchStep(names, codec, idGen, connected, t, clock);
    BatchLength(step, messages, n, |messages|);
    var b := Batch(step, messages, n, |messages|);
    BatchStepSpec(names, codec, idGen, connected, t, clock);
    BatchOutcomes(step, messages, n, |messages|, names, connected, t);
    BatchSends(step, messages, n, |messages|, names);
    SendsCount(names, messages, b.outcomes);
    SummaryPartition(messages, b.outcomes);
  }

  class Publisher {
    const client: PublisherClient.Client
    const names: ExchangeNames
    const idGen: nat -> string   // the value of the n-th `generateId()` call
    var idCalls: nat             // how many times `generateId` has been called

    /** `createPublisher(rabbitMQ, config)`; `idGen` stands for `Math.random`. */
    constructor (client: PublisherClient.Client, names: ExchangeNames, idGen: nat -> string)
      ensures this.client == client && this.names == names && this.idGen == idGen && idCalls == 0
    {
      this.client := client;
      this.names := names;
      this.idGen := idGen;
      idCalls := 0;
    }

    method GenerateId() returns (id: string)
      modifies this
      ensures id == idGen(old(idCalls)) && idCalls == old(idCalls) + 1
    {
      id := idGen(idCalls);
      idCalls := idCalls + 1;
    }

    /** `options.messageId || generateId()` as every publish computes it. */
    method MessageIdFor(options: Options) returns (id: Json)
      modifies this
      ensures id == ResolveId(options, idGen(old(idCalls)))
      ensures idCalls == old(idCalls) + (if Truthy(Get(options, "messageId")) then 0 else 1)
    {
      if Truthy(Get(options, "messageId")) {
        id := options["messageId"];
      } else {
        var generated := GenerateId();
        id := JStr(generated);
      }
    }

    /** `publishMessage(exchange, routingKey, message, options)`: on success
        `{ success: true, exchange, routingKey, messageId }`, where the id is
        `options.messageId` or a freshly generated one; on failure the
        client's error is rethrown and no id is generated. */
    method PublishMessage(exchange: string, routingKey: string, message: Json, options: Options)
      returns (r: Result<PublishResult, Error>)
      requires client.Valid()
      modifies this, client.broker
      ensures r.Ok? <==> GatedVerdict(client.isConnected, old(client.broker.trace), exchange).Ok?
      ensures r.Err? ==> r.error == GatedVerdict(client.isConnected, old(client.broker.trace), exchange).error && idCalls == old(idCalls)
      ensures r.Ok? ==> r.value == PublishResult(true, exchange, routingKey, ResolveId(options, idGen(old(idCalls))))
      ensures r.Ok? ==> idCalls == old(idCalls) + (if Truthy(Get(options, "messageId")) then 0 else 1)
      ensures client.broker.trace ==
        if r.Ok? then old(client.broker.trace) + [Action.Publish(exchange, routingKey, client.codec.encode(message), DefaultPersistent(options))]
        else old(client.broker.trace)
      ensures Asserted(client.broker.trace) == Asserted(old(client.broker.trace))
    {
      var sent := client.Publish(exchange, routingKey, message, options);
      if sent.Err? {
        return Err(sent.error);
      }
      var messageId := MessageIdFor(options);
      r := Ok(PublishResult(true, exchange, routingKey, messageId));
    }

    /** `publishEvent(eventType, data, options)`: the envelope goes to the events
        exchange with the event type as routing key; its id is the caller's
        `messageId` or a generated one, also passed on as the `messageId`
        option and, when it is not empty, returned as the result's id. */
    method PublishEvent(eventType: string, data: Json, options: Options, timestamp: string)
      returns (r: Result<PublishResult, Error>)
      requires client.Valid()
      modifies this, client.broker
      ensures var id := ResolveId(options, idGen(old(idCalls)));
        && (r.Ok? <==> GatedVerdict(client.isConnected, old(client.broker.trace), names.events).Ok?)
        && (r.Err? ==> r.error == GatedVerdict(client.isConnected, old(client.broker.trace), names.events).error)
        && (r.Ok? ==> r.value.success && r.value.exchange == names.events && r.value.routingKey == eventType)
        && (r.Ok? ==> r.value.messageId == if Truthy(id) then id else JStr(idGen(old(idCalls) + 1)))
        && idCalls == old(idCalls) + (if Truthy(Get(options, "messageId")) then 0 else 1)
                                    + (if r.Ok? && !Truthy(id) then 1 else 0)
        && client.broker.trace ==
             if r.Ok? then old(client.broker.trace) + [Action.Publish(names.events, eventType,
                 client.codec.encode(EventEnvelope(eventType, data, timestamp, id)),
                 DefaultPersistent(WithForced(options, "messageId", id)))]
             else old(client.broker.trace)
      ensures Asserted(client.broker.trace) == Asserted(old(client.broker.trace))
    {
      var messageId := MessageIdFor(options);
      var message := EventEnvelope(eventType, data, timestamp, messageId);
      r := PublishMessage(names.events, eventType, message, WithForced(options, "messageId", messageId));
    }

    /** `publishCommand(commandName, data, options)`: as `PublishEvent`, to the
        commands exchange with the command name as routing key. */
    method PublishCommand(commandName: string, data: Json, options: Options, timestamp: string)
      returns (r: Result<PublishResult, Error>)
      requires client.Valid()
      modifies this, client.broker
      ensures var id := ResolveId(options, idGen(old(idCalls)));
        && (r.Ok? <==> GatedVerdict(client.isConnected, old(client.broker.trace), names.commands).Ok?)
        && (r.Err? ==> r.error == GatedVerdict(client.isConnected, old(client.broker.trace), names.commands).error)
        && (r.Ok? ==> r.value.success && r.value.exchange == names.commands && r.value.routingKey == commandName)
        && (r.Ok? ==> r.value.messageId == if Truthy(id) then id else JStr(idGen(old(idCalls) + 1)))
        && idCalls == old(idCalls) + (if Truthy(Get(options, "messageId")) then 0 else 1)
                                    + (if r.Ok? && !Truthy(id) then 1 else 0)
        && client.broker.trace ==
             if r.Ok? then old(client.broker.trace) + [Action.Publish(names.commands, commandName,
                 client.codec.encode(CommandEnvelope(commandName, data, timestamp, id)),
                 DefaultPersistent(WithForced(options, "messageId", id)))]
             else old(client.broker.trace)
      ensures Asserted(client.broker.trace) == Asserted(old(client.broker.trace))
    {
      var messageId := MessageIdFor(options);
      var message := CommandEnvelope(commandName, data, timestamp, messageId);
      r := PublishMessage(names.commands, commandName, message, WithForced(options, "messageId", messageId));
    }

    /** `publishNotification(userId, notification, options)`: as `PublishEvent`,
        to the notifications exchange with routing key `user.<userId>`. */
    method PublishNotification(userId: string, notification: Json, options: Options, timestamp: string)
      returns (r: Result<PublishResult, Error>)
      requires client.Valid()
      modifies this, client.broker
      ensures var id := ResolveId(options, idGen(old(idCalls)));
        && (r.Ok? <==> GatedVerdict(client.isConnected, old(client.broker.trace), names.notifications).Ok?)
        && (r.Err? ==> r.error == GatedVerdict(client.isConnected, old(client.broker.trace), names.notifications).error)
        && (r.Ok? ==> r.value.success && r.value.exchange == names.notifications && r.value.routingKey == NotificationKey(userId))
        && (r.Ok? ==> r.value.messageId == if Truthy(id) then id else JStr(idGen(old(idCalls) + 1)))
        && idCalls == old(idCalls) + (if Truthy(Get(options, "messageId")) then 0 else 1)
                                    + (if r.Ok? && !Truthy(id) then 1 else 0)
        && client.broker.trace ==
             if r.Ok? then old(client.broker.trace) + [Action.Publish(names.notifications, NotificationKey(userId),
                 client.codec.encode(NotificationEnvelope(userId, notification, timestamp, id)),
                 DefaultPersistent(WithForced(options, "messageId", id)))]
             else old(client.broker.trace)
      ensures Asserted(client.broker.trace) == Asserted(old(client.broker.trace))
    {
      var messageId := MessageIdFor(options);
      var message := NotificationEnvelope(userId, notification, timestamp, messageId);
      r := PublishMessage(names.notifications, NotificationKey(userId), message, WithForced(options, "messageId", messageId));
    }

    /** The body of the batch loop for one entry: dispatch on `type`. */
    method PublishEntry(m: BatchMessage, timestamp: string) returns (r: Result<PublishResult, Error>)
      requires client.Valid()
      modifies this, client.broker
      ensures var e := Entry(names, client.codec, idGen, GatedVerdict(client.isConnected, old(client.broker.trace), Route(names, m).0),
                             m, timestamp, old(idCalls));
        && r == e.outcome
        && idCalls == e.idCalls
        && client.broker.trace == old(client.broker.trace) + e.sent
      ensures Asserted(client.broker.trace) == Asserted(old(client.broker.trace))
    {
      if m.kind == "event" {
        r := PublishEvent(m.eventType, m.data, m.options, timestamp);
      } else if m.kind == "command" {
        r := PublishCommand(m.commandName, m.data, m.options, timestamp);
      } else if m.kind == "notification" {
        r := PublishNotification(m.userId, m.notification, m.options, timestamp);
      } else {
        r := PublishMessage(m.exchange, m.routingKey, m.message, m.options);
      }
    }

    /** One round of the `publishBatch` loop: the entry at position `i` is
        published, and the run so far grows by that entry's step. */
    method PublishNext(messages: seq<BatchMessage>, clock: nat -> string, i: nat,
                       ghost t0: seq<Action>, ghost n0: nat, ghost prev: BatchRun)
      returns (r: Result<PublishResult, Error>, ghost e: EntryRun)
      requires client.Valid()
      requires i < |messages|
      requires Asserted(client.broker.trace) == Asserted(t0)
      requires Batch(BatchStep(names, client.codec, idGen, client.isConnected, t0, clock), messages, n0, i) == prev
      requires prev.idCalls == idCalls
      requires client.broker.trace == t0 + prev.sent
      modifies this, client.broker
      ensures Batch(BatchStep(names, client.codec, idGen, client.isConnected, t0, clock), messages, n0, i + 1)
           == BatchRun(prev.sent + e.sent, prev.outcomes + [r], idCalls)
      ensures client.broker.trace == t0 + (prev.sent + e.sent)
      ensures Asserted(client.broker.trace) == Asserted(t0)
    {
      ghost var before := client.broker.trace;
      r := PublishEntry(messages[i], clock(i));
      e := Entry(names, client.codec, idGen, GatedVerdict(client.isConnected, before, Route(names, messages[i]).0),
                 messages[i], clock(i), prev.idCalls);
      BatchAdvance(names, client.codec, idGen, client.isConnected, t0, clock, messages, n0, i, prev, before, e);
      assert client.broker.trace == before + e.sent == (t0 + prev.sent) + e.sent;
    }

    /** `publishBatch(messages)`: every entry is attempted once, in order; a
        failure is recorded with the entry and its error text and does not stop
        the rest. `clock(i)` is the timestamp taken for the i-th entry. The run
        is `Batch` of the inputs, whose properties are proved as lemmas
        (`BatchFacts`, `BatchSends`, `BatchIds`). */
    method PublishBatch(messages: seq<BatchMessage>, clock: nat -> string)
      returns (s: BatchSummary, ghost outcomes: seq<Result<PublishResult, Error>>)
      requires client.Valid()
      modifies this, client.broker
      ensures var b := Batch(BatchStep(names, client.codec, idGen, client.isConnected, old(client.broker.trace), clock),
                             messages, old(idCalls), |messages|);
        && client.broker.trace == old(client.broker.trace) + b.sent
        && outcomes == b.outcomes
        && idCalls == b.idCalls
      ensures |outcomes| == |messages|
      ensures s == Summary(|messages|, Successes(outcomes), Failures(messages, outcomes))
    {
      ghost var t0 := client.broker.trace;
      ghost var n0 := idCalls;
      ghost var sent: seq<Action> := [];
      var results: seq<PublishResult> := [];
      var errors: seq<BatchError> := [];
      outcomes := [];
      var i := 0;
      while i < |messages|
        invariant 0 <= i <= |messages|
        invariant Asserted(client.broker.trace) == Asserted(t0)
        invariant client.broker.trace == t0 + sent
        invariant Batch(BatchStep(names, client.codec, idGen, client.isConnected, t0, clock), messages, n0, i) == BatchRun(sent, outcomes, idCalls)
        invariant |outcomes| == i
        invariant results == Successes(outcomes) && errors == Failures(messages, outcomes)
      {
        var r;
        ghost var e;
        r, e := PublishNext(messages, clock, i, t0, n0, BatchRun(sent, outcomes, idCalls));
        sent := sent + e.sent;
        if r.Ok? {
          results := results + [r.value];
        } else {
          errors := errors + [BatchError(messages[i], ErrorMessage(r.error))];
        }
        SummaryStep(messages, outcomes, r);
        outcomes := outcomes + [r];
        i := i + 1;
      }
      s := Summary(|messages|, results, errors);
    }
  }
}
