/** The delivery outcome policy: the callback a consumer setup installs with
    `channel.consume`. For each delivered message it decodes the content,
    runs the caller's handler, and then acknowledges the message, or rejects
    it without requeueing when decoding or the handler failed. A null
    delivery (the broker cancelled the consumer) is ignored. */
module DeliveryPolicy {
  import opened Wrappers
  import opened Amqp
  import opened Broker

  /** The delivery decodes and the handler completes without throwing. */
  predicate Succeeds(codec: Codec, onMessage: Json -> bool, m: Delivery) {
    match codec.decode(m.content)
    case None => false
    case Some(p) => onMessage(p)
  }

  /** The settling action for one delivery. */
  function Decision(codec: Codec, onMessage: Json -> bool, m: Delivery): (a: Action)
    ensures a == Ack(m) <==> Succeeds(codec, onMessage, m)
    ensures a == Nack(m, false, false) <==> !Succeeds(codec, onMessage, m)
  {
    if Succeeds(codec, onMessage, m) then Ack(m) else Nack(m, false, false)
  }

  /** What the callback does for one (possibly null) delivery. */
  function DeliveryEffects(codec: Codec, onMessage: Json -> bool, msg: Option<Delivery>): (r: seq<Action>)
    ensures msg.None? ==> r == []
    ensures forall m :: Ack(m) in r <==> msg == Some(m) && Succeeds(codec, onMessage, m)
    ensures forall a :: a in r && a.Nack? ==> msg == Some(a.delivery) && !a.allUpTo && !a.requeue
    ensures (exists a :: a in r && a.Nack?) <==> msg.Some? && !Succeeds(codec, onMessage, msg.value)
    ensures (exists a :: a in r && a.Handle?) <==> msg.Some? && codec.decode(msg.value.content).Some?
    ensures forall i :: 0 <= i < |r| && r[i].Handle? ==> msg.Some? && Some(r[i].payload) == codec.decode(msg.value.content)
    ensures forall i :: 0 <= i < |r| && r[i].Ack? ==> exists j :: 0 <= j < i && r[j].Handle?
    ensures msg.Some? ==> |r| > 0 && r[|r| - 1] == Decision(codec, onMessage, msg.value)
  {
    match msg
    case None => []
    case Some(m) =>
      match codec.decode(m.content)
      case None =>
        var r := [Nack(m, false, false)];
        assert r[0].Nack?;
        r
      case Some(p) =>
        var r := [Handle(p), Decision(codec, onMessage, m)];
        assert r[0].Handle? && r[1] in r;
        r
  }

  /** The consumer callback, run by the broker for each delivery on `channel`. */
  method OnMessage(channel: FakeBroker, codec: Codec, onMessage: Json -> bool, msg: Option<Delivery>)
    modifies channel
    ensures channel.trace == old(channel.trace) + DeliveryEffects(codec, onMessage, msg)
  {
    if msg.Some? {
      var m := msg.value;
      var content := codec.decode(m.content);
      if content.Some? {
        channel.Apply(Handle(content.value));
        var ok := onMessage(content.value);
        if ok {
          channel.Apply(Ack(m));
        } else {
          channel.Apply(Nack(m, false, false));
        }
      } else {
        channel.Apply(Nack(m, false, false));
      }
    }
  }

  /** The callback's effects over a stream of deliveries on one queue, in the
      sequential model: each callback runs to its end before the next delivery
      is handled. */
  function StreamEffects(codec: Codec, onMessage: Json -> bool, msgs: seq<Option<Delivery>>): seq<Action>
  {
    if msgs == [] then []
    else StreamEffects(codec, onMessage, msgs[..|msgs| - 1]) + DeliveryEffects(codec, onMessage, msgs[|msgs| - 1])
  }

  /** The acks and nacks of a trace, in order. */
  function Settlements(t: seq<Action>): (r: seq<Action>)
    ensures forall a :: a in r <==> a in t && (a.Ack? || a.Nack?)
    ensures |r| <= |t|
  {
    if t == [] then []
    else
      var rest := Settlements(t[..|t| - 1]);
      var last := t[|t| - 1];
      assert t == t[..|t| - 1] + [last];
      if last.Ack? || last.Nack? then rest + [last] else rest
  }

  lemma {:induction false} SettlementsAppend(a: seq<Action>, b: seq<Action>)
    ensures Settlements(a + b) == Settlements(a) + Settlements(b)
  {
    if b == [] {
      assert a + b == a;
    } else {
      assert (a + b)[..|a + b| - 1] == a + b[..|b| - 1];
      SettlementsAppend(a, b[..|b| - 1]);
    }
  }

  /** The non-null deliveries of a stream, each with its settling action. */
  function Decisions(codec: Codec, onMessage: Json -> bool, msgs: seq<Option<Delivery>>): seq<Action>
  {
    if msgs == [] then []
    else
      var last := msgs[|msgs| - 1];
      Decisions(codec, onMessage, msgs[..|msgs| - 1]) + (if last.Some? then [Decision(codec, onMessage, last.value)] else [])
  }

  lemma SettlementsOfOne(codec: Codec, onMessage: Json -> bool, msg: Option<Delivery>)
    ensures Settlements(DeliveryEffects(codec, onMessage, msg))
         == if msg.Some? then [Decision(codec, onMessage, msg.value)] else []
  {
    if msg.Some? {
      var d := Decision(codec, onMessage, msg.value);
      assert Settlements([d]) == Settlements([]) + [d];
      match codec.decode(msg.value.content) {
        case None =>
        case Some(p) =>
          assert [Handle(p), d][..1] == [Handle(p)];
          assert Settlements([Handle(p)]) == [];
      }
    }
  }

  /** In the sequential model, every non-null delivery is settled exactly
      once, in arrival order, and nothing is ever requeued; null deliveries
      settle nothing. */
  lemma {:induction false} EachDeliverySettledOnce(codec: Codec, onMessage: Json -> bool, msgs: seq<Option<Delivery>>)
    ensures Settlements(StreamEffects(codec, onMessage, msgs)) == Decisions(codec, onMessage, msgs)
  {
    if msgs != [] {
      var init := msgs[..|msgs| - 1];
      var last := msgs[|msgs| - 1];
      EachDeliverySettledOnce(codec, onMessage, init);
      SettlementsAppend(StreamEffects(codec, onMessage, init), DeliveryEffects(codec, onMessage, last));
      SettlementsOfOne(codec, onMessage, last);
    }
  }

  /** A handler that throws for one payload and completes for another: the
      first message is rejected without requeue and the second acknowledged,
      in that order. */
  lemma FailClosedConsumption(codec: Codec, onMessage: Json -> bool, bad: Delivery, good: Delivery, pb: Json, pg: Json)
    requires codec.decode(bad.content) == Some(pb) && !onMessage(pb)
    requires codec.decode(good.content) == Some(pg) && onMessage(pg)
    ensures Settlements(StreamEffects(codec, onMessage, [Some(bad), Some(good)])) == [Nack(bad, false, false), Ack(good)]
  {
    var msgs := [Some(bad), Some(good)];
    EachDeliverySettledOnce(codec, onMessage, msgs);
    assert msgs[..1] == [Some(bad)];
    assert [Some(bad)][..0] == [];
    assert Decision(codec, onMessage, bad) == Nack(bad, false, false);
    assert Decision(codec, onMessage, good) == Ack(good);
    assert Decisions(codec, onMessage, [Some(bad)]) == [Nack(bad, false, false)];
    assert Decisions(codec, onMessage, msgs) == Decisions(codec, onMessage, [Some(bad)]) + [Ack(good)];
  }

  /** A message published through a codec that reads back what it writes is,
      when delivered, passed to the handler as published and then acked
      exactly when the handler completes. */
  lemma PublishedMessageReachesHandler(codec: Codec, onMessage: Json -> bool, tag: nat, p: Json)
    requires RoundTrips(codec)
    ensures DeliveryEffects(codec, onMessage, Some(Delivery(tag, codec.encode(p))))
         == [Handle(p), if onMessage(p) then Ack(Delivery(tag, codec.encode(p))) else Nack(Delivery(tag, codec.encode(p)), false, false)]
  {
    assert codec.decode(codec.encode(p)) == Some(p);
  }
}
