/** A fake broker that stands in for the AMQP channel and connection: it
    performs nothing and records every action in one trace. It refuses a
    publish to an exchange no earlier action asserted (the default exchange
    `""` always exists), the way a broker closes a channel with NOT_FOUND. */
module Broker {
  import opened Wrappers
  import opened Amqp

  /** The exchanges a trace has asserted. */
  function Asserted(t: seq<Action>): set<string>
  {
    if t == [] then {}
    else
      var last := t[|t| - 1];
      Asserted(t[..|t| - 1]) + (if last.AssertExchange? then {last.exchange} else {})
  }

  /** An exchange is in the set exactly when some action of the trace asserted it. */
  lemma {:induction false} AssertedSpec(t: seq<Action>, x: string)
    ensures x in Asserted(t) <==> exists i :: 0 <= i < |t| && t[i].AssertExchange? && t[i].exchange == x
  {
    if t != [] {
      var init := t[..|t| - 1];
      AssertedSpec(init, x);
      if x in Asserted(init) {
        var i :| 0 <= i < |init| && init[i].AssertExchange? && init[i].exchange == x;
        assert t[i] == init[i];
      }
      if exists i :: 0 <= i < |t| && t[i].AssertExchange? && t[i].exchange == x {
        var i :| 0 <= i < |t| && t[i].AssertExchange? && t[i].exchange == x;
        if i < |t| - 1 { assert init[i] == t[i]; }
      }
    }
  }

  lemma {:induction false} AssertedAppend(a: seq<Action>, b: seq<Action>)
    ensures Asserted(a + b) == Asserted(a) + Asserted(b)
  {
    if b == [] {
      assert a + b == a;
    } else {
      assert (a + b)[..|a + b| - 1] == a + b[..|b| - 1];
      AssertedAppend(a, b[..|b| - 1]);
    }
  }

  /** What the broker answers to a publish on `exchange` after trace `t`. */
  function PublishVerdict(t: seq<Action>, exchange: string): (r: Result<bool, Error>)
    ensures r.Ok? <==> exchange == "" || exchange in Asserted(t)
    ensures r.Ok? ==> r.value
    ensures r.Err? ==> r.error == ExchangeNotFound(exchange)
  {
    if exchange == "" || exchange in Asserted(t) then Ok(true) else Err(ExchangeNotFound(exchange))
  }

  class FakeBroker {
    var trace: seq<Action>

    constructor ()
      ensures trace == []
    {
      trace := [];
    }

    /** Performs a channel operation that always succeeds on the fake. */
    method Apply(a: Action)
      requires !a.Publish?
      modifies this
      ensures trace == old(trace) + [a]
    {
      trace := trace + [a];
    }

    /** `channel.publish`: recorded when the broker accepts it, refused otherwise. */
    method Publish(exchange: string, routingKey: string, content: Bytes, options: Options) returns (r: Result<bool, Error>)
      modifies this
      ensures r == PublishVerdict(old(trace), exchange)
      ensures trace == if r.Ok? then old(trace) + [Action.Publish(exchange, routingKey, content, options)] else old(trace)
      ensures Asserted(trace) == Asserted(old(trace))
    {
      r := PublishVerdict(trace, exchange);
      if r.Ok? {
        AssertedAppend(trace, [Action.Publish(exchange, routingKey, content, options)]);
        trace := trace + [Action.Publish(exchange, routingKey, content, options)];
      }
    }
  }
}
