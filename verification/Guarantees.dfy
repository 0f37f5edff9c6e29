/**
What topology and retry protocol guarantee together, over the life of a message: while it
waits, fails and is republished, the connection breaks, the broker loses topology, and
reconnects replay what DeclareQueues has declared.
*/
module Guarantees {
  import opened Broker
  import opened Options
  import opened Retry
  import opened Sums
  import opened Topology
  import RetryMachine
  import TopologyHistory

  // A message that came to the declared queue q through an exchange and a routing key, and
  // is consumed under the configuration that Start was given for it.
  datatype Case = Case(q: QueueConfig, consumed: QueueConfig, exchange: string, routingKey: string, m: Publishing)

  datatype State = State(topology: TopologyHistory.State, message: RetryMachine.State)

  datatype Event = OfTopology(t: TopologyHistory.Event) | OfMessage(r: RetryMachine.Event)

  // The two configurations name the same queue; otherwise they may differ.
  predicate Fits(c: Case) {
    c.consumed.name == c.q.name && -0x8000_0000_0000_0000 <= c.consumed.maxRedelivery <= 0x7FFF_FFFF_FFFF_FFFF
  }

  // The retry protocol as long as the broker is the given one.
  function Protocol(c: Case, b: Broker): RetryMachine.Config
    requires Fits(c)
  {
    RetryMachine.Config(c.consumed.maxRedelivery, c.q.name in Route(b, c.exchange, c.routingKey),
        c.consumed.dummyMessageEnabled)
  }

  // A republish creates a copy where the broker of that moment routes it.  It gets through
  // only while the broker has all that it had when the channel last worked: a broker that has
  // lost something has lost the connection, and the next publisher pool comes after a replay.
  ghost predicate Step(c: Case, s: State, e: Event, t: State)
    requires Fits(c)
  {
    match e
    case OfTopology(f) =>
      TopologyHistory.Step(s.topology, f, t.topology) && t.message == s.message
    case OfMessage(f) =>
      && t.topology == s.topology
      && (f.Republish? && f.accepted ==> s.topology.broker == s.topology.whole)
      && RetryMachine.Next(Protocol(c, s.topology.broker), s.message, f) == Some(t.message)
  }

  // The broker never loses the queue itself: the copies in it would go with it, which is not
  // something the retry protocol says anything about.
  ghost predicate KeepsQueue(c: Case, es: seq<Event>) {
    forall k :: 0 <= k < |es| && es[k].OfTopology? && es[k].t.Break? ==> c.q.name in es[k].t.after.queues
  }

  // It starts when the message is in the queue, after any history in which the queue was
  // declared: by the call number d, as its queue number n.
  ghost predicate Starts(c: Case, past: seq<TopologyHistory.Event>, states: seq<TopologyHistory.State>, d: nat,
      n: nat, s: State)
  {
    && TopologyHistory.IsRun(past, states) && states[|past|] == s.topology
    && d < |past| && past[d].Declare? && past[d].r.Done? && n < |past[d].qs| && past[d].qs[n] == c.q
    && s.message == RetryMachine.Initial(c.m)
  }

  ghost predicate IsRun(c: Case, es: seq<Event>, run: seq<State>)
    requires Fits(c)
  {
    && |run| == |es| + 1 && KeepsQueue(c, es)
    && forall k :: 0 <= k < |es| ==> Step(c, run[k], es[k], run[k + 1])
  }

  // ---------------------------------------------------------------- the topology side

  // c.q is the declared queue number n.
  ghost predicate Declared(c: Case, n: nat, t: TopologyHistory.State) {
    TopologyHistory.Inv(t) && n < |t.declared| && t.declared[n] == c.q
  }

  lemma StartsDeclared(c: Case, past: seq<TopologyHistory.Event>, states: seq<TopologyHistory.State>, d: nat, n: nat,
      s: State)
    returns (place: nat)
    requires Starts(c, past, states, d, n, s)
    ensures Declared(c, place, s.topology) && Valid(c.q)
  {
    TopologyHistory.RunKeeps(past, states, |past|);
    TopologyHistory.RunIsValid(past, states, |past|);
    TopologyHistory.RunOnlyAppends(past, states, d, |past|);
    place := |states[d].declared| + n;
    assert s.topology.declared[place] == c.q;
  }

  lemma StaysDeclared(c: Case, n: nat, s: TopologyHistory.State, e: TopologyHistory.Event, t: TopologyHistory.State)
    requires Declared(c, n, s) && TopologyHistory.Step(s, e, t)
    ensures Declared(c, n, t)
  {
    TopologyHistory.StepKeeps(s, e, t);
    TopologyHistory.StepOnlyAppends(s, e, t);
  }

  lemma WholeHasAll(c: Case, n: nat, t: TopologyHistory.State)
    requires Declared(c, n, t) && t.broker == t.whole
    ensures Sub(Wanted(c.q), t.broker)
  {
    assert AllWanted(t.declared)[n] == Wanted(c.q);
  }

  // ---------------------------------------------------------------- the message side

  function Routed(c: Case): RetryMachine.Config
    requires Fits(c)
  {
    RetryMachine.Config(c.consumed.maxRedelivery, true, c.consumed.dummyMessageEnabled)
  }

  lemma StepIsRouted(c: Case, n: nat, s: State, f: RetryMachine.Event, t: State)
    requires Fits(c) && Valid(c.q) && ArrivedBySDKRoute(c.q, c.exchange, c.routingKey)
    requires Declared(c, n, s.topology) && Step(c, s, OfMessage(f), t)
    ensures RetryMachine.Next(Routed(c), s.message, f) == Some(t.message)
  {
    if f.Republish? && f.accepted {
      WholeHasAll(c, n, s.topology);
      RetryRouteReturns(s.topology.broker, c.q, c.exchange, c.routingKey);
    }
  }

  lemma StepAt(c: Case, n: nat, es: seq<Event>, run: seq<State>, k: nat)
    requires Fits(c) && Valid(c.q) && ArrivedBySDKRoute(c.q, c.exchange, c.routingKey)
    requires IsRun(c, es, run) && k < |es|
    ensures Declared(c, n, run[k].topology) ==> Declared(c, n, run[k + 1].topology)
    ensures es[k].OfTopology? ==> run[k + 1].message == run[k].message
    ensures Declared(c, n, run[k].topology) && es[k].OfMessage? ==>
              RetryMachine.Next(Routed(c), run[k].message, es[k].r) == Some(run[k + 1].message)
  {
    var s, e, t := run[k], es[k], run[k + 1];
    assert Step(c, s, e, t);
    if Declared(c, n, s.topology) {
      if e.OfTopology? {
        StaysDeclared(c, n, s.topology, e.t, t.topology);
      } else {
        StepIsRouted(c, n, s, e.r, t);
      }
    }
  }

  lemma {:induction false} RunStaysDeclared(c: Case, n: nat, es: seq<Event>, run: seq<State>, k: nat)
    requires Fits(c) && Valid(c.q) && ArrivedBySDKRoute(c.q, c.exchange, c.routingKey)
    requires IsRun(c, es, run) && k < |run| && Declared(c, n, run[0].topology)
    ensures Declared(c, n, run[k].topology)
  {
    if k > 0 {
      RunStaysDeclared(c, n, es, run, k - 1);
      StepAt(c, n, es, run, k - 1);
    }
  }

  ghost predicate MessageStep(c: Case, s: State, e: Event, t: State)
    requires Fits(c)
  {
    if e.OfTopology? then t.message == s.message else RetryMachine.Next(Routed(c), s.message, e.r) == Some(t.message)
  }

  lemma RunIsRouted(c: Case, n: nat, es: seq<Event>, run: seq<State>)
    requires Fits(c) && Valid(c.q) && ArrivedBySDKRoute(c.q, c.exchange, c.routingKey)
    requires IsRun(c, es, run) && Declared(c, n, run[0].topology)
    ensures forall k :: 0 <= k < |es| ==> MessageStep(c, run[k], es[k], run[k + 1])
  {
    forall k | 0 <= k < |es| ensures MessageStep(c, run[k], es[k], run[k + 1]) {
      RunStaysDeclared(c, n, es, run, k);
      StepAt(c, n, es, run, k);
    }
  }

  // What happens to the message is a run of the retry protocol with a route that leads back.
  lemma {:induction false} Project(c: Case, es: seq<Event>, run: seq<State>, k: nat)
    returns (rs: seq<RetryMachine.Event>, states: seq<RetryMachine.State>)
    requires Fits(c) && k < |run| == |es| + 1 && run[0].message == RetryMachine.Initial(c.m)
    requires forall i :: 0 <= i < |es| ==> MessageStep(c, run[i], es[i], run[i + 1])
    ensures RetryMachine.IsRun(Routed(c), c.m, rs, states) && states[|rs|] == run[k].message
  {
    if k == 0 {
      rs, states := [], [run[0].message];
    } else {
      rs, states := Project(c, es, run, k - 1);
      assert MessageStep(c, run[k - 1], es[k - 1], run[k]);
      if es[k - 1].OfMessage? {
        RetryMachine.OneMore(Routed(c), c.m, rs, states, es[k - 1].r, run[k].message);
        rs, states := rs + [es[k - 1].r], states + [run[k].message];
      }
    }
  }

  // ---------------------------------------------------------------- theorems

  // What a worker of the queue would take for a heartbeat.
  predicate LooksLikeHeartbeat(c: Case) { c.consumed.dummyMessageEnabled && IsHeartbeat(c.m.headers) }

  // A message that came to a declared queue by an SDK route is never lost, unless it looks
  // like a heartbeat there, its copies are conserved and its handler calls bounded, whatever
  // breaks and is replayed meanwhile.
  lemma DeclaredQueuesLoseNothing(
    c: Case, past: seq<TopologyHistory.Event>, states: seq<TopologyHistory.State>, d: nat, n: nat,
    es: seq<Event>, run: seq<State>, k: nat)
    requires Fits(c) && ArrivedBySDKRoute(c.q, c.exchange, c.routingKey)
    requires IsRun(c, es, run) && Starts(c, past, states, d, n, run[0]) && k < |run|
    ensures !LooksLikeHeartbeat(c) ==> RetryMachine.NotLost(Routed(c), run[k].message)
    ensures Conserved(run[k].message, LooksLikeHeartbeat(c))
    ensures c.consumed.maxRedelivery != 0 ==> CallsBounded(c, run[k].message)
  {
    var place := StartsDeclared(c, past, states, d, n, run[0]);
    RunIsRouted(c, place, es, run);
    var rs, messages := Project(c, es, run, k);
    if !LooksLikeHeartbeat(c) { RetryMachine.NeverLost(Routed(c), c.m, rs, messages, |rs|); }
    RetryMachine.CopiesAreConserved(Routed(c), c.m, rs, messages, |rs|);
    if c.consumed.maxRedelivery != 0 { RetryMachine.HandlerCallsAreBounded(Routed(c), c.m, rs, messages, |rs|); }
  }

  // Live, completed, rejected and swallowed copies are 1 + forks.
  ghost predicate Conserved(s: RetryMachine.State, heartbeat: bool) {
    && Sum(RetryMachine.LiveOne, s.copies) + Sum(RetryMachine.CompletedOne, s.copies)
       + Sum(RetryMachine.RejectedOne, s.copies) + Sum(RetryMachine.SwallowedOne, s.copies)
       == 1 + Sum(RetryMachine.ForkOne, s.attempts)
    && (!heartbeat ==> Sum(RetryMachine.SwallowedOne, s.copies) == 0)
  }

  ghost predicate CallsBounded(c: Case, s: RetryMachine.State)
    requires Fits(c)
  {
    var max, first := c.consumed.maxRedelivery, RetryCount(c.m.headers);
    Sum(RetryMachine.HandledOne, s.attempts)
    <= (if 0 < max && first < max then max - first + 1 else 1) * (1 + Sum(RetryMachine.FaultOne, s.attempts))
  }

  // Whenever the channel works, what is rejected for good reaches the dead-letter queue, if
  // one was asked for, and a message sent with a delay waits in the delay queue and comes to
  // the queue by an SDK route.
  lemma DeclaredQueuesAreWired(
    c: Case, past: seq<TopologyHistory.Event>, states: seq<TopologyHistory.State>, d: nat, n: nat,
    es: seq<Event>, run: seq<State>, k: nat)
    requires Fits(c) && ArrivedBySDKRoute(c.q, c.exchange, c.routingKey)
    requires IsRun(c, es, run) && Starts(c, past, states, d, n, run[0]) && k < |run| && run[k].topology.live
    ensures var b := run[k].topology.broker;
      && (c.q.enableDLQ ==> DLQName(c.q.name) in DeadLetterRoute(b, c.q.name, c.routingKey))
      && (c.q.isDelayQueue ==> DelayedRoute(c.q, b) && ArrivedBySDKRoute(c.q, c.q.exchange, BindingKey(c.q)))
  {
    var place := StartsDeclared(c, past, states, d, n, run[0]);
    RunStaysDeclared(c, place, es, run, k);
    var b := run[k].topology.broker;
    WholeHasAll(c, place, run[k].topology);
    RejectedMessageGoesToDLQ(b, c.q, c.routingKey);
    if c.q.isDelayQueue { DelayedMessageArrives(b, c.q, DelayQueueName(c.q.name)); }
  }

  ghost predicate DelayedRoute(q: QueueConfig, b: Broker) {
    var delay := DelayQueueName(q.name);
    Route(b, "", delay) == {delay} && q.name in DeadLetterRoute(b, delay, delay)
  }
}
