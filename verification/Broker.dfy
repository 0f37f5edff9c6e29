/**
What the SDK sees of a RabbitMQ broker: declared exchanges, queues and bindings, direct
routing (AMQP 0-9-1, section 3.1.3.1) and dead-lettering (a RabbitMQ extension).

A Broker value is also used as a fragment: the part of a topology that somebody wants.
*/
module Broker {
  datatype Argument = Text(text: string) | Number(number: int)
  type Arguments = map<string, Argument>

  datatype Exchange = Exchange(kind: string, durable: bool, autoDelete: bool, internal: bool)
  datatype Queue = Queue(durable: bool, autoDelete: bool, exclusive: bool, args: Arguments)
  datatype Binding = Binding(queue: string, routingKey: string, exchange: string)

  datatype Broker = Broker(exchanges: map<string, Exchange>, queues: map<string, Queue>, bindings: set<Binding>)

  const EMPTY := Broker(map[], map[], {})

  // Everything a has, b has, with the same properties.
  ghost predicate Sub(a: Broker, b: Broker) {
    && (forall x :: x in a.exchanges ==> x in b.exchanges && b.exchanges[x] == a.exchanges[x])
    && (forall q :: q in a.queues ==> q in b.queues && b.queues[q] == a.queues[q])
    && a.bindings <= b.bindings
  }

  // Nothing is declared in both with different properties.
  ghost predicate Agree(a: Broker, b: Broker) {
    && (forall x :: x in a.exchanges && x in b.exchanges ==> a.exchanges[x] == b.exchanges[x])
    && (forall q :: q in a.queues && q in b.queues ==> a.queues[q] == b.queues[q])
  }

  function Merge(a: Broker, b: Broker): Broker {
    Broker(a.exchanges + b.exchanges, a.queues + b.queues, a.bindings + b.bindings)
  }

  // One declaration each.

  function AnExchange(name: string, e: Exchange): Broker {
    Broker(map[name := e], map[], {})
  }

  function AQueue(name: string, q: Queue): Broker {
    Broker(map[], map[name := q], {})
  }

  function ABinding(queue: string, routingKey: string, exchange: string): Broker {
    Broker(map[], map[], {Binding(queue, routingKey, exchange)})
  }

  // The queues a message published to an exchange with a routing key reaches; "" is the
  // default exchange, every other one is direct.
  function Route(b: Broker, exchange: string, routingKey: string): set<string> {
    if exchange == "" then
      if routingKey in b.queues then {routingKey} else {}
    else
      set bd | bd in b.bindings && bd.exchange == exchange && bd.routingKey == routingKey :: bd.queue
  }

  // The queues a message expired in, or rejected from, a queue reaches; routingKey is the
  // one it was published with.
  function DeadLetterRoute(b: Broker, queue: string, routingKey: string): set<string> {
    if queue !in b.queues then {} else
    var args := b.queues[queue].args;
    if !("x-dead-letter-exchange" in args && args["x-dead-letter-exchange"].Text?) then {} else
    Route(b, args["x-dead-letter-exchange"].text,
          if "x-dead-letter-routing-key" in args && args["x-dead-letter-routing-key"].Text?
          then args["x-dead-letter-routing-key"].text else routingKey)
  }

  // A message reaches a queue through the default exchange by the queue's own name, and
  // through any other by a binding with its routing key.
  lemma RouteExactly(b: Broker, exchange: string, routingKey: string, queue: string)
    ensures queue in Route(b, exchange, routingKey) <==>
              if exchange == "" then routingKey == queue && queue in b.queues
              else Binding(queue, routingKey, exchange) in b.bindings
  {
    if exchange != "" && Binding(queue, routingKey, exchange) in b.bindings {
      assert Binding(queue, routingKey, exchange).queue == queue;
    }
    if exchange != "" && queue in Route(b, exchange, routingKey) {
      var bd :| bd in b.bindings && bd.exchange == exchange && bd.routingKey == routingKey && bd.queue == queue;
      assert bd == Binding(queue, routingKey, exchange);
    }
  }

  // A dead letter goes to the exchange its queue names, with the routing key its queue names
  // or else with its own; from a queue that names none it goes nowhere.
  lemma DeadLettersAreRouted(b: Broker, queue: string, routingKey: string, exchange: string, key: string)
    requires queue in b.queues
    ensures var args := b.queues[queue].args;
      && ("x-dead-letter-exchange" !in args ==> DeadLetterRoute(b, queue, routingKey) == {})
      && ("x-dead-letter-exchange" in args && args["x-dead-letter-exchange"] == Text(exchange) ==>
            && ("x-dead-letter-routing-key" !in args ==>
                  DeadLetterRoute(b, queue, routingKey) == Route(b, exchange, routingKey))
            && ("x-dead-letter-routing-key" in args && args["x-dead-letter-routing-key"] == Text(key) ==>
                  DeadLetterRoute(b, queue, routingKey) == Route(b, exchange, key)))
  {
  }

  // ---------------------------------------------------------------- fragments declared one after the other

  function MergeAll(b: Broker, fs: seq<Broker>): Broker {
    if fs == [] then b else Merge(MergeAll(b, fs[..|fs| - 1]), fs[|fs| - 1])
  }

  // No declaration meets an existing one with other properties.
  ghost predicate Compatible(b: Broker, fs: seq<Broker>) {
    fs == [] || (Compatible(b, fs[..|fs| - 1]) && Agree(MergeAll(b, fs[..|fs| - 1]), fs[|fs| - 1]))
  }

  ghost predicate Established(b: Broker, fs: seq<Broker>) {
    forall f :: f in fs ==> Sub(f, b)
  }

  lemma EstablishedTogether(b: Broker, fs: seq<Broker>, gs: seq<Broker>, all: seq<Broker>)
    requires all == fs + gs && Established(b, fs) && Established(b, gs)
    ensures Established(b, all)
  {
  }

  lemma SubTransitive(a: Broker, b: Broker, c: Broker)
    requires Sub(a, b) && Sub(b, c)
    ensures Sub(a, c)
  {
  }

  lemma SubMerge(a: Broker, b: Broker)
    requires Agree(a, b)
    ensures Sub(a, Merge(a, b)) && Sub(b, Merge(a, b))
  {
  }

  lemma MergeWithin(a: Broker, b: Broker, w: Broker)
    requires Sub(a, w) && Sub(b, w)
    ensures Agree(a, b) && Sub(Merge(a, b), w)
  {
  }

  lemma MergeIdle(a: Broker, b: Broker)
    requires Sub(b, a)
    ensures Merge(a, b) == a
  {
    assert a.exchanges + b.exchanges == a.exchanges;
    assert a.queues + b.queues == a.queues;
    assert a.bindings + b.bindings == a.bindings;
  }

  lemma MergeMore(a: Broker, b: Broker, c: Broker)
    ensures Merge(Merge(a, b), c) == Merge(a, Merge(b, c))
    ensures Agree(a, b) && Agree(b, c) && Agree(Merge(a, b), c) ==> Agree(a, Merge(b, c))
  {
    assert (a.exchanges + b.exchanges) + c.exchanges == a.exchanges + (b.exchanges + c.exchanges);
    assert (a.queues + b.queues) + c.queues == a.queues + (b.queues + c.queues);
    assert (a.bindings + b.bindings) + c.bindings == a.bindings + (b.bindings + c.bindings);
  }

  lemma {:induction false} MergeAllContains(b: Broker, fs: seq<Broker>)
    requires Compatible(b, fs)
    ensures Sub(b, MergeAll(b, fs)) && Established(MergeAll(b, fs), fs)
  {
    if fs != [] {
      var front, last := fs[..|fs| - 1], fs[|fs| - 1];
      MergeAllContains(b, front);
      SubMerge(MergeAll(b, front), last);
      SubTransitive(b, MergeAll(b, front), MergeAll(b, fs));
      forall f | f in fs ensures Sub(f, MergeAll(b, fs)) {
        if f in front { SubTransitive(f, MergeAll(b, front), MergeAll(b, fs)); }
      }
    }
  }

  // As long as the broker holds nothing that contradicts a broker w on which all of fs is
  // established, declaring fs meets no conflict and does not leave w.
  lemma {:induction false} MergeAllWithin(b: Broker, fs: seq<Broker>, w: Broker)
    requires Sub(b, w) && Established(w, fs)
    ensures Compatible(b, fs) && Sub(MergeAll(b, fs), w)
  {
    if fs != [] {
      var front := fs[..|fs| - 1];
      assert Established(w, front);
      MergeAllWithin(b, front, w);
      MergeWithin(MergeAll(b, front), fs[|fs| - 1], w);
    }
  }

  lemma {:induction false} MergeAllIdle(b: Broker, fs: seq<Broker>)
    requires Established(b, fs)
    ensures MergeAll(b, fs) == b
  {
    if fs != [] {
      assert Established(b, fs[..|fs| - 1]);
      MergeAllIdle(b, fs[..|fs| - 1]);
      MergeIdle(b, fs[|fs| - 1]);
    }
  }

  // Nothing appears that was not there and that no fragment has.
  lemma {:induction false} MergeAllAddsNothingElse(b: Broker, fs: seq<Broker>)
    ensures var m := MergeAll(b, fs);
            && (forall x :: x in m.exchanges ==> x in b.exchanges || exists f :: f in fs && x in f.exchanges)
            && (forall q :: q in m.queues ==> q in b.queues || exists f :: f in fs && q in f.queues)
            && (forall d :: d in m.bindings ==> d in b.bindings || exists f :: f in fs && d in f.bindings)
  {
    if fs != [] {
      var front, last := fs[..|fs| - 1], fs[|fs| - 1];
      MergeAllAddsNothingElse(b, front);
      assert last in fs && forall f :: f in front ==> f in fs;
    }
  }

  ghost predicate WantsQueue(fs: seq<Broker>, queue: string) {
    exists f :: f in fs && queue in f.queues
  }

  // Every queue of the broker b' was on b or is wanted by fs.
  ghost predicate QueuesFrom(b': Broker, b: Broker, fs: seq<Broker>) {
    forall queue :: queue in b'.queues ==> queue in b.queues || WantsQueue(fs, queue)
  }

  lemma QueuesFromTransitive(c: Broker, b: Broker, a: Broker, fs: seq<Broker>)
    requires QueuesFrom(c, b, fs) && QueuesFrom(b, a, fs)
    ensures QueuesFrom(c, a, fs)
  {
  }
}
