/**
The SDK object of rabbitmqsdk.go and reconnect.go: declaring, starting consumers,
publishing, reconnecting and closing, run by one goroutine that holds the locks the code
holds.  Lifecycle, StartRace, DialRace and Locks have the interleavings.
*/
module Sdk {
  import opened Options
  import opened Broker
  import opened Network
  import opened Topology
  import opened Pool
  import opened Retry

  // NumWorkers goroutines consuming one queue on one AMQP channel.
  datatype Consumer = Consumer(channel: nat, queue: string, workers: int)

  // One message handed to an AMQP channel, and what the broker is known to have said.
  datatype Verdict = Acked | Nacked | Unknown
  datatype Publication = Publication(exchange: string, routingKey: string, msg: Publishing, verdict: Verdict)

  // A message as the caller builds it; a builder step may have failed.
  datatype Message = Message(content: Publishing, broken: bool)

  // What a batch of messages has become when all of them were confirmed.
  function Confirmed(exchange: string, routingKey: string, ms: seq<Message>): (sent: seq<Publication>)
    ensures |sent| == |ms|
    ensures forall i :: 0 <= i < |ms| ==> sent[i] == Publication(exchange, routingKey, ms[i].content, Acked)
  {
    if ms == [] then [] else
    Confirmed(exchange, routingKey, ms[..|ms| - 1])
    + [Publication(exchange, routingKey, ms[|ms| - 1].content, Acked)]
  }

  // How a call of startWithStoreQueuesFlag ends.
  datatype StartOutcome = Started | StartContextEnded | NotStartable | ConsumeFailed

  // What startWithStoreQueuesFlag checks before it does anything.
  predicate Startable(q: QueueConfig) {
    Valid(q) && q.hasHandler && q.numWorkers > 0
  }

  lemma StartableExactly(q: QueueConfig)
    ensures Startable(q) <==>
      && q.hasHandler && q.numWorkers >= 1
      && q.name != "" && (q.queueType == "" || q.queueType == "classic" || q.queueType == "quorum")
      && q.maxRedelivery >= -1 && q.dummyMessageFrequency >= 0
      && (q.queueType == "quorum" ==> q.durable && !q.autoDelete && !q.exclusive)
      && (q.isDelayQueue ==>
            q.exchange != "" && q.delayStrategy == 0 && 0 < q.dlxTTL && q.dlxTTL / 1_000_000 <= 0x7FFF_FFFF)
  {
    ValidExactly(q);
  }

  function Names(qs: seq<QueueConfig>): (names: seq<string>)
    ensures |names| == |qs| && forall i :: 0 <= i < |qs| ==> names[i] == qs[i].name
  {
    if qs == [] then [] else Names(qs[..|qs| - 1]) + [qs[|qs| - 1].name]
  }

  // The consumers of qs, each with all its workers, on a channel.
  function Consumers(channel: nat, qs: seq<QueueConfig>): (cs: seq<Consumer>)
    ensures |cs| == |qs|
    ensures forall i :: 0 <= i < |qs| ==> cs[i] == Consumer(channel, qs[i].name, qs[i].numWorkers)
  {
    if qs == [] then [] else
    Consumers(channel, qs[..|qs| - 1]) + [Consumer(channel, qs[|qs| - 1].name, qs[|qs| - 1].numWorkers)]
  }

  // One more declaration f on top of w, both parts of what is wanted: it is refused only if
  // the wanted fragment contradicts what was there to begin with.
  lemma OneMore(b: Broker, w: Broker, f: Broker, wanted: Broker)
    requires Agree(b, w) && Sub(w, wanted) && Sub(f, wanted)
    ensures Merge(Merge(b, w), f) == Merge(b, Merge(w, f)) && Sub(Merge(w, f), wanted)
    ensures if Agree(Merge(b, w), f) then Agree(b, Merge(w, f)) else !Agree(b, wanted)
  {
    MergeMore(b, w, f);
    MergeWithin(w, f, wanted);
  }

  // Of the wanted fragment f, part was added to the broker b, giving b'.
  ghost predicate StoppedAt(b: Broker, f: Broker, b': Broker, r: Outcome, part: Broker) {
    && Sub(part, f) && Agree(b, part) && b' == Merge(b, part)
    && (r.Refused? ==> !Agree(b, f))
  }

  // The first n of qs, whose wanted fragments are fs, have been declared on the broker b.
  ghost predicate Reached(b: Broker, qs: seq<QueueConfig>, fs: seq<Broker>, n: nat, b': Broker)
    requires n <= |qs| == |fs|
  {
    ValidUpTo(qs, n) && Compatible(b, fs[..n]) && b' == MergeAll(b, fs[..n])
  }

  // ... and the next one was not, for the reason r.
  ghost predicate StuckAt(b: Broker, qs: seq<QueueConfig>, fs: seq<Broker>, n: nat, b': Broker, r: Outcome,
      part: Broker)
    requires n < |qs| == |fs|
  {
    && ValidUpTo(qs, n) && Compatible(b, fs[..n])
    && (r.Invalid? ==> Validate(qs[n]) == Some(r.problem))
    && StoppedAt(MergeAll(b, fs[..n]), fs[n], b', r, part)
  }

  // Nothing was sent for the message, or it was sent once and not confirmed.
  predicate NotConfirmed(before: seq<Publication>, after: seq<Publication>, exchange: string, routingKey: string,
      msg: Publishing)
  {
    || after == before
    || after == before + [Publication(exchange, routingKey, msg, Nacked)]
    || after == before + [Publication(exchange, routingKey, msg, Unknown)]
  }

  // Only the given connection can be open, and it carries no consumers but those on the
  // given channel.
  ghost predicate OthersClosed(w: World, conn: nat, channel: nat, started: seq<Consumer>) {
    && (forall c :: c in w.openConns ==> c == conn)
    && (forall i :: 0 <= i < |started| ==> started[i].channel < |w.channels|)
    && (forall i :: 0 <= i < |started| ==>
        started[i].channel == channel || w.channels[started[i].channel].conn != conn)
  }

  class SDK {
    const net: Network
    const publisherPoolSize: nat
    const publisherMaxPoolSize: int
    var conn: nat
    var channel: nat
    var publisherPool: PublisherChannelPool?
    var queues: seq<QueueConfig>
    var declaredQueues: seq<QueueConfig>
    var qosConfigured: bool
    var qos: Qos
    ghost var started: seq<Consumer>       // every consumer ever started
    ghost var sent: seq<Publication>       // every message ever handed to a channel

    constructor (net: Network, conn: nat, channel: nat, publisherPool: PublisherChannelPool, size: nat, max: int)
      requires Sane(net.world) && channel < |net.world.channels|
      requires net.world.channels[channel] == Setup(conn, false, None, [])
      ensures this.net == net && this.conn == conn && this.channel == channel && this.publisherPool == publisherPool
      ensures publisherPoolSize == size && publisherMaxPoolSize == max
      ensures queues == [] && declaredQueues == [] && !qosConfigured && started == [] && sent == []
    {
      this.net, this.conn, this.channel, this.publisherPool := net, conn, channel, publisherPool;
      publisherPoolSize, publisherMaxPoolSize := size, max;
      queues, declaredQueues, qosConfigured, qos, started, sent := [], [], false, Qos(0, 0, false), [], [];
    }

    // ---------------------------------------------------------------- topology

    // Only trouble ends a declaration for the context or the network.
    ghost predicate Excused(w: World, r: Outcome)
      reads net
    {
      r.ContextEnded? || r.NetworkFailed? ==> !Calm(w, net.world)
    }

    // One declaration, with the error the source returns for each reply.
    method Ask(f: Broker, ghost b: Broker, ghost w: Broker, ghost wanted: Broker) returns (r: Outcome, ghost w': Broker)
      requires Sane(net.world) && net.broker == Merge(b, w) && Agree(b, w) && Sub(w, wanted) && Sub(f, wanted)
      modifies net`world, net`broker
      ensures Sane(net.world) && Becomes(old(net.world), net.world) && Excused(old(net.world), r)
      ensures net.broker == Merge(b, w') && Agree(b, w') && Sub(w', wanted)
      ensures r.Done? || r.Refused? || r.NetworkFailed?
      ensures r.Done? ==> w' == Merge(w, f)
      ensures r.Refused? ==> !Agree(b, wanted)
    {
      OneMore(b, w, f, wanted);
      ghost var before := net.broker;
      var reply := net.Declare(f);
      w' := if net.broker == before then w else Merge(w, f);
      match reply
      case Accepted => r := Done; w' := Merge(w, f);
      case Conflict => r := Refused;
      case Failed => r := NetworkFailed;
    }

    method AskBind(queue: string, routingKey: string, exchange: string, ghost b: Broker, ghost w: Broker,
        ghost wanted: Broker)
      returns (r: Outcome, ghost w': Broker)
      requires Sane(net.world) && net.broker == Merge(b, w) && Agree(b, w) && Sub(w, wanted)
      requires Sub(ABinding(queue, routingKey, exchange), wanted)
      requires queue in net.broker.queues && exchange in net.broker.exchanges
      modifies net`world, net`broker
      ensures Sane(net.world) && Becomes(old(net.world), net.world) && Excused(old(net.world), r)
      ensures net.broker == Merge(b, w') && Agree(b, w') && Sub(w', wanted)
      ensures r.Done? || r.NetworkFailed?
      ensures r.Done? ==> w' == Merge(w, ABinding(queue, routingKey, exchange))
    {
      ghost var f := ABinding(queue, routingKey, exchange);
      OneMore(b, w, f, wanted);
      ghost var before := net.broker;
      var reply := net.Bind(queue, routingKey, exchange);
      w' := if net.broker == before then w else Merge(w, f);
      match reply
      case Accepted => r := Done; w' := Merge(w, f);
      case Failed => r := NetworkFailed;
    }

    // <Name>.DLX and <Name>.DLQ (rabbitmqsdk.go:242-258).
    method DeclareDLQ(q: QueueConfig, ghost b: Broker, ghost w: Broker, ghost wanted: Broker)
      returns (r: Outcome, ghost w': Broker)
      requires Sane(net.world) && net.broker == Merge(b, w) && Agree(b, w) && Sub(w, wanted) && q.enableDLQ
      requires Sub(DLQPart(q), wanted)
      modifies net`world, net`broker
      ensures Sane(net.world) && Becomes(old(net.world), net.world) && Excused(old(net.world), r)
      ensures net.broker == Merge(b, w') && Agree(b, w') && Sub(w', wanted)
      ensures r.Done? || r.Refused? || r.NetworkFailed?
      ensures r.Done? ==> w' == Merge(w, DLQPart(q))
      ensures r.Refused? ==> !Agree(b, wanted)
    {
      DLQPieces(q, wanted);
      var dlxName, dlqName := q.name + ".DLX", q.name + ".DLQ";
      r, w' := DeclareEnds(dlxName, dlqName, Queue(true, false, false, map[]), b, w, wanted);
      if !r.Done? { return; }
      r, w' := AskBind(dlqName, dlqName, dlxName, b, w', wanted);
      DLQPartIsBuilt(q, w);
    }

    // A durable direct exchange, and a queue.
    method DeclareEnds(exchange: string, queue: string, properties: Queue, ghost b: Broker, ghost w: Broker,
        ghost wanted: Broker)
      returns (r: Outcome, ghost w': Broker)
      requires Sane(net.world) && net.broker == Merge(b, w) && Agree(b, w) && Sub(w, wanted)
      requires Sub(AnExchange(exchange, DIRECT), wanted) && Sub(AQueue(queue, properties), wanted)
      modifies net`world, net`broker
      ensures Sane(net.world) && Becomes(old(net.world), net.world) && Excused(old(net.world), r)
      ensures net.broker == Merge(b, w') && Agree(b, w') && Sub(w', wanted)
      ensures r.Done? || r.Refused? || r.NetworkFailed?
      ensures r.Done? ==> w' == Merge(Merge(w, AnExchange(exchange, DIRECT)), AQueue(queue, properties))
      ensures r.Done? ==> queue in net.broker.queues && exchange in net.broker.exchanges
      ensures r.Refused? ==> !Agree(b, wanted)
    {
      r, w' := Ask(AnExchange(exchange, Exchange("direct", true, false, false)), b, w, wanted);
      if !r.Done? { return; }
      r, w' := Ask(AQueue(queue, properties), b, w', wanted);
    }

    // The argument table of the delay queue (rabbitmqsdk.go:284-291).
    method DelayArgs(q: QueueConfig, routingKey: string) returns (args: Arguments)
      requires routingKey == BindingKey(q)
      ensures Queue(true, false, false, args) == DelayQueue(q)
    {
      args := map[
        "x-message-ttl" := Number(ToInt32(Milliseconds(q.dlxTTL))),
        "x-dead-letter-exchange" := Text(q.exchange),
        "x-dead-letter-routing-key" := Text(routingKey)];
      if q.queueType == QUORUM {
        args := args["x-queue-type" := Text("quorum")];
      }
    }

    // The exchange and the delay queue (rabbitmqsdk.go:270-295).
    method DeclareDelay(q: QueueConfig, routingKey: string, ghost b: Broker, ghost w: Broker, ghost wanted: Broker)
      returns (r: Outcome, ghost w': Broker)
      requires Sane(net.world) && net.broker == Merge(b, w) && Agree(b, w) && Sub(w, wanted)
      requires q.isDelayQueue && routingKey == BindingKey(q)
      requires Sub(DelayPart(q), wanted)
      modifies net`world, net`broker
      ensures Sane(net.world) && Becomes(old(net.world), net.world) && Excused(old(net.world), r)
      ensures net.broker == Merge(b, w') && Agree(b, w') && Sub(w', wanted)
      ensures r.Done? || r.Refused? || r.NetworkFailed?
      ensures r.Done? ==> w' == Merge(w, DelayPart(q))
      ensures r.Refused? ==> !Agree(b, wanted)
    {
      var delayArgs := DelayArgs(q, routingKey);
      var delayQueue := Queue(true, false, false, delayArgs);
      r, w' := DeclareEnds(q.exchange, DelayQueueName(q.name), delayQueue, b, w, wanted);
      DelayPartIsBuilt(q, w);
    }

    // The body of the loop of declareQueuesLocked (rabbitmqsdk.go:220-330).
    method DeclareQueue(q: QueueConfig) returns (r: Outcome, ghost part: Broker)
      requires Sane(net.world)
      modifies net`world, net`broker
      ensures Sane(net.world) && Becomes(old(net.world), net.world) && Excused(old(net.world), r)
      ensures StoppedAt(old(net.broker), Wanted(q), net.broker, r, part)
      ensures r.Done? ==> Valid(q) && part == Wanted(q)
      ensures r.Invalid? ==> Validate(q) == Some(r.problem)
    {
      ghost var b := net.broker;
      part := EMPTY;
      NothingYet(b, q);
      PartsAreWanted(q);
      var ended := net.Trouble();
      if ended { return ContextEnded, part; }
      var problem := Validate(q);
      if problem.Some? { return Invalid(problem.value), part; }

      r, part := DeclareDetours(q, b);
      if !r.Done? { return; }
      r, part := DeclareMain(q, if q.routingKey == "" then q.name else q.routingKey, b, part, Wanted(q));
    }

    // What comes before the queue itself (rabbitmqsdk.go:242-302).
    method DeclareDetours(q: QueueConfig, ghost b: Broker) returns (r: Outcome, ghost w: Broker)
      requires Sane(net.world) && net.broker == b && Valid(q)
      modifies net`world, net`broker
      ensures Sane(net.world) && Becomes(old(net.world), net.world) && Excused(old(net.world), r)
      ensures net.broker == Merge(b, w) && Agree(b, w) && Sub(w, Wanted(q))
      ensures r.Done? || r.Refused? || r.NetworkFailed?
      ensures r.Done? ==> w == Merge(DLQPart(q), DelayPart(q)) && (q.isDelayQueue ==> q.exchange in w.exchanges)
      ensures r.Refused? ==> !Agree(b, Wanted(q))
    {
      w := EMPTY;
      r := Done;
      NothingYet(b, q);
      PartsAreWanted(q);
      StartFromNothing(DLQPart(q));
      StartFromNothing(DelayPart(q));
      if q.enableDLQ {
        r, w := DeclareDLQ(q, b, w, Wanted(q));
        if !r.Done? { return; }
      }
      if q.isDelayQueue && q.delayStrategy == DELAY_DLX_TTL {
        r, w := DeclareDelay(q, if q.routingKey == "" then q.name else q.routingKey, b, w, Wanted(q));
      }
    }

    // The argument table of the queue itself (rabbitmqsdk.go:229-235, 260-264, 304-309).
    method MainArgs(q: QueueConfig) returns (args: Arguments)
      ensures args == QuorumArgs(q) + DLQArgs(q) + TimeoutArgs(q)
    {
      args := map[];
      if q.queueType == QUORUM {
        args := args["x-queue-type" := Text("quorum")];
      }
      assert args == QuorumArgs(q);
      if q.enableDLQ {
        args := args["x-dead-letter-exchange" := Text(q.name + ".DLX")];
        args := args["x-dead-letter-routing-key" := Text(q.name + ".DLQ")];
      }
      assert args == QuorumArgs(q) + DLQArgs(q);
      if q.consumerTimeout > 0 {
        args := args["x-consumer-timeout" := Number(Milliseconds(q.consumerTimeout))];
      }
    }

    // The queue itself and its binding (rabbitmqsdk.go:311-330).
    method DeclareMain(q: QueueConfig, routingKey: string, ghost b: Broker, ghost w: Broker, ghost wanted: Broker)
      returns (r: Outcome, ghost w': Broker)
      requires Sane(net.world) && net.broker == Merge(b, w) && Agree(b, w) && Sub(w, wanted)
      requires routingKey == BindingKey(q) && (q.isDelayQueue ==> q.exchange in w.exchanges)
      requires Sub(MainPart(q), wanted) && Sub(BindPart(q), wanted)
      modifies net`world, net`broker
      ensures Sane(net.world) && Becomes(old(net.world), net.world) && Excused(old(net.world), r)
      ensures net.broker == Merge(b, w') && Agree(b, w') && Sub(w', wanted)
      ensures r.Done? || r.Refused? || r.NetworkFailed?
      ensures r.Done? ==> w' == Merge(Merge(w, MainPart(q)), BindPart(q))
      ensures r.Refused? ==> !Agree(b, wanted)
    {
      var args := MainArgs(q);
      assert Queue(q.durable, q.autoDelete, q.exclusive, args) == MainQueue(q);
      r, w' := Ask(AQueue(q.name, Queue(q.durable, q.autoDelete, q.exclusive, args)), b, w, wanted);
      if !r.Done? { return; }
      StartFromNothing(w');
      if q.isDelayQueue {
        r, w' := AskBind(q.name, routingKey, q.exchange, b, w', wanted);
      }
    }

    // declareQueuesLocked: the whole effect on the broker is Declares, and the queues are
    // remembered exactly when all of them were declared and store is set.
    method DeclareQueuesLocked(qs: seq<QueueConfig>, store: bool)
      returns (r: Outcome, ghost done: nat, ghost part: Broker)
      requires Sane(net.world)
      modifies net`world, net`broker, this`declaredQueues
      ensures Sane(net.world) && Becomes(old(net.world), net.world) && Excused(old(net.world), r)
      ensures Declares(old(net.broker), qs, net.broker, r, done, part)
      ensures declaredQueues == if r.Done? && store then old(declaredQueues) + qs else old(declaredQueues)
    {
      ghost var fs := AllWanted(qs);
      r, done, part := DeclareEach(qs, fs);
      assert fs[..|fs|] == fs;
      if r.Done? && store {
        declaredQueues := declaredQueues + qs;
      }
    }

    // Its loop, in terms of the wanted fragments fs.
    method DeclareEach(qs: seq<QueueConfig>, ghost fs: seq<Broker>)
      returns (r: Outcome, ghost done: nat, ghost part: Broker)
      requires Sane(net.world) && |fs| == |qs| && forall i :: 0 <= i < |qs| ==> fs[i] == Wanted(qs[i])
      modifies net`world, net`broker
      ensures Sane(net.world) && Becomes(old(net.world), net.world) && Excused(old(net.world), r)
      ensures done <= |qs| && (r.Done? <==> done == |qs|)
      ensures r.Done? ==> Reached(old(net.broker), qs, fs, done, net.broker)
      ensures r.Done? || StuckAt(old(net.broker), qs, fs, done, net.broker, r, part)
    {
      ghost var b := net.broker;
      part := EMPTY;
      done := 0;
      var i := 0;
      while i < |qs|
        invariant 0 <= i == done <= |qs|
        invariant Sane(net.world) && Becomes(old(net.world), net.world)
        invariant Reached(b, qs, fs, i, net.broker)
      {
        r, part := DeclareNext(qs, i, b, fs);
        if !r.Done? { return; }
        i := i + 1;
        done := i;
      }
      r := Done;
    }

    method DeclareNext(qs: seq<QueueConfig>, i: nat, ghost b: Broker, ghost fs: seq<Broker>)
      returns (r: Outcome, ghost part: Broker)
      requires Sane(net.world) && i < |qs| == |fs| && fs[i] == Wanted(qs[i])
      requires Reached(b, qs, fs, i, net.broker)
      modifies net`world, net`broker
      ensures Sane(net.world) && Becomes(old(net.world), net.world) && Excused(old(net.world), r)
      ensures r.Done? ==> Reached(b, qs, fs, i + 1, net.broker)
      ensures !r.Done? ==> StuckAt(b, qs, fs, i, net.broker, r, part)
    {
      r, part := DeclareQueue(qs[i]);
      MergeAllNext(b, fs, i);
    }

    // DeclareQueues, with the context check it begins with.
    method DeclareQueues(qs: seq<QueueConfig>) returns (r: Outcome, ghost done: nat, ghost part: Broker)
      requires Sane(net.world)
      modifies net`world, net`broker, this`declaredQueues
      ensures Sane(net.world) && Becomes(old(net.world), net.world) && Excused(old(net.world), r)
      ensures (net.broker == old(net.broker) && r.ContextEnded?)
          || Declares(old(net.broker), qs, net.broker, r, done, part)
      ensures r.Done? ==> Established(net.broker, AllWanted(qs)) && Sub(old(net.broker), net.broker)
      ensures declaredQueues == if r.Done? then old(declaredQueues) + qs else old(declaredQueues)
    {
      var ended := net.Trouble();
      if ended { return ContextEnded, 0, EMPTY; }
      ghost var b := net.broker;
      r, done, part := DeclareQueuesLocked(qs, true);
      if r.Done? {
        assert AllWanted(qs)[..done] == AllWanted(qs);
        MergeAllContains(b, AllWanted(qs));
      }
    }

    // ---------------------------------------------------------------- consumers

    // SetQos: remembered exactly when the broker took it.
    method SetQos(q: Qos) returns (ok: bool)
      requires Sane(net.world) && channel < |net.world.channels|
      modifies net`world, this`qosConfigured, this`qos
      ensures Sane(net.world)
      ensures ok ==> qosConfigured && qos == q
      ensures ok ==>
                Becomes(WithSetup(old(net.world), channel, old(net.world.channels[channel]).(qos := Some(q))),
                        net.world)
      ensures !ok ==> qosConfigured == old(qosConfigured) && qos == old(qos) && Becomes(old(net.world), net.world)
      ensures !ok && Calm(old(net.world), net.world) ==> channel !in net.world.openChannels
    {
      ok := net.SetQos(channel, q);
      if !ok { return; }
      qosConfigured := true;
      qos := q;
    }

    ghost predicate OnBroker(qs: seq<QueueConfig>)
      reads net
    {
      forall i :: 0 <= i < |qs| ==> qs[i].name in net.broker.queues
    }

    // startWithStoreQueuesFlag.  All configurations are checked before anything happens; with
    // store they are remembered before the first consumer starts, so even when it fails.
    method StartWithStoreQueuesFlag(qs: seq<QueueConfig>, store: bool) returns (r: StartOutcome, ghost n: nat)
      requires Sane(net.world) && channel < |net.world.channels|
      modifies net`world, this`queues, this`started
      ensures Sane(net.world) && Later(old(net.world), net.world) && n <= |qs|
      ensures (r.Started? ==> n == |qs|) && (r.ConsumeFailed? ==> n < |qs|)
      ensures r.StartContextEnded? || r.NotStartable? ==> n == 0
      ensures started == old(started) + Consumers(channel, qs[..n])
      ensures Consumed(old(net.world), channel, Names(qs[..n]), net.world)
      ensures r.Started? || r.ConsumeFailed? ==> forall i :: 0 <= i < |qs| ==> Startable(qs[i])
      ensures r.Started? ==> OnBroker(qs)
      ensures r.StartContextEnded? ==> !Calm(old(net.world), net.world)
      ensures r.ConsumeFailed? && Calm(old(net.world), net.world) ==>
                channel !in old(net.world.openChannels) || !OnBroker(qs)
      ensures r.Started? ==> StaysOpen(old(net.world), net.world)
      ensures r.NotStartable? ==> exists i :: 0 <= i < |qs| && !Startable(qs[i])
      ensures queues == if store && (r.Started? || r.ConsumeFailed?) then old(queues) + qs else old(queues)
    {
      n := 0;
      ConsumedNothing(net.world, channel);
      var ended := net.Trouble();
      if ended { return StartContextEnded, n; }
      var i := 0;
      while i < |qs|
        invariant 0 <= i <= |qs| && forall j :: 0 <= j < i ==> Startable(qs[j])
      {
        if !Startable(qs[i]) { return NotStartable, n; }
        i := i + 1;
      }
      if store {
        queues := queues + qs;
      }
      var ok;
      ok, n := ConsumeAll(qs);
      r := if ok then Started else ConsumeFailed;
    }

    // The first n of qs are being consumed, with all their workers, since the world was w and
    // the consumers were those given.
    ghost predicate ConsumedUpTo(w: World, earlier: seq<Consumer>, qs: seq<QueueConfig>, n: nat)
      requires n <= |qs| && channel < |w.channels|
      reads this, net
    {
      && Sane(net.world) && Later(w, net.world) && StaysOpen(w, net.world)
      && started == earlier + Consumers(channel, qs[..n])
      && Consumed(w, channel, Names(qs[..n]), net.world)
      && OnBroker(qs[..n])
    }

    // One Consume call per queue, and its workers when it succeeds (rabbitmqsdk.go:374-407).
    method ConsumeAll(qs: seq<QueueConfig>) returns (ok: bool, ghost n: nat)
      requires Sane(net.world) && channel < |net.world.channels|
      modifies net`world, this`started
      ensures Sane(net.world) && Later(old(net.world), net.world) && n <= |qs| && (ok <==> n == |qs|)
      ensures started == old(started) + Consumers(channel, qs[..n])
      ensures Consumed(old(net.world), channel, Names(qs[..n]), net.world)
      ensures ok ==> OnBroker(qs) && StaysOpen(old(net.world), net.world)
      ensures !ok && Calm(old(net.world), net.world) ==> channel !in old(net.world.openChannels) || !OnBroker(qs)
    {
      ghost var before, earlier := net.world, started;
      var i := 0;
      n := 0;
      ConsumedNothing(before, channel);
      while i < |qs|
        invariant 0 <= i == n <= |qs| && channel < |before.channels| && ConsumedUpTo(before, earlier, qs, i)
      {
        ok := ConsumeNext(qs, i, before, earlier);
        if !ok { return; }
        i := i + 1;
        n := i;
      }
      assert qs[..|qs|] == qs;
      ok := true;
    }

    method ConsumeNext(qs: seq<QueueConfig>, i: nat, ghost w: World, ghost earlier: seq<Consumer>) returns (ok: bool)
      requires i < |qs| && channel < |w.channels| && ConsumedUpTo(w, earlier, qs, i)
      modifies net`world, this`started
      ensures ok ==> ConsumedUpTo(w, earlier, qs, i + 1)
      ensures !ok ==> Sane(net.world) && Later(w, net.world) && Consumed(w, channel, Names(qs[..i]), net.world)
      ensures !ok ==> started == old(started)
      ensures !ok && Calm(w, net.world) ==> channel !in w.openChannels || qs[i].name !in net.broker.queues
    {
      ghost var mid := net.world;
      ok := net.Consume(channel, qs[i].name);
      if !ok { return; }
      ConsumedMore(w, channel, Names(qs[..i]), mid, qs[i].name, net.world);
      assert qs[..i + 1][..i] == qs[..i];
      started := started + [Consumer(channel, qs[i].name, qs[i].numWorkers)];
    }

    // ---------------------------------------------------------------- publishing

    // The publisher pool, when there is one, belongs to the current connection.
    ghost predicate PoolFits()
      reads this, publisherPool, net
    {
      publisherPool != null ==> publisherPool.net == net && publisherPool.Valid() && publisherPool.conn == conn
    }

    // From handing the message to the channel to the confirm (rabbitmqsdk.go:628-666); None
    // when the context ended before.  Cancelling while the write runs closes the connection.
    method Transmit(c: nat) returns (v: Option<Verdict>)
      requires Sane(net.world)
      modifies net`world
      ensures Sane(net.world) && Later(old(net.world), net.world)
      ensures v == Some(Acked) || !Calm(old(net.world), net.world)
      ensures Calm(old(net.world), net.world) ==> net.world == old(net.world)
    {
      net.Pass();
      var ended := net.Trouble();
      if ended { return None; }
      var interrupted := net.Trouble();
      if interrupted {
        net.CloseConn(c);
        return Some(Unknown);
      }
      var unpublished := net.Trouble();
      if unpublished { return Some(Unknown); }
      var refused := net.Trouble();
      if refused {
        var answered: bool := *;
        return Some(if answered then Nacked else Unknown);
      }
      v := Some(Acked);
    }

    // Borrowing a channel for one message: it is back, or given up, on every path.  Meanwhile
    // a reconnect or a Shutdown may take this pool out of s.publisherPool and close it.
    method Borrow(pool: PublisherChannelPool) returns (v: Option<Verdict>)
      requires pool.net == net && pool.Valid()
      modifies net`world, pool
      ensures pool.Valid() && Later(old(net.world), net.world) && pool.lent == old(pool.lent)
      ensures v != Some(Acked) && Calm(old(net.world), net.world) ==> pool.Exhausted()
    {
      var h := GetFrom(pool);
      if h.None? { return None; }
      v := SendThrough(pool);
      pool.Put(h.value);
    }

    method GetFrom(pool: PublisherChannelPool) returns (h: Option<nat>)
      requires pool.net == net && pool.Valid()
      modifies net`world, pool
      ensures pool.Valid() && Later(old(net.world), net.world)
      ensures h.None? ==> pool.lent == old(pool.lent)
      ensures h.None? && Calm(old(net.world), net.world) ==> pool.Exhausted()
      ensures h.Some? ==> h.value !in old(pool.lent) && pool.lent == old(pool.lent) + {h.value}
    {
      MaybeClose(pool);
      h := pool.Get();
    }

    method SendThrough(pool: PublisherChannelPool) returns (v: Option<Verdict>)
      requires pool.net == net && pool.Valid()
      modifies net`world, pool`currentPoolSize, pool`channels, pool`closed
      ensures pool.Valid() && Later(old(net.world), net.world)
      ensures v == Some(Acked) || !Calm(old(net.world), net.world)
    {
      MaybeClose(pool);
      v := TransmitOn(pool);
      MaybeClose(pool);
    }

    method MaybeClose(pool: PublisherChannelPool)
      requires pool.net == net && pool.Valid()
      modifies net`world, pool`currentPoolSize, pool`channels, pool`closed
      ensures pool.Valid() && Later(old(net.world), net.world)
    {
      var closes := net.Trouble();
      if closes { pool.Close(); }
    }

    method TransmitOn(pool: PublisherChannelPool) returns (v: Option<Verdict>)
      requires pool.net == net && pool.Valid()
      modifies net`world
      ensures pool.Valid() && Later(old(net.world), net.world)
      ensures v == Some(Acked) || !Calm(old(net.world), net.world)
    {
      ghost var before := net.world;
      v := Transmit(pool.conn);
      pool.StillValid(before, net.world);
    }

    // publishAMQP: true only for a positive confirm, and the pool has lent no more and no
    // fewer channels than before.
    method PublishAMQP(exchange: string, routingKey: string, msg: Publishing) returns (ok: bool)
      requires Sane(net.world) && PoolFits()
      modifies net`world, this`sent, publisherPool
      ensures Sane(net.world) && PoolFits() && Later(old(net.world), net.world)
      ensures publisherPool != null ==> publisherPool.lent == old(publisherPool.lent)
      ensures ok ==> sent == old(sent) + [Publication(exchange, routingKey, msg, Acked)]
      ensures !ok ==> NotConfirmed(old(sent), sent, exchange, routingKey, msg)
      ensures publisherPool == null ==> !ok && sent == old(sent)
      ensures !ok && Calm(old(net.world), net.world) ==> publisherPool == null || publisherPool.Exhausted()
    {
      ok := false;
      var ended := net.Trouble();
      if ended || publisherPool == null { return; }
      var v := Borrow(publisherPool);
      if v.Some? {
        sent := sent + [Publication(exchange, routingKey, msg, v.value)];
        ok := v.value == Acked;
      }
    }

    // Publish: a message that could not be built is refused before anything is sent.
    method Publish(exchange: string, routingKey: string, m: Message) returns (ok: bool)
      requires Sane(net.world) && PoolFits()
      modifies net`world, this`sent, publisherPool
      ensures Sane(net.world) && PoolFits() && Later(old(net.world), net.world)
      ensures publisherPool != null ==> publisherPool.lent == old(publisherPool.lent)
      ensures ok ==> !m.broken && sent == old(sent) + [Publication(exchange, routingKey, m.content, Acked)]
      ensures !ok ==> NotConfirmed(old(sent), sent, exchange, routingKey, m.content)
      ensures !ok && Calm(old(net.world), net.world) ==>
                m.broken || publisherPool == null || publisherPool.Exhausted()
    {
      var ended := net.Trouble();
      if ended || m.broken { return false; }
      ok := PublishAMQP(exchange, routingKey, m.content);
    }

    // BatchPublish: when it fails at message n, exactly the messages before n were confirmed,
    // in order, and none after n was attempted.
    method BatchPublish(exchange: string, routingKey: string, ms: seq<Message>) returns (ok: bool, ghost n: nat)
      requires Sane(net.world) && PoolFits()
      modifies net`world, this`sent, publisherPool
      ensures Sane(net.world) && PoolFits() && Later(old(net.world), net.world)
      ensures publisherPool != null ==> publisherPool.lent == old(publisherPool.lent)
      ensures n <= |ms| && (ok ==> n == |ms| && sent == old(sent) + Confirmed(exchange, routingKey, ms))
      ensures !ok && n == |ms| ==> ms == [] && sent == old(sent) && !Calm(old(net.world), net.world)
      ensures !ok && n < |ms| && Calm(old(net.world), net.world) ==>
                ms[n].broken || publisherPool == null || publisherPool.Exhausted()
      ensures !ok && n < |ms| ==>
                NotConfirmed(old(sent) + Confirmed(exchange, routingKey, ms[..n]), sent,
                             exchange, routingKey, ms[n].content)
    {
      n := 0;
      var ended := net.Trouble();
      if ended { return false, 0; }
      var i := 0;
      while i < |ms|
        invariant 0 <= i == n <= |ms| && Sane(net.world) && PoolFits() && Later(old(net.world), net.world)
        invariant publisherPool != null ==> publisherPool.lent == old(publisherPool.lent)
        invariant sent == old(sent) + Confirmed(exchange, routingKey, ms[..i])
      {
        ok := Publish(exchange, routingKey, ms[i]);
        if !ok { return; }
        assert ms[..i + 1][..i] == ms[..i];
        i := i + 1;
        n := i;
      }
      assert ms[..|ms|] == ms;
      ok := true;
    }

    // PublishWithDelayDLXTTL: through the default exchange to the delay queue of that name.
    method PublishWithDelayDLXTTL(queueName: string, m: Message) returns (ok: bool)
      requires Sane(net.world) && PoolFits()
      modifies net`world, this`sent, publisherPool
      ensures Sane(net.world) && PoolFits() && Later(old(net.world), net.world)
      ensures ok ==> !m.broken && sent == old(sent) + [Publication("", queueName + ".delay", m.content, Acked)]
      ensures !ok ==> NotConfirmed(old(sent), sent, "", queueName + ".delay", m.content)
      ensures !ok && Calm(old(net.world), net.world) ==>
                m.broken || publisherPool == null || publisherPool.Exhausted()
    {
      var ended := net.Trouble();
      if ended || m.broken { return false; }
      ok := Publish("", DelayQueueName(queueName), m);
    }

    // ---------------------------------------------------------------- reconnecting

    // What holds at every loop head of reconnect and at every one of its exits: all that was
    // ever dialled is closed, except possibly s.conn; the pool, if there is one, was built on
    // s.conn; consumers on other channels are on connections that are gone.
    ghost predicate Settled()
      reads this, publisherPool, net
    {
      && Sane(net.world) && conn < net.world.dialled
      && channel < |net.world.channels| && net.world.channels[channel].conn == conn
      && PoolFits()
      && OthersClosed(net.world, conn, channel, started)
    }

    // The connection and the consume channel are open.
    ghost predicate Up()
      reads this, net
    {
      conn in net.world.openConns && channel in net.world.openChannels
    }

    // reconnect.go:72-91
    method DropOld()
      requires Settled()
      modifies this`publisherPool, publisherPool, net`world
      ensures Settled() && publisherPool == null && net.world.openConns == {}
      ensures Later(old(net.world), net.world) && net.world.channels == old(net.world.channels)
    {
      var oldPool := publisherPool;
      publisherPool := null;
      if oldPool != null { oldPool.Close(); }
      net.CloseChannel(channel);
      net.CloseConn(conn);
    }

    // reconnect.go:92-128: None when nothing was stored; what had been dialled is closed.
    method DialAndStore() returns (ok: bool)
      requires Settled() && publisherPool == null && net.world.openConns == {}
      modifies this`conn, this`channel, net`world
      ensures Settled()
      ensures !ok ==> conn == old(conn) && channel == old(channel) && net.world.openConns == {}
      ensures ok ==> conn >= old(net.world.dialled) && channel >= |old(net.world.channels)|
      ensures ok ==> net.world.channels[channel] == Setup(conn, false, None, [])
      ensures Later(old(net.world), net.world)
      ensures Calm(old(net.world), net.world) ==> ok && Up()
    {
      ok := false;
      var c := net.Dial();
      if c.None? { return; }
      var cancelled := net.Trouble();
      if cancelled {
        net.CloseConn(c.value);
        return;
      }
      var h := net.OpenChannel(c.value);
      if h.None? {
        net.CloseConn(c.value);
        return;
      }
      conn := c.value;
      channel := h.value;
      ok := true;
    }

    // closeReconnectResources on what was just stored.
    method CloseStored()
      requires Settled()
      modifies net`world
      ensures Settled() && Ages(old(net.world), net.world) && net.world.openConns == {}
    {
      net.CloseChannel(channel);
      net.CloseConn(conn);
    }

    function QosInForce(): Option<Qos>
      reads this
    {
      if qosConfigured then Some(qos) else None
    }

    // reconnect.go:130-143: the last successful SetQos, if any.
    method RestoreQos() returns (ok: bool)
      requires Settled() && net.world.channels[channel] == Setup(conn, false, None, [])
      modifies net`world
      ensures Settled() && Later(old(net.world), net.world)
      ensures ok ==> Configured([])
      ensures !ok ==> net.world.openConns == {}
      ensures old(Up()) && Calm(old(net.world), net.world) ==> ok && Up()
    {
      if qosConfigured {
        ok := net.SetQos(channel, qos);
        if !ok { CloseStored(); }
      } else {
        ok := true;
      }
    }

    // reconnect.go:145-158: everything ever declared successfully, again.
    method RestoreTopology() returns (ok: bool)
      requires Settled()
      modifies net`world, net`broker, this`declaredQueues
      ensures Settled() && Ages(old(net.world), net.world) && declaredQueues == old(declaredQueues)
      ensures ok ==> Established(net.broker, AllWanted(declaredQueues)) && Sub(old(net.broker), net.broker)
      ensures QueuesFrom(net.broker, old(net.broker), AllWanted(declaredQueues))
      ensures !ok ==> net.world.openConns == {}
      ensures old(Up()) && Declarable(old(net.broker), declaredQueues) && Calm(old(net.world), net.world) ==> ok && Up()
    {
      ok := true;
      if |declaredQueues| > 0 {
        ghost var before := net.world;
        ok := Replay();
        PoolStillFits(before);
        if !ok { CloseStored(); }
      }
    }

    method Replay() returns (ok: bool)
      requires Sane(net.world)
      modifies net`world, net`broker, this`declaredQueues
      ensures Sane(net.world) && Becomes(old(net.world), net.world) && declaredQueues == old(declaredQueues)
      ensures ok ==> Established(net.broker, AllWanted(declaredQueues)) && Sub(old(net.broker), net.broker)
      ensures QueuesFrom(net.broker, old(net.broker), AllWanted(declaredQueues))
      ensures Declarable(old(net.broker), declaredQueues) && Calm(old(net.world), net.world) ==> ok
    {
      ghost var b := net.broker;
      ghost var fs := AllWanted(declaredQueues);
      var r, done, part := DeclareQueuesLocked(declaredQueues, false);
      DeclaresOnlyWanted(b, fs, net.broker, r, done, part);
      ok := r.Done?;
      DeclarableIsDeclared(b, declaredQueues, net.broker, r, done, part);
      if ok {
        assert fs[..done] == fs;
        MergeAllContains(b, fs);
      }
    }

    lemma PoolStillFits(w: World)
      requires publisherPool == null
          || (publisherPool.net == net && publisherPool.ValidIn(w) && publisherPool.conn == conn)
      requires Later(w, net.world) && Sane(net.world)
      ensures PoolFits()
    {
      if publisherPool != null { publisherPool.StillValid(w, net.world); }
    }

    // reconnect.go:160-183: a pool of publisherPoolSize confirm channels on the new connection.
    method RestorePool() returns (ok: bool)
      requires Settled() && publisherPool == null
      modifies net`world, this`publisherPool
      ensures Settled() && Later(old(net.world), net.world)
      ensures ok ==> PoolIsNew() && fresh(publisherPool)
      ensures !ok ==> publisherPool == null && net.world.openConns == {}
      ensures old(Configured([])) && ok ==> Configured([])
      ensures old(Up()) && Calm(old(net.world), net.world) ==> ok && Up()
    {
      var p := NewPublisherChannelPool(net, conn, publisherPoolSize, publisherMaxPoolSize);
      ok := p.Some?;
      if ok {
        publisherPool := p.value;
      } else {
        CloseStored();
      }
    }

    ghost predicate PoolIsNew()
      reads this, publisherPool
    {
      && publisherPool != null
      && publisherPool.size == publisherPoolSize == |publisherPool.channels|
      && publisherPool.maxPoolSize == ToInt32(publisherMaxPoolSize)
      && publisherPool.lent == {} && !publisherPool.closed
    }

    // The consume channel is set up like this.
    ghost predicate Configured(consumed: seq<string>)
      reads this, net
    {
      channel < |net.world.channels| && net.world.channels[channel] == Setup(conn, false, QosInForce(), consumed)
    }

    // reconnect.go:189-202: store=false, channelLocked=true.
    method RestoreConsumers() returns (ok: bool)
      requires Settled() && Configured([])
      modifies net`world, this`started, this`queues
      ensures Settled() && Later(old(net.world), net.world) && queues == old(queues)
      ensures ok ==> started == old(started) + Consumers(channel, queues) && OnBroker(queues)
      ensures ok ==> Configured(Names(queues))
      ensures old(started) <= started
      ensures old(Up() && OnBroker(queues) && AllStartable()) && Calm(old(net.world), net.world) ==> ok && Up()
    {
      ghost var before, earlier := net.world, started;
      ghost var n;
      ok, n := Restart();
      assert queues[..|queues|] == queues;
      PoolStillFits(before);
      OthersStayClosed(before, conn, channel, earlier, queues[..n], net.world);
      ConsumedFirst(before, channel, Names(queues[..n]), net.world);
    }

    method Restart() returns (ok: bool, ghost n: nat)
      requires Sane(net.world) && channel < |net.world.channels|
      modifies net`world, this`queues, this`started
      ensures Sane(net.world) && Later(old(net.world), net.world) && queues == old(queues)
      ensures n <= |queues| && started == old(started) + Consumers(channel, queues[..n])
      ensures Consumed(old(net.world), channel, Names(queues[..n]), net.world)
      ensures ok ==> n == |queues| && OnBroker(queues) && StaysOpen(old(net.world), net.world)
      ensures old(Up() && OnBroker(queues) && AllStartable()) && Calm(old(net.world), net.world) ==> ok
    {
      ok, n := true, |queues|;
      if |queues| > 0 {
        var r;
        r, n := StartWithStoreQueuesFlag(queues, false);
        ok := r.Started?;
      } else {
        ConsumedNothing(net.world, channel);
      }
    }

    ghost predicate AllStartable()
      reads this
    {
      forall i :: 0 <= i < |queues| ==> Startable(queues[i])
    }

    // On the broker b a reconnect has only the environment to fear.
    ghost predicate Servable(b: Broker)
      reads this
    {
      && Declarable(b, declaredQueues) && AllStartable()
      && forall i :: 0 <= i < |queues| ==> !Missing(b, queues[i].name)
    }

    // What a reconnect has restored when it starts the new monitor.
    ghost predicate Restored()
      reads this, publisherPool, net
    {
      && Settled() && PoolIsNew()
      && Configured(Names(queues))
      && Established(net.broker, AllWanted(declaredQueues)) && OnBroker(queues)
    }

    // A queue was stored by a Start and is neither on the broker b nor declared.
    ghost predicate Unservable(b: Broker)
      reads this
    {
      exists i :: 0 <= i < |queues| && Missing(b, queues[i].name)
    }

    ghost predicate Missing(b: Broker, queue: string)
      reads this
    {
      queue !in b.queues && !WantsQueue(AllWanted(declaredQueues), queue)
    }

    // The old connection goes, a new one comes (reconnect.go:72-124).
    method DialAnew() returns (ok: bool)
      requires Settled()
      modifies this`publisherPool, this`conn, this`channel, publisherPool, net`world
      ensures Settled() && Later(old(net.world), net.world) && publisherPool == null
      ensures ok ==> channel >= |old(net.world.channels)|
      ensures ok ==> net.world.channels[channel] == Setup(conn, false, None, [])
      ensures Calm(old(net.world), net.world) ==> ok && Up()
    {
      DropOld();
      ok := DialAndStore();
    }

    // One round of the reconnect loop.
    method Attempt() returns (handedOff: bool)
      requires Settled()
      modifies this`publisherPool, this`conn, this`channel, this`started, this`queues, this`declaredQueues
      modifies publisherPool, net
      ensures Settled() && Later(old(net.world), net.world)
      ensures publisherPool == null || fresh(publisherPool)
      ensures queues == old(queues) && declaredQueues == old(declaredQueues)
      ensures handedOff ==> Restored() && channel >= |old(net.world.channels)|
      ensures handedOff ==> started == old(started) + Consumers(channel, queues)
      ensures old(started) <= started
      ensures QueuesFrom(net.broker, old(net.broker), AllWanted(declaredQueues))
      ensures old(Servable(net.broker)) && Calm(old(net.world), net.world) ==> handedOff
    {
      handedOff := DialAnew();
      if handedOff { handedOff := Restore(); }
    }

    // reconnect.go:130-206, on the connection and channel just stored.
    method Restore() returns (ok: bool)
      requires Settled() && publisherPool == null && net.world.channels[channel] == Setup(conn, false, None, [])
      modifies this`publisherPool, this`started, this`queues, this`declaredQueues, net
      ensures Settled() && Later(old(net.world), net.world)
      ensures publisherPool == null || fresh(publisherPool)
      ensures queues == old(queues) && declaredQueues == old(declaredQueues)
      ensures ok ==> Restored() && started == old(started) + Consumers(channel, queues)
      ensures old(started) <= started
      ensures QueuesFrom(net.broker, old(net.broker), AllWanted(declaredQueues))
      ensures old(Up() && Servable(net.broker)) && Calm(old(net.world), net.world) ==> ok
    {
      ok := RestoreQos();
      if !ok { return; }
      ok := RestoreTopology();
      if !ok { return; }
      ok := RestoreTraffic();
    }

    // The publisher pool, then the consumers.
    method RestoreTraffic() returns (ok: bool)
      requires Settled() && publisherPool == null
      requires Configured([])
      modifies this`publisherPool, this`started, this`queues, net`world
      ensures Settled() && Later(old(net.world), net.world) && queues == old(queues)
      ensures publisherPool == null || fresh(publisherPool)
      ensures ok ==> PoolIsNew() && Configured(Names(queues))
      ensures ok ==> started == old(started) + Consumers(channel, queues) && OnBroker(queues)
      ensures old(started) <= started
      ensures old(Up() && OnBroker(queues) && AllStartable()) && Calm(old(net.world), net.world) ==> ok
    {
      ok := RestorePool();
      if !ok { return; }
      ok := RestoreConsumers();
    }

    // The reconnect loop (reconnect.go:59-211).  Its context ends at some point; rounds bounds
    // how many rounds it makes until then, so that this holds for any number of them.
    method Reconnect(rounds: nat) returns (handedOff: bool)
      requires Settled()
      modifies this`publisherPool, this`conn, this`channel, this`started, this`queues, this`declaredQueues
      modifies publisherPool, net
      ensures Settled() && Later(old(net.world), net.world)
      ensures queues == old(queues) && declaredQueues == old(declaredQueues)
      ensures handedOff ==> Restored() && channel >= |old(net.world.channels)|
      ensures old(Unservable(net.broker)) ==> !handedOff
      ensures rounds > 0 && old(Servable(net.broker)) && Calm(old(net.world), net.world) ==> handedOff
      ensures handedOff ==> Resumed(old(started))
    {
      var left := rounds;
      handedOff := false;
      ghost var w, b, first := net.world, net.broker, started;
      while left > 0
        invariant Trying(w, b, first) && queues == old(queues) && declaredQueues == old(declaredQueues)
        invariant publisherPool == null || publisherPool == old(publisherPool) || fresh(publisherPool)
        invariant left < rounds && Servable(b) ==> !Calm(w, net.world)
        invariant !handedOff
        invariant left == rounds ==> net.world == w && net.broker == b
      {
        var cancelled;
        handedOff, cancelled := AttemptUnlessCancelled(w, b, first);
        if handedOff || cancelled { return; }
        left := left - 1;
      }
    }

    // The loop goes round, having begun with the given world, broker and consumers.
    ghost predicate Trying(w: World, b: Broker, first: seq<Consumer>)
      reads this, publisherPool, net
    {
      && Settled() && Later(w, net.world) && first <= started
      && QueuesFrom(net.broker, b, AllWanted(declaredQueues))
    }

    // The new consumers come after the first ones.
    ghost predicate Resumed(first: seq<Consumer>)
      reads this
    {
      exists earlier :: started == earlier + Consumers(channel, queues) && first <= earlier
    }

    method AttemptUnlessCancelled(ghost w: World, ghost b: Broker, ghost first: seq<Consumer>)
      returns (handedOff: bool, cancelled: bool)
      requires Trying(w, b, first)
      modifies this`publisherPool, this`conn, this`channel, this`started, this`queues, this`declaredQueues
      modifies publisherPool, net
      ensures Trying(w, b, first) && queues == old(queues) && declaredQueues == old(declaredQueues)
      ensures publisherPool == null || publisherPool == old(publisherPool) || fresh(publisherPool)
      ensures handedOff ==> Restored() && channel >= |w.channels| && Resumed(first) && !Unservable(b)
      ensures Calm(w, net.world) ==> Calm(w, old(net.world))
      ensures old(Servable(net.broker)) && Calm(old(net.world), net.world) ==> handedOff
    {
      handedOff := false;
      ghost var servable := Servable(net.broker);
      cancelled := net.Trouble();      // ctx.Done at the loop head, or waitReconnect
      if cancelled { return; }
      assert servable == Servable(net.broker);
      handedOff := AttemptAgain(w, b, first);
    }

    method AttemptAgain(ghost w: World, ghost b: Broker, ghost first: seq<Consumer>) returns (handedOff: bool)
      requires Trying(w, b, first)
      modifies this`publisherPool, this`conn, this`channel, this`started, this`queues, this`declaredQueues
      modifies publisherPool, net
      ensures Trying(w, b, first) && queues == old(queues) && declaredQueues == old(declaredQueues)
      ensures publisherPool == null || fresh(publisherPool)
      ensures handedOff ==> Restored() && channel >= |w.channels| && Resumed(first) && !Unservable(b)
      ensures old(net.world.troubles) <= net.world.troubles
      ensures old(Servable(net.broker)) && Calm(old(net.world), net.world) ==> handedOff
    {
      ghost var earlier, broker := started, net.broker;
      handedOff := Attempt();
      QueuesFromTransitive(net.broker, broker, b, AllWanted(declaredQueues));
      assert handedOff ==> started == earlier + Consumers(channel, queues);
      OnBrokerMeansServable(b);
    }

    lemma OnBrokerMeansServable(b: Broker)
      ensures QueuesFrom(net.broker, b, AllWanted(declaredQueues)) && OnBroker(queues) ==> !Unservable(b)
    {
    }

    // The part of Shutdown that runs once, after all goroutines have ended
    // (rabbitmqsdk.go:722-743): the pool, the channel, the connection; nothing stays open.
    method CloseResources()
      requires Settled()
      modifies this`publisherPool, publisherPool, net`world
      ensures Settled() && publisherPool == null && net.world.openConns == {} && net.world.openChannels == {}
    {
      DropOld();
    }
  }

  const DEFAULT_POOL_SIZE := 5

  // types.go:58-92, as far as NewSDK checks it; durations in nanoseconds.
  datatype SDKConfig = SDKConfig(
    addr: string, reconnectDelay: int, dialTimeout: int, publisherPoolSize: int, publisherMaxPoolSize: int,
    publisherPoolWait: int, enableMetrics: bool)

  function PoolSize(cfg: SDKConfig): int {
    if cfg.publisherPoolSize == 0 then DEFAULT_POOL_SIZE else cfg.publisherPoolSize
  }

  function MaxPoolSize(cfg: SDKConfig): int {
    if cfg.publisherMaxPoolSize == 0 then PoolSize(cfg) * 2 else cfg.publisherMaxPoolSize
  }

  predicate Acceptable(cfg: SDKConfig) {
    && cfg.addr != "" && cfg.reconnectDelay >= 0 && cfg.dialTimeout >= 0 && cfg.publisherPoolWait >= 0
    && cfg.publisherPoolSize >= 0 && cfg.publisherMaxPoolSize >= 0 && PoolSize(cfg) <= MaxPoolSize(cfg)
  }

  lemma AcceptableExactly(cfg: SDKConfig)
    ensures Acceptable(cfg) <==>
      && cfg.addr != "" && 0 <= cfg.reconnectDelay && 0 <= cfg.dialTimeout && 0 <= cfg.publisherPoolWait
      && 0 <= cfg.publisherPoolSize && 0 <= cfg.publisherMaxPoolSize
      && (cfg.publisherMaxPoolSize == 0
          || (if cfg.publisherPoolSize == 0 then 5 else cfg.publisherPoolSize) <= cfg.publisherMaxPoolSize)
  {
  }

  // NewSDK: an SDK whose pool can hold its channels, or nothing, and then nothing that was
  // dialled stays open.
  method NewSDK(net: Network, cfg: SDKConfig) returns (r: Option<SDK>)
    requires Sane(net.world) && net.world.openConns == {}
    modifies net`world
    ensures Sane(net.world) && Later(old(net.world), net.world)
    ensures !Acceptable(cfg) ==> r.None? && net.world == old(net.world)
    ensures r.None? ==> net.world.openConns == {} && net.world.openChannels == {}
    ensures r.Some? ==> fresh(r.value) && r.value.net == net && r.value.Settled() && r.value.PoolIsNew()
    ensures r.Some? ==> r.value.publisherPoolSize == (if cfg.publisherPoolSize == 0 then 5 else cfg.publisherPoolSize)
    ensures r.Some? && cfg.publisherMaxPoolSize == 0 ==> r.value.publisherMaxPoolSize == 2 * r.value.publisherPoolSize
    ensures r.Some? && cfg.publisherMaxPoolSize != 0 ==> r.value.publisherMaxPoolSize == cfg.publisherMaxPoolSize
    ensures r.None? && Acceptable(cfg) ==> !Calm(old(net.world), net.world)
    ensures r.Some? ==> 1 <= r.value.publisherPoolSize <= r.value.publisherMaxPoolSize
  {
    r := None;
    if cfg.addr == "" || cfg.reconnectDelay < 0 || cfg.dialTimeout < 0 { return; }
    if cfg.publisherPoolSize < 0 || cfg.publisherMaxPoolSize < 0 || cfg.publisherPoolWait < 0 { return; }
    if MaxPoolSize(cfg) < PoolSize(cfg) { return; }
    var c := net.Dial();
    if c.None? { return; }
    r := NewSDKOn(net, c.value, cfg);
  }

  // From the dialled connection on (rabbitmqsdk.go:117-175).
  method NewSDKOn(net: Network, conn: nat, cfg: SDKConfig) returns (r: Option<SDK>)
    requires Acceptable(cfg) && Sane(net.world) && conn < net.world.dialled && net.world.openConns <= {conn}
    modifies net`world
    ensures Sane(net.world) && Later(old(net.world), net.world)
    ensures r.None? ==> net.world.openConns == {} && net.world.openChannels == {}
    ensures r.Some? ==> fresh(r.value) && r.value.net == net && r.value.Settled() && r.value.PoolIsNew()
    ensures r.Some? ==> r.value.publisherPoolSize == PoolSize(cfg) && r.value.publisherMaxPoolSize == MaxPoolSize(cfg)
    ensures r.None? && conn in old(net.world.openConns) ==> !Calm(old(net.world), net.world)
  {
    r := None;
    var h := net.OpenChannel(conn);
    if h.None? {
      net.CloseConn(conn);
      return;
    }
    var pool := NewPublisherChannelPool(net, conn, PoolSize(cfg), MaxPoolSize(cfg));
    if pool.None? {
      net.CloseChannel(h.value);
      net.CloseConn(conn);
      return;
    }
    var unregistered := net.Trouble();      // newPrometheusMetrics
    if cfg.enableMetrics && unregistered {
      pool.value.Close();
      net.CloseChannel(h.value);
      net.CloseConn(conn);
      return;
    }
    var sdk := new SDK(net, conn, h.value, pool.value, PoolSize(cfg), MaxPoolSize(cfg));
    r := Some(sdk);
  }

  // v is w after Consume calls for the given queues on channel h.
  ghost predicate Consumed(w: World, h: nat, names: seq<string>, v: World)
    requires h < |w.channels|
  {
    Ages(WithSetup(w, h, w.channels[h].(consumed := w.channels[h].consumed + names)), v)
  }

  lemma ConsumedNothing(w: World, h: nat)
    requires h < |w.channels|
    ensures Consumed(w, h, [], w)
  {
    assert w.channels[h].consumed + [] == w.channels[h].consumed;
  }

  lemma ConsumedFirst(w: World, h: nat, names: seq<string>, v: World)
    requires h < |w.channels| && Consumed(w, h, names, v)
    ensures w.channels[h].consumed == [] ==>
              h < |v.channels| && v.channels[h] == w.channels[h].(consumed := names)
    ensures v.dialled == w.dialled && h < |v.channels| && v.channels[h].conn == w.channels[h].conn
  {
    assert [] + names == names;
  }

  lemma OthersStayClosed(w: World, conn: nat, h: nat, started: seq<Consumer>, qs: seq<QueueConfig>, v: World)
    requires h < |w.channels| && OthersClosed(w, conn, h, started) && Consumed(w, h, Names(qs), v)
    ensures OthersClosed(v, conn, h, started + Consumers(h, qs))
  {
  }

  lemma ConsumedMore(w: World, h: nat, names: seq<string>, v: World, name: string, u: World)
    requires h < |w.channels| && Consumed(w, h, names, v) && Consumed(v, h, [name], u)
    ensures Consumed(w, h, names + [name], u)
  {
    assert (w.channels[h].consumed + names) + [name] == w.channels[h].consumed + (names + [name]);
  }

  // ---------------------------------------------------------------- how the pieces add up

  lemma MergeAllNext(b: Broker, fs: seq<Broker>, i: nat)
    requires i < |fs| && Compatible(b, fs[..i])
    ensures MergeAll(b, fs[..i + 1]) == Merge(MergeAll(b, fs[..i]), fs[i])
    ensures Agree(MergeAll(b, fs[..i]), fs[i]) ==> Compatible(b, fs[..i + 1])
  {
    assert fs[..i + 1][..i] == fs[..i];
  }

  lemma NothingYet(b: Broker, q: QueueConfig)
    ensures Merge(b, EMPTY) == b && Agree(b, EMPTY) && Sub(EMPTY, Wanted(q))
  {
    MergeIdle(b, EMPTY);
  }

  lemma DLQPieces(q: QueueConfig, wanted: Broker)
    requires q.enableDLQ && Sub(DLQPart(q), wanted)
    ensures Sub(AnExchange(DLXName(q.name), DIRECT), wanted)
    ensures Sub(AQueue(DLQName(q.name), Queue(true, false, false, map[])), wanted)
    ensures Sub(ABinding(DLQName(q.name), DLQName(q.name), DLXName(q.name)), wanted)
  {
  }

  lemma DLQPartIsBuilt(q: QueueConfig, w: Broker)
    requires q.enableDLQ
    ensures Merge(Merge(Merge(w, AnExchange(DLXName(q.name), DIRECT)),
                        AQueue(DLQName(q.name), Queue(true, false, false, map[]))),
                  ABinding(DLQName(q.name), DLQName(q.name), DLXName(q.name)))
            == Merge(w, DLQPart(q))
  {
  }

  lemma DelayPartIsBuilt(q: QueueConfig, w: Broker)
    requires q.isDelayQueue
    ensures Merge(Merge(w, AnExchange(q.exchange, DIRECT)), AQueue(DelayQueueName(q.name), DelayQueue(q)))
        == Merge(w, DelayPart(q))
  {
  }

  lemma StartFromNothing(f: Broker)
    ensures Merge(EMPTY, f) == f && Merge(f, EMPTY) == f
  {
  }
}
