/**
Queue configurations, their validation, the topology each of them stands for, and where
messages go in it (types.go, rabbitmqsdk.go).
*/
module Topology {
  import opened Options
  import opened Broker

  // types.go:130-173, without the handler and what only the worker reads.
  datatype QueueConfig = QueueConfig(
    name: string, queueType: string, numWorkers: int, hasHandler: bool,
    isDelayQueue: bool, delayStrategy: int, dlxTTL: int,    // nanoseconds
    maxRedelivery: int, exchange: string, routingKey: string,
    durable: bool, autoDelete: bool, exclusive: bool, consumerTimeout: int,   // nanoseconds
    enableDLQ: bool, dummyMessageEnabled: bool, dummyMessageFrequency: int)

  const CLASSIC := "classic"
  const QUORUM := "quorum"
  const DELAY_DLX_TTL := 0
  const NANOS_PER_MILLI := 1_000_000
  const MAX_INT32 := 0x7FFF_FFFF

  datatype Problem =
    | NameMissing | BadQueueType | BadRedelivery | BadFrequency
    | QuorumNotDurable | QuorumAutoDelete | QuorumExclusive
    | ExchangeMissing | BadDelayStrategy | BadTTL

  // time.Duration.Milliseconds: division that truncates toward zero.
  function Milliseconds(nanos: int): int {
    if nanos >= 0 then nanos / NANOS_PER_MILLI else -(-nanos / NANOS_PER_MILLI)
  }

  // Go's conversion to int32: the low 32 bits, read as a signed number.
  function ToInt32(n: int): (r: int)
    ensures -0x8000_0000 <= r <= 0x7FFF_FFFF && (n - r) % 0x1_0000_0000 == 0
  {
    (n + 0x8000_0000) % 0x1_0000_0000 - 0x8000_0000
  }

  function Validate(q: QueueConfig): Option<Problem> {
    if q.name == "" then Some(NameMissing)
    else if q.queueType != "" && q.queueType != CLASSIC && q.queueType != QUORUM then Some(BadQueueType)
    else if q.maxRedelivery < -1 then Some(BadRedelivery)
    else if q.dummyMessageFrequency < 0 then Some(BadFrequency)
    else if q.queueType == QUORUM && !q.durable then Some(QuorumNotDurable)
    else if q.queueType == QUORUM && q.autoDelete then Some(QuorumAutoDelete)
    else if q.queueType == QUORUM && q.exclusive then Some(QuorumExclusive)
    else if q.isDelayQueue && q.exchange == "" then Some(ExchangeMissing)
    else if q.isDelayQueue && q.delayStrategy != DELAY_DLX_TTL then Some(BadDelayStrategy)
    else if q.isDelayQueue && (q.dlxTTL <= 0 || Milliseconds(q.dlxTTL) > MAX_INT32) then Some(BadTTL)
    else None
  }

  predicate Valid(q: QueueConfig) { Validate(q).None? }

  // What is accepted.
  lemma ValidExactly(q: QueueConfig)
    ensures Valid(q) <==>
      && q.name != "" && (q.queueType == "" || q.queueType == "classic" || q.queueType == "quorum")
      && q.maxRedelivery >= -1 && q.dummyMessageFrequency >= 0
      && (q.queueType == "quorum" ==> q.durable && !q.autoDelete && !q.exclusive)
      && (q.isDelayQueue ==>
            q.exchange != "" && q.delayStrategy == 0 && 0 < q.dlxTTL && q.dlxTTL / 1_000_000 <= 0x7FFF_FFFF)
  {
  }

  // What is complained about is so.
  predicate Has(q: QueueConfig, p: Problem) {
    match p
    case NameMissing => q.name == ""
    case BadQueueType => q.queueType !in ["", "classic", "quorum"]
    case BadRedelivery => q.maxRedelivery < -1
    case BadFrequency => q.dummyMessageFrequency < 0
    case QuorumNotDurable => q.queueType == "quorum" && !q.durable
    case QuorumAutoDelete => q.queueType == "quorum" && q.autoDelete
    case QuorumExclusive => q.queueType == "quorum" && q.exclusive
    case ExchangeMissing => q.isDelayQueue && q.exchange == ""
    case BadDelayStrategy => q.isDelayQueue && q.delayStrategy != 0
    case BadTTL => q.isDelayQueue && (q.dlxTTL <= 0 || q.dlxTTL / 1_000_000 > 0x7FFF_FFFF)
  }

  lemma ProblemIsReal(q: QueueConfig, p: Problem)
    ensures Validate(q) == Some(p) ==> Has(q, p)
    ensures Has(q, p) ==> !Valid(q)
  {
  }

  // The first n of qs are valid.
  predicate ValidUpTo(qs: seq<QueueConfig>, n: nat)
    requires n <= |qs|
  {
    n == 0 || (ValidUpTo(qs, n - 1) && Valid(qs[n - 1]))
  }

  lemma {:induction false} ValidOnes(qs: seq<QueueConfig>, n: nat)
    requires n <= |qs| && ValidUpTo(qs, n)
    ensures forall i :: 0 <= i < n ==> Valid(qs[i])
  {
    if n > 0 { ValidOnes(qs, n - 1); }
  }

  function DelayQueueName(name: string): string { name + ".delay" }
  function DLXName(name: string): string { name + ".DLX" }
  function DLQName(name: string): string { name + ".DLQ" }

  // The routing key in force: the queue's name unless one is configured.
  function BindingKey(q: QueueConfig): string {
    if q.routingKey == "" then q.name else q.routingKey
  }

  const DIRECT := Exchange("direct", true, false, false)

  // ---------------------------------------------------------------- what a configuration promises

  function QuorumArgs(q: QueueConfig): Arguments {
    if q.queueType == QUORUM then map["x-queue-type" := Text("quorum")] else map[]
  }

  function DLQArgs(q: QueueConfig): Arguments {
    if q.enableDLQ then
      map["x-dead-letter-exchange" := Text(DLXName(q.name)), "x-dead-letter-routing-key" := Text(DLQName(q.name))]
    else map[]
  }

  function TimeoutArgs(q: QueueConfig): Arguments {
    if q.consumerTimeout > 0 then map["x-consumer-timeout" := Number(Milliseconds(q.consumerTimeout))] else map[]
  }

  function MainQueue(q: QueueConfig): Queue {
    Queue(q.durable, q.autoDelete, q.exclusive, QuorumArgs(q) + DLQArgs(q) + TimeoutArgs(q))
  }

  function DelayQueue(q: QueueConfig): Queue {
    Queue(true, false, false,
          map["x-message-ttl" := Number(ToInt32(Milliseconds(q.dlxTTL))),
              "x-dead-letter-exchange" := Text(q.exchange),
              "x-dead-letter-routing-key" := Text(BindingKey(q))] + QuorumArgs(q))
  }

  // The fragment of topology that a successful declaration of q promises: the dead-letter
  // exchange and queue, the delay exchange and queue, the queue itself, its binding.

  function DLQPart(q: QueueConfig): Broker {
    if q.enableDLQ then
      Broker(map[DLXName(q.name) := DIRECT], map[DLQName(q.name) := Queue(true, false, false, map[])],
             {Binding(DLQName(q.name), DLQName(q.name), DLXName(q.name))})
    else EMPTY
  }

  function DelayPart(q: QueueConfig): Broker {
    if q.isDelayQueue then
      Broker(map[q.exchange := DIRECT], map[DelayQueueName(q.name) := DelayQueue(q)], {})
    else EMPTY
  }

  function MainPart(q: QueueConfig): Broker {
    AQueue(q.name, MainQueue(q))
  }

  function BindPart(q: QueueConfig): Broker {
    if q.isDelayQueue then ABinding(q.name, BindingKey(q), q.exchange) else EMPTY
  }

  function Wanted(q: QueueConfig): Broker {
    Merge(Merge(Merge(DLQPart(q), DelayPart(q)), MainPart(q)), BindPart(q))
  }

  lemma PartsAreWanted(q: QueueConfig)
    ensures Sub(DLQPart(q), Wanted(q)) && Sub(DelayPart(q), Wanted(q))
    ensures Sub(MainPart(q), Wanted(q)) && Sub(BindPart(q), Wanted(q))
  {
    NamesDiffer(q.name);
  }

  function AllWanted(qs: seq<QueueConfig>): (fs: seq<Broker>)
    ensures |fs| == |qs| && forall i :: 0 <= i < |qs| ==> fs[i] == Wanted(qs[i])
  {
    if qs == [] then [] else AllWanted(qs[..|qs| - 1]) + [Wanted(qs[|qs| - 1])]
  }

  datatype Outcome = Done | Invalid(problem: Problem) | ContextEnded | Refused | NetworkFailed

  // What a call of declareQueuesLocked does to the broker.  `done` queues were declared
  // completely; when it stops early, `part` of the next one has been.
  ghost predicate Declares(b: Broker, qs: seq<QueueConfig>, b': Broker, r: Outcome, done: nat, part: Broker) {
    && done <= |qs|
    && ValidUpTo(qs, done)
    && (r.Done? <==> done == |qs|)
    && (r.Invalid? ==> Validate(qs[done]) == Some(r.problem))
    && DeclaresFragments(b, AllWanted(qs), b', r, done, part)
  }

  ghost predicate DeclaresFragments(b: Broker, fs: seq<Broker>, b': Broker, r: Outcome, done: nat, part: Broker)
    requires done <= |fs|
  {
    && Compatible(b, fs[..done])
    && if done == |fs| then
         b' == MergeAll(b, fs)
       else
         && Sub(part, fs[done]) && Agree(MergeAll(b, fs[..done]), part)
         && b' == Merge(MergeAll(b, fs[..done]), part)
         && (r.Refused? ==> !Agree(MergeAll(b, fs[..done]), fs[done]))
  }

  // Wherever the declarations stop, they add no queue that is not wanted.
  lemma DeclaresOnlyWanted(b: Broker, fs: seq<Broker>, b': Broker, r: Outcome, done: nat, part: Broker)
    requires done <= |fs| && DeclaresFragments(b, fs, b', r, done, part)
    ensures QueuesFrom(b', b, fs)
  {
    MergeAllAddsNothingElse(b, fs[..done]);
    assert fs[..|fs|] == fs;
    forall queue | queue in b'.queues && queue !in b.queues ensures WantsQueue(fs, queue) {
      if queue in MergeAll(b, fs[..done]).queues {
        var f :| f in fs[..done] && queue in f.queues;
        assert f in fs;
      } else {
        assert fs[done] in fs && queue in fs[done].queues;
      }
    }
  }

  // Nothing in qs contradicts the broker, and all of it is valid.
  ghost predicate Declarable(b: Broker, qs: seq<QueueConfig>) {
    Compatible(b, AllWanted(qs)) && ValidUpTo(qs, |qs|)
  }

  lemma {:induction false} CompatibleUpTo(b: Broker, fs: seq<Broker>, n: nat)
    requires n <= |fs| && Compatible(b, fs)
    ensures Compatible(b, fs[..n])
    decreases |fs|
  {
    if n < |fs| {
      CompatibleUpTo(b, fs[..|fs| - 1], n);
      assert fs[..|fs| - 1][..n] == fs[..n];
    } else {
      assert fs[..n] == fs;
    }
  }

  lemma CompatibleIsNotRefused(b: Broker, fs: seq<Broker>, b': Broker, r: Outcome, done: nat, part: Broker)
    requires done < |fs| && DeclaresFragments(b, fs, b', r, done, part) && Compatible(b, fs)
    ensures !r.Refused?
  {
    CompatibleUpTo(b, fs, done + 1);
    assert fs[..done + 1][..done] == fs[..done];
  }

  lemma ValidIsNotInvalid(qs: seq<QueueConfig>, done: nat, problem: Problem)
    requires done < |qs| && ValidUpTo(qs, |qs|)
    ensures Validate(qs[done]) != Some(problem)
  {
    ValidOnes(qs, |qs|);
  }

  // What is declarable is declared, unless the context or the network stops it.
  lemma DeclarableIsDeclared(b: Broker, qs: seq<QueueConfig>, b': Broker, r: Outcome, done: nat, part: Broker)
    ensures Declares(b, qs, b', r, done, part) && Declarable(b, qs) ==> r.Done? || r.ContextEnded? || r.NetworkFailed?
  {
    if Declares(b, qs, b', r, done, part) && Declarable(b, qs) && done < |qs| {
      CompatibleIsNotRefused(b, AllWanted(qs), b', r, done, part);
      if r.Invalid? { ValidIsNotInvalid(qs, done, r.problem); }
    }
  }

  // ---------------------------------------------------------------- what is there after a declaration

  lemma MainArguments(q: QueueConfig, key: string)
    ensures key in MainQueue(q).args <==>
              || (key == "x-queue-type" && q.queueType == "quorum")
              || (key == "x-dead-letter-exchange" && q.enableDLQ)
              || (key == "x-dead-letter-routing-key" && q.enableDLQ)
              || (key == "x-consumer-timeout" && q.consumerTimeout > 0)
  {
  }

  lemma MainValues(q: QueueConfig)
    ensures var args := MainQueue(q).args;
      && (q.queueType == "quorum" ==> "x-queue-type" in args && args["x-queue-type"] == Text("quorum"))
      && (q.enableDLQ ==> "x-dead-letter-exchange" in args && "x-dead-letter-routing-key" in args
                          && args["x-dead-letter-exchange"] == Text(q.name + ".DLX")
                          && args["x-dead-letter-routing-key"] == Text(q.name + ".DLQ"))
      && (q.consumerTimeout > 0 ==> "x-consumer-timeout" in args
                                    && args["x-consumer-timeout"] == Number(q.consumerTimeout / 1_000_000))
  {
  }

  // The queue itself, on a broker that has all that was promised for it.
  lemma DeclaredQueue(q: QueueConfig, b: Broker)
    requires Sub(Wanted(q), b)
    ensures q.name in b.queues
    ensures b.queues[q.name].(args := map[]) == Queue(q.durable, q.autoDelete, q.exclusive, map[])
    ensures forall key :: key in b.queues[q.name].args <==>
              || (key == "x-queue-type" && q.queueType == "quorum")
              || (key == "x-dead-letter-exchange" && q.enableDLQ)
              || (key == "x-dead-letter-routing-key" && q.enableDLQ)
              || (key == "x-consumer-timeout" && q.consumerTimeout > 0)
  {
    MainIsThere(q, b);
    forall key { MainArguments(q, key); }
  }

  // ... and the values of its arguments.
  lemma DeclaredArguments(q: QueueConfig, b: Broker)
    requires Sub(Wanted(q), b)
    ensures q.name in b.queues
    ensures var args := b.queues[q.name].args;
      && (q.queueType == "quorum" ==> "x-queue-type" in args && args["x-queue-type"] == Text("quorum"))
      && (q.enableDLQ ==> "x-dead-letter-exchange" in args && "x-dead-letter-routing-key" in args
                          && args["x-dead-letter-exchange"] == Text(q.name + ".DLX")
                          && args["x-dead-letter-routing-key"] == Text(q.name + ".DLQ"))
      && (q.consumerTimeout > 0 ==> "x-consumer-timeout" in args
                                    && args["x-consumer-timeout"] == Number(q.consumerTimeout / 1_000_000))
  {
    MainIsThere(q, b);
    MainValues(q);
  }

  lemma MainIsThere(q: QueueConfig, b: Broker)
    requires Sub(Wanted(q), b)
    ensures q.name in b.queues && b.queues[q.name] == MainQueue(q)
  {
    PartsAreIn(q, b);
    assert q.name in MainPart(q).queues && MainPart(q).queues[q.name] == MainQueue(q);
  }

  // Its dead-letter exchange and queue.
  lemma DeclaredDLQ(q: QueueConfig, b: Broker)
    requires Sub(Wanted(q), b) && q.enableDLQ
    ensures q.name + ".DLX" in b.exchanges && b.exchanges[q.name + ".DLX"] == Exchange("direct", true, false, false)
    ensures q.name + ".DLQ" in b.queues && b.queues[q.name + ".DLQ"] == Queue(true, false, false, map[])
    ensures Binding(q.name + ".DLQ", q.name + ".DLQ", q.name + ".DLX") in b.bindings
  {
    PartsAreIn(q, b);
    assert q.name + ".DLX" in DLQPart(q).exchanges && q.name + ".DLQ" in DLQPart(q).queues;
    assert Binding(q.name + ".DLQ", q.name + ".DLQ", q.name + ".DLX") in DLQPart(q).bindings;
  }

  // The delay queue in front of it, which holds messages for the configured time in whole
  // milliseconds, the exchange it hands them to, and the way from there.
  lemma DeclaredDelay(q: QueueConfig, b: Broker)
    requires Valid(q) && Sub(Wanted(q), b) && q.isDelayQueue
    ensures q.exchange in b.exchanges && b.exchanges[q.exchange] == Exchange("direct", true, false, false)
    ensures var key := if q.routingKey == "" then q.name else q.routingKey;
      && q.name + ".delay" in b.queues
      && b.queues[q.name + ".delay"].(args := map[]) == Queue(true, false, false, map[])
      && b.queues[q.name + ".delay"].args == map[
           "x-message-ttl" := Number(q.dlxTTL / 1_000_000),
           "x-dead-letter-exchange" := Text(q.exchange),
           "x-dead-letter-routing-key" := Text(key)]
         + (if q.queueType == "quorum" then map["x-queue-type" := Text("quorum")] else map[])
      && Binding(q.name, key, q.exchange) in b.bindings
  {
    PartsAreIn(q, b);
    TTLCastIsExact(q);
    assert q.exchange in DelayPart(q).exchanges && q.name + ".delay" in DelayPart(q).queues;
    assert Binding(q.name, BindingKey(q), q.exchange) in BindPart(q).bindings;
  }

  // ... and nothing else is asked for.

  lemma WantsNoOtherQueue(q: QueueConfig)
    ensures Wanted(q).queues.Keys == {q.name} + (if q.enableDLQ then {q.name + ".DLQ"} else {})
                                     + (if q.isDelayQueue then {q.name + ".delay"} else {})
  {
  }

  lemma WantsNoOtherExchange(q: QueueConfig)
    ensures Wanted(q).exchanges.Keys == (if q.enableDLQ then {q.name + ".DLX"} else {})
                                        + (if q.isDelayQueue then {q.exchange} else {})
  {
  }

  lemma WantsNoOtherBinding(q: QueueConfig)
    ensures Wanted(q).bindings
            == (if q.enableDLQ then {Binding(q.name + ".DLQ", q.name + ".DLQ", q.name + ".DLX")} else {})
               + (if q.isDelayQueue
                  then {Binding(q.name, if q.routingKey == "" then q.name else q.routingKey, q.exchange)} else {})
  {
  }

  // ---------------------------------------------------------------- where messages go

  // The int32 cast of a validated TTL loses nothing ...
  lemma TTLCastIsExact(q: QueueConfig)
    requires Valid(q) && q.isDelayQueue
    ensures ToInt32(Milliseconds(q.dlxTTL)) == Milliseconds(q.dlxTTL)
  {
  }

  // ... but a TTL below one millisecond passes validation and becomes 0.
  lemma TTLIsPositiveExactly(q: QueueConfig)
    requires Valid(q) && q.isDelayQueue
    ensures DelayQueue(q).args["x-message-ttl"].number >= 1 <==> q.dlxTTL >= NANOS_PER_MILLI
  {
  }

  lemma DelayRoute(b: Broker, q: QueueConfig, routingKey: string)
    requires q.isDelayQueue && q.exchange != "" && Sub(DelayPart(q), b) && Sub(BindPart(q), b)
    ensures Route(b, "", DelayQueueName(q.name)) == {DelayQueueName(q.name)}
    ensures q.name in DeadLetterRoute(b, DelayQueueName(q.name), routingKey)
  {
    assert DelayQueueName(q.name) in DelayPart(q).queues;
    assert Binding(q.name, BindingKey(q), q.exchange) in BindPart(q).bindings;
  }

  // A message sent by PublishWithDelayDLXTTL goes to the delay queue alone, and when it
  // expires there it reaches the queue itself.
  lemma DelayedMessageArrives(b: Broker, q: QueueConfig, routingKey: string)
    requires Valid(q) && q.isDelayQueue && Sub(Wanted(q), b)
    ensures Route(b, "", q.name + ".delay") == {q.name + ".delay"}
    ensures q.name in DeadLetterRoute(b, q.name + ".delay", routingKey)
  {
    PartsAreIn(q, b);
    DelayRoute(b, q, routingKey);
  }

  lemma PartsAreIn(q: QueueConfig, b: Broker)
    requires Sub(Wanted(q), b)
    ensures Sub(DLQPart(q), b) && Sub(DelayPart(q), b) && Sub(MainPart(q), b) && Sub(BindPart(q), b)
  {
    PartsAreWanted(q);
    SubTransitive(DLQPart(q), Wanted(q), b);
    SubTransitive(DelayPart(q), Wanted(q), b);
    SubTransitive(MainPart(q), Wanted(q), b);
    SubTransitive(BindPart(q), Wanted(q), b);
  }

  lemma NamesDiffer(name: string)
    ensures DelayQueueName(name) != name && DLQName(name) != name && DelayQueueName(name) != DLQName(name)
  {
    assert |DelayQueueName(name)| == |name| + 6 && |DLQName(name)| == |name| + 4;
  }

  lemma RejectRoute(b: Broker, q: QueueConfig, routingKey: string)
    requires Sub(MainPart(q), b) && Sub(DLQPart(q), b)
    ensures if q.enableDLQ then DLQName(q.name) in DeadLetterRoute(b, q.name, routingKey)
            else DeadLetterRoute(b, q.name, routingKey) == {}
  {
    assert q.name in MainPart(q).queues;
    if q.enableDLQ {
      assert Binding(DLQName(q.name), DLQName(q.name), DLXName(q.name)) in DLQPart(q).bindings;
      assert DLXName(q.name) != "" by { assert |DLXName(q.name)| == |q.name| + 4; }
    }
  }

  // A final rejection reaches <Name>.DLQ when EnableDLQ is set; otherwise it is discarded.
  lemma RejectedMessageGoesToDLQ(b: Broker, q: QueueConfig, routingKey: string)
    requires Sub(Wanted(q), b)
    ensures if q.enableDLQ then q.name + ".DLQ" in DeadLetterRoute(b, q.name, routingKey)
            else DeadLetterRoute(b, q.name, routingKey) == {}
  {
    PartsAreIn(q, b);
    RejectRoute(b, q, routingKey);
  }

  // A delivery's own exchange and routing key, when it came through what the SDK declares.
  predicate ArrivedBySDKRoute(q: QueueConfig, exchange: string, routingKey: string) {
    || (exchange == "" && routingKey == q.name)
    || (q.isDelayQueue && exchange == q.exchange && routingKey == BindingKey(q))
  }

  // Republishing a delivery to where it came from leads back to its queue: through the
  // default exchange with the queue's name, or through its exchange with its routing key.
  lemma RetryRouteReturns(b: Broker, q: QueueConfig, exchange: string, routingKey: string)
    requires Valid(q) && Sub(Wanted(q), b)
    ensures ArrivedBySDKRoute(q, exchange, routingKey) ==> q.name in Route(b, exchange, routingKey)
    ensures q.name in Route(b, "", q.name) && ArrivedBySDKRoute(q, "", q.name)
    ensures q.isDelayQueue ==> ArrivedBySDKRoute(q, q.exchange, if q.routingKey == "" then q.name else q.routingKey)
  {
    PartsAreIn(q, b);
    assert q.name in MainPart(q).queues;
    if exchange != "" && ArrivedBySDKRoute(q, exchange, routingKey) {
      assert Binding(q.name, BindingKey(q), q.exchange) in BindPart(q).bindings;
    }
  }
}
