/**
The locks of the SDK and the order in which every path takes them.

A goroutine is reduced to the lock operations it still has to make; the paths are those of
DeclareQueues, SetQos, Start, the publishing methods, reconnect and Shutdown, with their
branches and loop counts as parameters.
*/
module Locks {

  // sync.Once excludes others while its function runs, so the two of them are locks as well.
  datatype Lock = ShutdownOnce | CloseOnce | Mu | PublisherMu | PoolMu(pool: nat) | ConnectionMu

  function Rank(l: Lock): nat {
    match l
    case ShutdownOnce => 0
    case CloseOnce => 1
    case Mu => 2
    case PublisherMu => 3
    case PoolMu(_) => 4
    case ConnectionMu => 5
  }

  datatype Op =
    | Acquire(lock: Lock)         // Mutex.Lock
    | RAcquire(lock: Lock)        // RWMutex.RLock
    | Announce(lock: Lock)        // RWMutex.Lock, first half: no new readers
    | AwaitReaders(lock: Lock)    // RWMutex.Lock, second half
    | Release(lock: Lock)         // Unlock, RUnlock
    | Use(lock: Lock, writes: bool)   // reads or writes the fields a lock is there for; returns
    | AwaitGroup                  // wg.Wait

  datatype Mode = Exclusive | Reading | Announced

  // counted: in the wait group.  held: what it holds, and how.
  datatype Thread = Thread(counted: bool, held: map<Lock, Mode>, todo: seq<Op>)

  type State = seq<Thread>

  // ---------------------------------------------------------------- steps

  ghost predicate Free(s: State, l: Lock) {
    forall j :: 0 <= j < |s| ==> l !in s[j].held
  }

  // Whether an operation does not block.
  ghost predicate Enabled(s: State, op: Op) {
    match op
    case Acquire(l) => Free(s, l)
    case RAcquire(l) => forall j :: 0 <= j < |s| && l in s[j].held ==> s[j].held[l] == Reading
    case Announce(l) => forall j :: 0 <= j < |s| && l in s[j].held ==> s[j].held[l] == Reading
    case AwaitReaders(l) => forall j :: 0 <= j < |s| && l in s[j].held ==> s[j].held[l] != Reading
    case AwaitGroup => forall j :: 0 <= j < |s| && s[j].counted ==> s[j].todo == []
    case _ => true
  }

  function After(held: map<Lock, Mode>, op: Op): map<Lock, Mode> {
    match op
    case Acquire(l) => held[l := Exclusive]
    case RAcquire(l) => held[l := Reading]
    case Announce(l) => held[l := Announced]
    case AwaitReaders(l) => held[l := Exclusive]
    case Release(l) => held - {l}
    case _ => held
  }

  ghost predicate CanStep(s: State, i: nat) {
    i < |s| && s[i].todo != [] && Enabled(s, s[i].todo[0])
  }

  function Step(s: State, i: nat): State
    requires i < |s| && s[i].todo != []
  {
    s[i := s[i].(held := After(s[i].held, s[i].todo[0]), todo := s[i].todo[1..])]
  }

  datatype Event =
    | Spawn(thread: Thread)
    | Run(i: nat)
    | GiveUp(i: nat)              // the context of a Shutdown ends while it waits for the group

  ghost predicate Next(s: State, e: Event, t: State) {
    match e
    case Spawn(thread) => thread.held == map[] && t == s + [thread]
    case Run(i) => CanStep(s, i) && t == Step(s, i)
    case GiveUp(i) => i < |s| && AtGroup(s[i]) && t == s[i := s[i].(todo := [])]
  }

  predicate AtGroup(t: Thread) { t.todo != [] && t.todo[0].AwaitGroup? }

  ghost predicate IsRun(es: seq<Event>, run: seq<State>) {
    && |run| == |es| + 1
    && run[0] == []
    && forall k :: 0 <= k < |es| ==> Next(run[k], es[k], run[k + 1])
  }

  // ---------------------------------------------------------------- the paths of the source

  function Repeat(n: nat, ops: seq<Op>): seq<Op> {
    if n == 0 then [] else ops + Repeat(n - 1, ops)
  }

  function Inside(l: Lock, p: seq<Op>): seq<Op> { [Acquire(l)] + p + [Release(l)] }

  function Section(l: Lock): seq<Op> { Inside(l, [Use(l, true)]) }

  function Writing(l: Lock, p: seq<Op>): seq<Op> { [Announce(l), AwaitReaders(l)] + p + [Release(l)] }

  const SWAP_POOL := Writing(PublisherMu, [Use(PublisherMu, true)])

  // startWithStoreQueuesFlag up to its n-th call of Consume: s.queues and s.channel.
  function StartPath(n: nat, store: bool, channelLocked: bool): seq<Op> {
    (if store then Section(Mu) else []) + Repeat(n, if channelLocked then [Use(Mu, true)] else Section(Mu))
  }

  // publishAMQP: get goes through the pool's mutex any number of times and the channel is
  // put back.
  function PublishPath(pool: nat, gets: nat, puts: bool): seq<Op> {
    [RAcquire(PublisherMu), Use(PublisherMu, false), Release(PublisherMu)]
    + Repeat(gets, Section(PoolMu(pool)))
    + (if puts then Section(PoolMu(pool)) else [])
  }

  // How far one round of the reconnect loop gets.
  datatype Round = Round(
    oldPool: bool, pool: nat,     // it finds an old pool, with this mutex
    stores: nat,                  // how often a dial goes through connectionState.mu (0, 1 or 2)
    builds: bool, newPool: nat,   // it builds a new pool, and closes it again if that fails
    closesNew: bool, publishes: bool,
    consumes: nat)

  function RoundPath(r: Round, store: bool, channelLocked: bool): seq<Op> {
    SWAP_POOL
    + (if r.oldPool then Section(PoolMu(r.pool)) else [])
    + Repeat(r.stores, Section(ConnectionMu))
    + (if r.builds then Section(ConnectionMu) else [])
    + (if r.closesNew then Section(PoolMu(r.newPool)) else [])
    + (if r.publishes then SWAP_POOL + StartPath(r.consumes, store, channelLocked) else [])
  }

  function RoundsPath(rs: seq<Round>, store: bool, channelLocked: bool): seq<Op> {
    if rs == [] then [] else RoundPath(rs[0], store, channelLocked) + RoundsPath(rs[1..], store, channelLocked)
  }

  // reconnect, for the arguments it gives to startWithStoreQueuesFlag.
  function ReconnectPath(rs: seq<Round>, store: bool, channelLocked: bool): seq<Op> {
    Inside(Mu, RoundsPath(rs, store, channelLocked))
  }

  // Shutdown takes the pool out of s.publisherPool and closes it.
  function DropPool(oldPool: bool, pool: nat): seq<Op> {
    Writing(PublisherMu, (if oldPool then Section(PoolMu(pool)) else []) + [Use(PublisherMu, true)])
  }

  // Shutdown: first and closes say whether it is the call that runs each Once.
  function ShutdownPath(first: bool, waits: bool, closes: bool, oldPool: bool, pool: nat): seq<Op> {
    Inside(ShutdownOnce, if first then Section(ConnectionMu) else [])
    + if waits then
        [AwaitGroup]
        + Inside(CloseOnce, if closes then
            Inside(Mu, DropPool(oldPool, pool) + [Use(Mu, true)])
          else [])
      else []
  }

  // The goroutines there are, in the wait group or not.
  ghost predicate FromSource(t: Thread) {
    || (exists rs :: t.todo == ReconnectPath(rs, false, true))
    || (exists n, store :: t.todo == StartPath(n, store, false))
    || (exists pool, gets, puts :: t.todo == PublishPath(pool, gets, puts))
    || t.todo == Section(Mu)                                     // SetQos, DeclareQueues
    || (exists first, waits, closes, oldPool, pool :: t.todo == ShutdownPath(first, waits, closes, oldPool, pool))
  }

  ghost predicate AllFromSource(es: seq<Event>) {
    forall k :: 0 <= k < |es| && es[k].Spawn? ==> FromSource(es[k].thread)
  }

  // ---------------------------------------------------------------- the discipline

  // In order: above everything held.  Waiting for the group (if that is allowed at all) is
  // for those who hold nothing.
  predicate InOrder(waits: bool, held: map<Lock, Mode>, op: Op) {
    match op
    case Acquire(l) => forall m :: m in held ==> Rank(m) < Rank(l)
    case RAcquire(l) => forall m :: m in held ==> Rank(m) < Rank(l)
    case Announce(l) => forall m :: m in held ==> Rank(m) < Rank(l)
    case AwaitReaders(l) => l in held && held[l] == Announced && forall m :: m in held && m != l ==> Rank(m) < Rank(l)
    case Release(l) => l in held && held[l] != Announced
    case Use(l, writes) => l in held && (held[l] == Exclusive || (!writes && held[l] == Reading))
    case AwaitGroup => held == map[] && waits
  }

  predicate Disciplined(waits: bool, held: map<Lock, Mode>, todo: seq<Op>)
    decreases todo
  {
    todo == [] || (InOrder(waits, held, todo[0]) && Disciplined(waits, After(held, todo[0]), todo[1..]))
  }

  // What is held after all of todo.
  function End(held: map<Lock, Mode>, todo: seq<Op>): map<Lock, Mode>
    decreases todo
  {
    if todo == [] then held else End(After(held, todo[0]), todo[1..])
  }

  lemma {:induction false} Then(waits: bool, held: map<Lock, Mode>, p: seq<Op>, q: seq<Op>)
    ensures Disciplined(waits, held, p + q) <==> Disciplined(waits, held, p) && Disciplined(waits, End(held, p), q)
    ensures End(held, p + q) == End(End(held, p), q)
    decreases p
  {
    if p == [] {
      assert p + q == q;
    } else {
      assert (p + q)[1..] == p[1..] + q;
      Then(waits, After(held, p[0]), p[1..], q);
    }
  }

  lemma First(waits: bool, held: map<Lock, Mode>, op: Op, rest: seq<Op>)
    ensures Disciplined(waits, held, [op] + rest) <==>
              InOrder(waits, held, op) && Disciplined(waits, After(held, op), rest)
    ensures End(held, [op] + rest) == End(After(held, op), rest)
  {
    assert ([op] + rest)[1..] == rest;
  }

  // A stretch that leaves what is held as it was, taken in order.
  predicate Neutral(waits: bool, held: map<Lock, Mode>, p: seq<Op>) {
    Disciplined(waits, held, p) && End(held, p) == held
  }

  lemma NeutralThen(waits: bool, held: map<Lock, Mode>, p: seq<Op>, q: seq<Op>)
    requires Neutral(waits, held, p) && Neutral(waits, held, q)
    ensures Neutral(waits, held, p + q)
  {
    Then(waits, held, p, q);
  }

  lemma {:induction false} NeutralRepeat(waits: bool, held: map<Lock, Mode>, n: nat, p: seq<Op>)
    requires Neutral(waits, held, p)
    ensures Neutral(waits, held, Repeat(n, p))
  {
    if n > 0 {
      NeutralRepeat(waits, held, n - 1, p);
      NeutralThen(waits, held, p, Repeat(n - 1, p));
    }
  }

  predicate Above(l: Lock, held: map<Lock, Mode>) {
    forall m :: m in held ==> Rank(m) < Rank(l)
  }

  lemma InsideIsNeutral(waits: bool, held: map<Lock, Mode>, l: Lock, p: seq<Op>)
    requires Above(l, held) && Neutral(waits, held[l := Exclusive], p)
    ensures Neutral(waits, held, Inside(l, p))
  {
    First(waits, held, Acquire(l), p + [Release(l)]);
    ReleaseIsLast(waits, held, l, p);
    assert Inside(l, p) == [Acquire(l)] + (p + [Release(l)]);
  }

  lemma WritingIsNeutral(waits: bool, held: map<Lock, Mode>, l: Lock, p: seq<Op>)
    requires Above(l, held) && Neutral(waits, held[l := Exclusive], p)
    ensures Neutral(waits, held, Writing(l, p))
  {
    var h1, h2 := held[l := Announced], held[l := Exclusive];
    assert h1[l := Exclusive] == h2;
    First(waits, held, Announce(l), [AwaitReaders(l)] + (p + [Release(l)]));
    First(waits, h1, AwaitReaders(l), p + [Release(l)]);
    ReleaseIsLast(waits, held, l, p);
    assert Writing(l, p) == [Announce(l)] + ([AwaitReaders(l)] + (p + [Release(l)]));
  }

  lemma ReleaseIsLast(waits: bool, held: map<Lock, Mode>, l: Lock, p: seq<Op>)
    requires l !in held && Neutral(waits, held[l := Exclusive], p)
    ensures Disciplined(waits, held[l := Exclusive], p + [Release(l)])
    ensures End(held[l := Exclusive], p + [Release(l)]) == held
  {
    var inside := held[l := Exclusive];
    Then(waits, inside, p, [Release(l)]);
    First(waits, inside, Release(l), []);
    assert [Release(l)] == [Release(l)] + [];
    assert inside - {l} == held;
  }

  lemma UseIsNeutral(waits: bool, held: map<Lock, Mode>, l: Lock)
    requires l in held && held[l] == Exclusive
    ensures Neutral(waits, held, [Use(l, true)])
  {
    First(waits, held, Use(l, true), []);
    assert [Use(l, true)] == [Use(l, true)] + [];
  }

  lemma SectionIsNeutral(waits: bool, held: map<Lock, Mode>, l: Lock)
    requires Above(l, held)
    ensures Neutral(waits, held, Section(l))
  {
    UseIsNeutral(waits, held[l := Exclusive], l);
    InsideIsNeutral(waits, held, l, [Use(l, true)]);
  }

  const IN_MU: map<Lock, Mode> := map[Mu := Exclusive]

  lemma StartIsNeutral(waits: bool, n: nat, store: bool)
    ensures Neutral(waits, map[], StartPath(n, store, false))
  {
    SectionIsNeutral(waits, map[], Mu);
    NeutralRepeat(waits, map[], n, Section(Mu));
    NeutralThen(waits, map[], if store then Section(Mu) else [], Repeat(n, Section(Mu)));
  }

  lemma PublishIsNeutral(waits: bool, pool: nat, gets: nat, puts: bool)
    ensures Neutral(waits, map[], PublishPath(pool, gets, puts))
  {
    var none: map<Lock, Mode> := map[];
    var reading, use := map[PublisherMu := Reading], Use(PublisherMu, false);
    var look := [RAcquire(PublisherMu), use, Release(PublisherMu)];
    First(waits, none, RAcquire(PublisherMu), [use, Release(PublisherMu)]);
    First(waits, reading, use, [Release(PublisherMu)]);
    First(waits, reading, Release(PublisherMu), []);
    assert look == [RAcquire(PublisherMu)] + [use, Release(PublisherMu)];
    assert [use, Release(PublisherMu)] == [use] + [Release(PublisherMu)];
    assert [Release(PublisherMu)] == [Release(PublisherMu)] + [];
    assert none[PublisherMu := Reading] == reading && reading - {PublisherMu} == none;
    SectionIsNeutral(waits, none, PoolMu(pool));
    NeutralRepeat(waits, none, gets, Section(PoolMu(pool)));
    NeutralThen(waits, none, look, Repeat(gets, Section(PoolMu(pool))));
    NeutralThen(waits, none, look + Repeat(gets, Section(PoolMu(pool))), if puts then Section(PoolMu(pool)) else []);
  }

  lemma ConsumeIsNeutral(waits: bool, n: nat)
    ensures Neutral(waits, IN_MU, StartPath(n, false, true))
  {
    UseIsNeutral(waits, IN_MU, Mu);
    NeutralRepeat(waits, IN_MU, n, [Use(Mu, true)]);
    assert StartPath(n, false, true) == Repeat(n, [Use(Mu, true)]);
  }

  // Inside the mutex that reconnect holds, Consume is called without taking it.
  lemma RoundIsNeutral(waits: bool, r: Round)
    ensures Neutral(waits, IN_MU, RoundPath(r, false, true))
  {
    UseIsNeutral(waits, IN_MU[PublisherMu := Exclusive], PublisherMu);
    WritingIsNeutral(waits, IN_MU, PublisherMu, [Use(PublisherMu, true)]);
    SectionIsNeutral(waits, IN_MU, PoolMu(r.pool));
    SectionIsNeutral(waits, IN_MU, PoolMu(r.newPool));
    SectionIsNeutral(waits, IN_MU, ConnectionMu);
    NeutralRepeat(waits, IN_MU, r.stores, Section(ConnectionMu));
    ConsumeIsNeutral(waits, r.consumes);
    NeutralThen(waits, IN_MU, SWAP_POOL, StartPath(r.consumes, false, true));
    var last := if r.publishes then SWAP_POOL + StartPath(r.consumes, false, true) else [];
    RoundPartsAreNeutral(waits, r, last, false, true);
  }

  lemma RoundPartsAreNeutral(waits: bool, r: Round, last: seq<Op>, store: bool, channelLocked: bool)
    requires last == if r.publishes then SWAP_POOL + StartPath(r.consumes, store, channelLocked) else []
    requires Neutral(waits, IN_MU, SWAP_POOL) && Neutral(waits, IN_MU, last)
    requires Neutral(waits, IN_MU, Section(PoolMu(r.pool))) && Neutral(waits, IN_MU, Section(PoolMu(r.newPool)))
    requires Neutral(waits, IN_MU, Section(ConnectionMu))
    requires Neutral(waits, IN_MU, Repeat(r.stores, Section(ConnectionMu)))
    ensures Neutral(waits, IN_MU, RoundPath(r, store, channelLocked))
  {
    var p1 := if r.oldPool then Section(PoolMu(r.pool)) else [];
    var p2 := Repeat(r.stores, Section(ConnectionMu));
    var p3 := if r.builds then Section(ConnectionMu) else [];
    var p4 := if r.closesNew then Section(PoolMu(r.newPool)) else [];
    NeutralThen(waits, IN_MU, SWAP_POOL, p1);
    NeutralThen(waits, IN_MU, SWAP_POOL + p1, p2);
    NeutralThen(waits, IN_MU, SWAP_POOL + p1 + p2, p3);
    NeutralThen(waits, IN_MU, SWAP_POOL + p1 + p2 + p3, p4);
    NeutralThen(waits, IN_MU, SWAP_POOL + p1 + p2 + p3 + p4, last);
  }

  lemma {:induction false} RoundsAreNeutral(waits: bool, rs: seq<Round>)
    ensures Neutral(waits, IN_MU, RoundsPath(rs, false, true))
  {
    if rs != [] {
      RoundIsNeutral(waits, rs[0]);
      RoundsAreNeutral(waits, rs[1..]);
      NeutralThen(waits, IN_MU, RoundPath(rs[0], false, true), RoundsPath(rs[1..], false, true));
    }
  }

  lemma ReconnectIsNeutral(waits: bool, rs: seq<Round>)
    ensures Neutral(waits, map[], ReconnectPath(rs, false, true))
  {
    RoundsAreNeutral(waits, rs);
    InsideIsNeutral(waits, map[], Mu, RoundsPath(rs, false, true));
  }

  lemma ShutdownIsNeutral(first: bool, waits: bool, closes: bool, oldPool: bool, pool: nat)
    ensures Neutral(true, map[], ShutdownPath(first, waits, closes, oldPool, pool))
  {
    var none: map<Lock, Mode> := map[];
    var once := none[ShutdownOnce := Exclusive];
    SectionIsNeutral(true, once, ConnectionMu);
    InsideIsNeutral(true, none, ShutdownOnce, if first then Section(ConnectionMu) else []);
    var closing := none[CloseOnce := Exclusive];
    ClosingIsNeutral(closing[Mu := Exclusive], oldPool, pool);
    var body := DropPool(oldPool, pool) + [Use(Mu, true)];
    InsideIsNeutral(true, closing, Mu, body);
    InsideIsNeutral(true, none, CloseOnce, if closes then Inside(Mu, body) else []);
    First(true, none, AwaitGroup, []);
    assert [AwaitGroup] == [AwaitGroup] + [];
    NeutralThen(true, none, [AwaitGroup], Inside(CloseOnce, if closes then Inside(Mu, body) else []));
    NeutralThen(true, none, Inside(ShutdownOnce, if first then Section(ConnectionMu) else []),
                if waits then [AwaitGroup] + Inside(CloseOnce, if closes then Inside(Mu, body) else []) else []);
  }

  lemma ClosingIsNeutral(held: map<Lock, Mode>, oldPool: bool, pool: nat)
    requires Above(PublisherMu, held) && Mu in held && held[Mu] == Exclusive
    ensures Neutral(true, held, DropPool(oldPool, pool) + [Use(Mu, true)])
  {
    var inside, closing := held[PublisherMu := Exclusive], if oldPool then Section(PoolMu(pool)) else [];
    SectionIsNeutral(true, inside, PoolMu(pool));
    UseIsNeutral(true, inside, PublisherMu);
    NeutralThen(true, inside, closing, [Use(PublisherMu, true)]);
    WritingIsNeutral(true, held, PublisherMu, closing + [Use(PublisherMu, true)]);
    UseIsNeutral(true, held, Mu);
    NeutralThen(true, held, DropPool(oldPool, pool), [Use(Mu, true)]);
  }

  // Every path of the source takes its locks in order and gives all of them back.
  lemma SourceIsDisciplined(t: Thread)
    requires FromSource(t)
    ensures Neutral(true, map[], t.todo)
  {
    if rs :| t.todo == ReconnectPath(rs, false, true) {
      ReconnectIsNeutral(true, rs);
    } else if n, store :| t.todo == StartPath(n, store, false) {
      StartIsNeutral(true, n, store);
    } else if pool, gets, puts :| t.todo == PublishPath(pool, gets, puts) {
      PublishIsNeutral(true, pool, gets, puts);
    } else if t.todo == Section(Mu) {
      SectionIsNeutral(true, map[], Mu);
    } else {
      var first, waits, closes, oldPool, pool :| t.todo == ShutdownPath(first, waits, closes, oldPool, pool);
      ShutdownIsNeutral(first, waits, closes, oldPool, pool);
    }
  }

  // ---------------------------------------------------------------- states

  ghost predicate Compatible(a: Thread, b: Thread) {
    forall l :: l in a.held && l in b.held ==>
      a.held[l] != Exclusive && b.held[l] != Exclusive && (a.held[l] == Reading || b.held[l] == Reading)
  }

  ghost predicate Inv(s: State) {
    && (forall i :: 0 <= i < |s| ==> Disciplined(true, s[i].held, s[i].todo) && End(s[i].held, s[i].todo) == map[])
    && (forall i, j :: 0 <= i < |s| && 0 <= j < |s| && i != j ==> Compatible(s[i], s[j]))
  }

  lemma StepKeeps(s: State, e: Event, t: State)
    requires Inv(s) && Next(s, e, t) && (e.Spawn? ==> FromSource(e.thread))
    ensures Inv(t)
  {
    match e
    case Spawn(thread) => SourceIsDisciplined(thread);
    case Run(i) => RunKeepsInv(s, i);
    case GiveUp(i) => GiveUpKeepsInv(s, i);
  }

  lemma RunKeepsInv(s: State, i: nat)
    requires Inv(s) && CanStep(s, i)
    ensures Inv(Step(s, i))
  {
    var t := Step(s, i);
    forall j | 0 <= j < |s| && j != i ensures Compatible(t[i], t[j]) && Compatible(t[j], t[i]) {
      assert Compatible(s[i], s[j]);
    }
    forall j, k | 0 <= j < |s| && 0 <= k < |s| && j != k ensures Compatible(t[j], t[k]) {
      assert j != i && k != i ==> Compatible(s[j], s[k]);
    }
  }

  lemma GiveUpKeepsInv(s: State, i: nat)
    requires Inv(s) && i < |s| && AtGroup(s[i])
    ensures Inv(s[i := s[i].(todo := [])])
  {
    var t := s[i := s[i].(todo := [])];
    assert Disciplined(true, s[i].held, s[i].todo);
    forall j, k | 0 <= j < |s| && 0 <= k < |s| && j != k ensures Compatible(t[j], t[k]) {
      assert Compatible(s[j], s[k]);
    }
  }

  lemma {:induction false} RunKeeps(es: seq<Event>, run: seq<State>, k: nat)
    requires IsRun(es, run) && AllFromSource(es) && k < |run|
    ensures Inv(run[k])
  {
    if k > 0 {
      RunKeeps(es, run, k - 1);
      StepKeeps(run[k - 1], es[k - 1], run[k]);
    }
  }

  // ---------------------------------------------------------------- progress

  predicate Takes(op: Op) { op.Acquire? || op.RAcquire? || op.Announce? || op.AwaitReaders? }

  // The goroutine that keeps i waiting.
  lemma Blocker(s: State, i: nat) returns (j: nat)
    requires Inv(s) && i < |s| && s[i].todo != [] && Takes(s[i].todo[0]) && !CanStep(s, i)
    ensures j < |s| && s[i].todo[0].lock in s[j].held
    ensures s[i].todo[0].AwaitReaders? ==> s[j].held[s[i].todo[0].lock] == Reading
  {
    var l := s[i].todo[0].lock;
    j :| 0 <= j < |s| && l in s[j].held && (s[i].todo[0].AwaitReaders? ==> s[j].held[l] == Reading);
  }

  // Whoever holds something is not finished, and is at an operation above what it holds.
  lemma HolderIsBusy(s: State, j: nat, l: Lock)
    requires Inv(s) && j < |s| && l in s[j].held
    ensures s[j].todo != [] && !s[j].todo[0].AwaitGroup?
    ensures s[j].todo[0].AwaitReaders? ==>
              Rank(s[j].todo[0].lock) > Rank(l) || (s[j].todo[0].lock == l && s[j].held[l] == Announced)
    ensures Takes(s[j].todo[0]) && !s[j].todo[0].AwaitReaders? ==> Rank(s[j].todo[0].lock) > Rank(l)
  {
    assert Disciplined(true, s[j].held, s[j].todo);
  }

  // Following who waits for whom ends at a goroutine that can go on.
  lemma {:induction false} Chase(s: State, i: nat) returns (j: nat)
    requires Inv(s) && i < |s| && s[i].todo != [] && !s[i].todo[0].AwaitGroup?
    ensures CanStep(s, j)
    decreases if Takes(s[i].todo[0]) then 5 - Rank(s[i].todo[0].lock) else 0,
              if s[i].todo[0].AwaitReaders? then 0 else 1
  {
    if CanStep(s, i) {
      j := i;
    } else {
      var k := Blocker(s, i);
      HolderIsBusy(s, k, s[i].todo[0].lock);
      if CanStep(s, k) {
        j := k;
      } else {
        j := Chase(s, k);
      }
    }
  }

  // Shutdown called from inside the wait group, from a handler say, has come to wait for it.
  predicate WaitsForItself(t: Thread) { t.counted && AtGroup(t) }

  // Somebody is not finished, and nobody can go on.
  ghost predicate Stuck(s: State) {
    && (exists i :: 0 <= i < |s| && s[i].todo != [])
    && forall i: nat :: !CanStep(s, i)
  }

  lemma NotBusy(s: State)
    requires Inv(s) && forall i: nat :: !CanStep(s, i)
    ensures forall i :: 0 <= i < |s| && s[i].todo != [] ==> AtGroup(s[i])
  {
    forall i | 0 <= i < |s| && s[i].todo != [] ensures AtGroup(s[i]) {
      if !AtGroup(s[i]) { var j := Chase(s, i); }
    }
  }

  // With any number of goroutines on any of the paths, a reachable state is stuck if and only
  // if a goroutine of the wait group waits for the group and all the others have finished or
  // wait for it as well: the locks alone never block anybody for good.
  lemma StuckExactly(es: seq<Event>, run: seq<State>, k: nat)
    requires IsRun(es, run) && AllFromSource(es) && k < |run|
    ensures Stuck(run[k]) <==>
            && (exists i :: 0 <= i < |run[k]| && WaitsForItself(run[k][i]))
            && (forall i :: 0 <= i < |run[k]| && run[k][i].todo != [] ==> AtGroup(run[k][i]))
  {
    RunKeeps(es, run, k);
    var s := run[k];
    if Stuck(s) {
      NotBusy(s);
      var i: nat :| i < |s| && s[i].todo != [];
      assert !CanStep(s, i);
      var j :| 0 <= j < |s| && s[j].counted && s[j].todo != [];
      assert WaitsForItself(s[j]);
    } else if i :| 0 <= i < |s| && WaitsForItself(s[i]) {
      var j: nat :| CanStep(s, j);
      assert !AtGroup(s[j]);
    }
  }

  // No goroutine of the wait group calls Shutdown and waits.
  ghost predicate NoShutdownFromInside(es: seq<Event>) {
    forall k :: 0 <= k < |es| && es[k].Spawn? && es[k].thread.counted ==> AwaitGroup !in es[k].thread.todo
  }

  lemma {:induction false} NobodyWaitsForItself(es: seq<Event>, run: seq<State>, k: nat, i: nat)
    requires IsRun(es, run) && NoShutdownFromInside(es) && k < |run| && i < |run[k]| && run[k][i].counted
    ensures AwaitGroup !in run[k][i].todo
  {
    if k > 0 {
      assert Next(run[k - 1], es[k - 1], run[k]);
      if i < |run[k - 1]| { NobodyWaitsForItself(es, run, k - 1, i); }
    }
  }

  // So while nobody does that, and one goroutine is not finished, one of them can go on.
  lemma NeverDeadlocked(es: seq<Event>, run: seq<State>, k: nat, i: nat)
    requires IsRun(es, run) && AllFromSource(es) && NoShutdownFromInside(es)
    requires k < |run| && i < |run[k]| && run[k][i].todo != []
    ensures exists j: nat :: CanStep(run[k], j)
  {
    StuckExactly(es, run, k);
    forall j: nat | j < |run[k]| ensures !WaitsForItself(run[k][j]) {
      if run[k][j].counted { NobodyWaitsForItself(es, run, k, j); }
    }
  }

  // Shutdown called from inside gets past its wait only by its own context.
  lemma {:induction false} WaitsForItselfForEver(es: seq<Event>, run: seq<State>, j: nat, k: nat, i: nat)
    requires IsRun(es, run) && j <= k < |run| && i < |run[j]| && WaitsForItself(run[j][i])
    ensures i < |run[k]|
    ensures (run[k][i] == run[j][i] && !CanStep(run[k], i)) || exists l :: j <= l < k && es[l] == GiveUp(i)
  {
    if j < k {
      WaitsForItselfForEver(es, run, j, k - 1, i);
      assert Next(run[k - 1], es[k - 1], run[k]);
    }
  }

  // A lock held exclusively is held by nobody else, and a finished goroutine holds none.
  lemma LocksExclude(es: seq<Event>, run: seq<State>, k: nat, i: nat, j: nat, l: Lock)
    requires IsRun(es, run) && AllFromSource(es) && k < |run| && i < |run[k]| && j < |run[k]| && l in run[k][i].held
    ensures run[k][i].held[l] == Exclusive && i != j ==> l !in run[k][j].held
    ensures run[k][i].todo != []
  {
    RunKeeps(es, run, k);
    HolderIsBusy(run[k], i, l);
    if i != j { assert Compatible(run[k][i], run[k][j]); }
  }

  // Nobody writes what is guarded by a lock while another reads or writes it.
  lemma NoDataRace(es: seq<Event>, run: seq<State>, k: nat, i: nat, j: nat)
    requires IsRun(es, run) && AllFromSource(es) && k < |run| && i < |run[k]| && j < |run[k]| && i != j
    requires run[k][i].todo != [] && run[k][i].todo[0].Use? && run[k][j].todo != [] && run[k][j].todo[0].Use?
    ensures run[k][i].todo[0].lock == run[k][j].todo[0].lock ==>
              !run[k][i].todo[0].writes && !run[k][j].todo[0].writes
  {
    RunKeeps(es, run, k);
    var s := run[k];
    assert Disciplined(true, s[i].held, s[i].todo) && Disciplined(true, s[j].held, s[j].todo);
    assert Compatible(s[i], s[j]);
  }

  // ---------------------------------------------------------------- what the paths use

  function Uses(op: Op, p: seq<Op>): nat {
    if p == [] then 0 else (if p[0] == op then 1 else 0) + Uses(op, p[1..])
  }

  lemma {:induction false} UsesThen(op: Op, p: seq<Op>, q: seq<Op>)
    ensures Uses(op, p + q) == Uses(op, p) + Uses(op, q)
  {
    if p == [] {
      assert p + q == q;
    } else {
      assert (p + q)[1..] == p[1..] + q;
      UsesThen(op, p[1..], q);
    }
  }

  lemma {:induction false} UsesRepeat(op: Op, n: nat, p: seq<Op>)
    ensures Uses(op, Repeat(n, p)) == n * Uses(op, p)
  {
    if n > 0 {
      UsesRepeat(op, n - 1, p);
      UsesThen(op, p, Repeat(n - 1, p));
    }
  }

  lemma UsesInside(op: Op, l: Lock, p: seq<Op>)
    requires op.Use?
    ensures Uses(op, Inside(l, p)) == Uses(op, p)
  {
    UsesThen(op, [Acquire(l)] + p, [Release(l)]);
    UsesThen(op, [Acquire(l)], p);
  }

  lemma UsesWriting(op: Op, l: Lock, p: seq<Op>)
    requires op.Use?
    ensures Uses(op, Writing(l, p)) == Uses(op, p)
  {
    UsesThen(op, [Announce(l), AwaitReaders(l)] + p, [Release(l)]);
    UsesThen(op, [Announce(l), AwaitReaders(l)], p);
    assert [Announce(l), AwaitReaders(l)][1..] == [AwaitReaders(l)];
  }

  // Start writes s.queues once, if it stores, and goes to the consume channel for each queue;
  // a round of reconnect takes the old pool out, puts the new one in and does the same.
  lemma StartUses(n: nat, store: bool, channelLocked: bool)
    ensures Uses(Use(Mu, true), StartPath(n, store, channelLocked)) == n + if store then 1 else 0
  {
    var op := Use(Mu, true);
    SectionUses(op, Mu);
    UsesRepeat(op, n, if channelLocked then [op] else Section(Mu));
    UsesThen(op, if store then Section(Mu) else [], Repeat(n, if channelLocked then [op] else Section(Mu)));
  }

  lemma RoundUses(r: Round)
    ensures Uses(Use(PublisherMu, true), RoundPath(r, false, true)) == if r.publishes then 2 else 1
    ensures Uses(Use(Mu, true), RoundPath(r, false, true)) == if r.publishes then r.consumes else 0
  {
    RoundCounts(Use(PublisherMu, true), r);
    RoundCounts(Use(Mu, true), r);
    StartUses(r.consumes, false, true);
    UsesRepeat(Use(PublisherMu, true), r.consumes, [Use(Mu, true)]);
    assert StartPath(r.consumes, false, true) == Repeat(r.consumes, [Use(Mu, true)]);
  }

  lemma RoundCounts(op: Op, r: Round)
    requires op == Use(Mu, true) || op == Use(PublisherMu, true)
    ensures Uses(op, RoundPath(r, false, true))
            == Uses(op, [Use(PublisherMu, true)])
               + if r.publishes then Uses(op, [Use(PublisherMu, true)]) + Uses(op, StartPath(r.consumes, false, true))
                 else 0
  {
    var p1 := if r.oldPool then Section(PoolMu(r.pool)) else [];
    var p2 := Repeat(r.stores, Section(ConnectionMu));
    var p3 := if r.builds then Section(ConnectionMu) else [];
    var p4 := if r.closesNew then Section(PoolMu(r.newPool)) else [];
    var last := if r.publishes then SWAP_POOL + StartPath(r.consumes, false, true) else [];
    DetourUsesNothing(op, r.oldPool, PoolMu(r.pool));
    DetourUsesNothing(op, r.builds, ConnectionMu);
    DetourUsesNothing(op, r.closesNew, PoolMu(r.newPool));
    DetoursRepeat(op, r.stores, ConnectionMu);
    UsesThen(op, SWAP_POOL + p1 + p2 + p3 + p4, last);
    UsesThen(op, SWAP_POOL + p1 + p2 + p3, p4);
    UsesThen(op, SWAP_POOL + p1 + p2, p3);
    UsesThen(op, SWAP_POOL + p1, p2);
    UsesThen(op, SWAP_POOL, p1);
    UsesThen(op, SWAP_POOL, StartPath(r.consumes, false, true));
    UsesWriting(op, PublisherMu, [Use(PublisherMu, true)]);
  }

  lemma DetourUsesNothing(op: Op, taken: bool, l: Lock)
    requires op.Use? && op != Use(l, true)
    ensures Uses(op, if taken then Section(l) else []) == 0
  {
    SectionUses(op, l);
  }

  lemma {:induction false} DetoursRepeat(op: Op, n: nat, l: Lock)
    requires op.Use? && op != Use(l, true)
    ensures Uses(op, Repeat(n, Section(l))) == 0
  {
    if n > 0 {
      DetoursRepeat(op, n - 1, l);
      SectionUses(op, l);
      UsesThen(op, Section(l), Repeat(n - 1, Section(l)));
    }
  }

  lemma SectionUses(op: Op, l: Lock)
    requires op.Use?
    ensures Uses(op, Section(l)) == if op == Use(l, true) then 1 else 0
  {
    UsesInside(op, l, [Use(l, true)]);
  }

  // ---------------------------------------------------------------- store=false, channelLocked=true

  // A single goroutine on the given path has got to the point where it holds held and has
  // todo ahead of it.
  ghost predicate AloneAt(path: seq<Op>, es: seq<Event>, run: seq<State>, held: map<Lock, Mode>, todo: seq<Op>) {
    && IsRun(es, run) && es != [] && es[0] == Spawn(Thread(true, map[], path))
    && (forall k :: 1 <= k < |es| ==> es[k] == Run(0))
    && run[|es|] == [Thread(true, held, todo)]
  }

  lemma AloneNext(path: seq<Op>, es: seq<Event>, run: seq<State>, held: map<Lock, Mode>, op: Op, rest: seq<Op>)
    returns (run': seq<State>)
    requires AloneAt(path, es, run, held, [op] + rest) && InOrder(false, held, op)
    ensures AloneAt(path, es + [Run(0)], run', After(held, op), rest)
  {
    var s := run[|es|];
    assert s[0].todo[0] == op && s[0].todo[1..] == rest;
    assert CanStep(s, 0);
    run' := run + [Step(s, 0)];
    assert IsRun(es + [Run(0)], run');
    assert Step(s, 0) == [Thread(true, After(held, op), rest)];
  }

  lemma {:induction false} AloneThrough(path: seq<Op>, es: seq<Event>, run: seq<State>, held: map<Lock, Mode>,
      p: seq<Op>, q: seq<Op>)
    returns (es': seq<Event>, run': seq<State>)
    requires AloneAt(path, es, run, held, p + q) && Disciplined(false, held, p)
    ensures AloneAt(path, es', run', End(held, p), q)
    decreases p
  {
    if p == [] {
      assert p + q == q;
      es', run' := es, run;
    } else {
      assert p + q == [p[0]] + (p[1..] + q);
      run' := AloneNext(path, es, run, held, p[0], p[1..] + q);
      es', run' := AloneThrough(path, es + [Run(0)], run', After(held, p[0]), p[1..], q);
    }
  }

  // A reconnect that gives startWithStoreQueuesFlag these arguments can block for ever
  // although nobody else holds a lock.
  ghost predicate CanBlockItself(store: bool, channelLocked: bool) {
    exists rs, es, run, held, todo ::
      AloneAt(ReconnectPath(rs, store, channelLocked), es, run, held, todo) && todo != [] && !CanStep(run[|es|], 0)
  }

  lemma {:induction false} NoAwaiting(held: map<Lock, Mode>, p: seq<Op>)
    requires Disciplined(false, held, p)
    ensures AwaitGroup !in p
    decreases p
  {
    if p != [] { NoAwaiting(After(held, p[0]), p[1..]); }
  }

  lemma RightFlagsNeverBlock(rs: seq<Round>, es: seq<Event>, run: seq<State>, held: map<Lock, Mode>, todo: seq<Op>)
    requires AloneAt(ReconnectPath(rs, false, true), es, run, held, todo) && todo != []
    ensures CanStep(run[|es|], 0)
  {
    assert FromSource(es[0].thread);
    assert AllFromSource(es);
    ReconnectIsNeutral(false, rs);
    NoAwaiting(map[], ReconnectPath(rs, false, true));
    assert NoShutdownFromInside(es);
    NeverDeadlocked(es, run, |es|, 0);
  }

  const DIALLED := Section(ConnectionMu) + Section(ConnectionMu)
  const UP_TO_START := [Acquire(Mu)] + (SWAP_POOL + DIALLED + SWAP_POOL)

  lemma UpToStart()
    ensures Disciplined(false, map[], UP_TO_START) && End(map[], UP_TO_START) == IN_MU
  {
    UseIsNeutral(false, IN_MU[PublisherMu := Exclusive], PublisherMu);
    WritingIsNeutral(false, IN_MU, PublisherMu, [Use(PublisherMu, true)]);
    SectionIsNeutral(false, IN_MU, ConnectionMu);
    NeutralThen(false, IN_MU, Section(ConnectionMu), Section(ConnectionMu));
    NeutralThen(false, IN_MU, SWAP_POOL, DIALLED);
    NeutralThen(false, IN_MU, SWAP_POOL + DIALLED, SWAP_POOL);
    First(false, map[], Acquire(Mu), SWAP_POOL + DIALLED + SWAP_POOL);
  }

  // A round without an old pool (an earlier round has closed it), up to its first Consume.
  const SHORT_ROUND := Round(false, 0, 1, true, 0, false, true, 1)

  lemma ShortReconnect(store: bool, channelLocked: bool)
    ensures ReconnectPath([SHORT_ROUND], store, channelLocked)
            == UP_TO_START + (StartPath(1, store, channelLocked) + [Release(Mu)])
  {
    var round, start := RoundPath(SHORT_ROUND, store, channelLocked), StartPath(1, store, channelLocked);
    assert Repeat(1, Section(ConnectionMu)) == Section(ConnectionMu) by {
      assert Repeat(0, Section(ConnectionMu)) == [];
    }
    assert round == SWAP_POOL + DIALLED + SWAP_POOL + start;
    assert RoundsPath([SHORT_ROUND][1..], store, channelLocked) == [];
    assert RoundsPath([SHORT_ROUND], store, channelLocked) == round;
  }

  lemma WrongFlagsBlock(store: bool, channelLocked: bool)
    requires store || !channelLocked
    ensures CanBlockItself(store, channelLocked)
  {
    var path := ReconnectPath([SHORT_ROUND], store, channelLocked);
    var rest := StartPath(1, store, channelLocked) + [Release(Mu)];
    assert rest[0] == Acquire(Mu);
    ShortReconnect(store, channelLocked);
    UpToStart();
    var es, run := [Spawn(Thread(true, map[], path))], [[], [Thread(true, map[], path)]];
    assert AloneAt(path, es, run, map[], UP_TO_START + rest);
    es, run := AloneThrough(path, es, run, map[], UP_TO_START, rest);
    assert Mu in run[|es|][0].held;
  }

  // reconnect calls it with s.mu held: it blocks itself unless nothing is stored and the
  // lock is declared taken.
  lemma ReconnectFlagsExactly(store: bool, channelLocked: bool)
    ensures CanBlockItself(store, channelLocked) <==> store || !channelLocked
  {
    if store || !channelLocked {
      WrongFlagsBlock(store, channelLocked);
    } else if CanBlockItself(store, channelLocked) {
      var rs, es, run, held, todo :|
        AloneAt(ReconnectPath(rs, false, true), es, run, held, todo) && todo != [] && !CanStep(run[|es|], 0);
      RightFlagsNeverBlock(rs, es, run, held, todo);
    }
  }
}
