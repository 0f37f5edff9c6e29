/**
The publisher channel pool of publisher_pool.go as a small-step interleaving system.

Any number of goroutines run `get`, `put` and `close`; a step is one atomic action
of one of them (an atomic load or add, a mutex operation, one channel operation, one
AMQP call).  The environment decides the outcome of every AMQP call, when a context
ends, and when the broker closes an AMQP channel.
*/
module PoolMachine {
  import opened Options
  import opened Sums

  type ChanId = nat

  // The arguments the pool was built with; max is already an int32 (publisher_pool.go:40).
  datatype Config = Config(size: nat, max: int)

  // What one goroutine does next.  A step that carries a channel means that the goroutine
  // is the one responsible for it.
  datatype PC =
    | Idle
    | Lent(ch: ChanId)            // the caller of get owns the channel
    | Get(get: GetStep)
    | Put(put: PutStep, ch: ChanId)
    | Close(close: CloseStep)

  datatype GetStep =
    | LookAtContext               // loop head
    | TryTake                     // tryTakeChannel
    | Inspect(ch: ChanId)         // ch.IsClosed() on the channel just taken
    | DropDead                    // it was dead: counter down
    | FastLook                    // unlocked look at the counter
    | GetLock
    | LookAtClosed
    | LockedLook                  // locked look at the counter
    | Open                        // conn.Channel()
    | Confirm(ch: ChanId)         // ch.Confirm(false)
    | CountUp(ch: ChanId)
    | UnlockAndLend(ch: ChanId)
    | UnlockBad(ch: ChanId)       // Confirm failed: unlock first ...
    | CloseBad(ch: ChanId)        // ... close the channel afterwards
    | UnlockAndFail
    | UnlockAndWait               // somebody else filled the pool
    | Wait                        // select between the buffer and the context
    | InspectWaited(ch: ChanId)
    | DropWaited

  datatype PutStep =
    | PutLock
    | Examine                     // p.closed || ch.IsClosed()
    | CountDown
    | ExamineAgain                // ch.IsClosed() after the count
    | Send
    | Overflow                    // the buffer is full: counter down
    | CloseIt
    | PutUnlock                   // with nothing left to be responsible for

  datatype CloseStep =
    | CloseLock
    | ExamineClosed
    | Mark                        // p.closed = true
    | Seal                        // close(p.channels)
    | CloseUnlock
    | UnlockAgain                 // was closed already
    | Drain
    | DrainCount(ch: ChanId)
    | DrainClose(ch: ChanId)

  // What the goroutines share.
  datatype Pool = Pool(
    buffer: seq<ChanId>,          // contents of the Go channel p.channels
    sealed: bool,                 // the Go channel has been closed
    closed: bool,                 // p.closed
    counter: int,                 // p.currentPoolSize
    lock: Option<nat>,            // the goroutine inside p.mu
    open: set<ChanId>,            // AMQP channels that are open at the broker
    next: ChanId,                 // AMQP channels opened so far
    counted: set<ChanId>,         // AMQP channels that were ever counted
    panicked: bool)               // a send on, or a second close of, the closed Go channel

  datatype State = State(pool: Pool, threads: seq<PC>)

  datatype Call = CallGet | CallPut | CallClose

  datatype Event =
    | Spawn                       // one more goroutine appears
    | Begin(i: nat, call: Call)   // a goroutine enters one of the three methods
    | Run(i: nat, ok: bool)       // it executes its next action; ok is the environment's answer
    | Die(ch: ChanId)             // the broker or the network closes an AMQP channel

  function UpTo(n: nat): (ids: set<ChanId>)
    ensures forall k: nat :: k in ids <==> k < n
  {
    if n == 0 then {} else UpTo(n - 1) + {n - 1}
  }

  // The pool as newPublisherChannelPool hands it out: size counted channels in the buffer.
  function Initial(c: Config): State {
    State(Pool(seq(c.size, i => i), false, false, c.size, None, UpTo(c.size), c.size, UpTo(c.size), false), [])
  }

  // The next action of a goroutine in get: the new shared state and where the goroutine
  // goes.  None when it is blocked.
  function ActGet(c: Config, s: Pool, i: nat, g: GetStep, ok: bool): Option<(Pool, PC)> {
    match g
    case LookAtContext => Some((s, if ok then Get(TryTake) else Idle))
    case TryTake =>
      if s.buffer != [] then Some((s.(buffer := s.buffer[1..]), Get(Inspect(s.buffer[0]))))
      else Some((s, if s.sealed then Idle else Get(FastLook)))
    case Inspect(ch) => Some((s, if ch in s.open then Lent(ch) else Get(DropDead)))
    case DropDead => Some((s.(counter := s.counter - 1), Get(FastLook)))
    case FastLook => Some((s, Get(if s.counter < c.max then GetLock else Wait)))
    case GetLock => if s.lock.None? then Some((s.(lock := Some(i)), Get(LookAtClosed))) else None
    case LookAtClosed => Some((s, Get(if s.closed then UnlockAndFail else LockedLook)))
    case LockedLook => Some((s, Get(if s.counter < c.max then Open else UnlockAndWait)))
    case Open =>
      if ok then Some((s.(open := s.open + {s.next}, next := s.next + 1), Get(Confirm(s.next))))
      else Some((s, Get(UnlockAndFail)))
    case Confirm(ch) => Some((s, Get(if ok then CountUp(ch) else UnlockBad(ch))))
    case CountUp(ch) =>
      Some((s.(counter := s.counter + 1, counted := s.counted + {ch}), Get(UnlockAndLend(ch))))
    case UnlockAndLend(ch) => Some((s.(lock := None), Lent(ch)))
    case UnlockBad(ch) => Some((s.(lock := None), Get(CloseBad(ch))))
    case CloseBad(ch) => Some((s.(open := s.open - {ch}), Idle))
    case UnlockAndFail => Some((s.(lock := None), Idle))
    case UnlockAndWait => Some((s.(lock := None), Get(Wait)))
    case Wait =>
      if !ok then Some((s, Idle))
      else if s.buffer != [] then Some((s.(buffer := s.buffer[1..]), Get(InspectWaited(s.buffer[0]))))
      else if s.sealed then Some((s, Idle))
      else None
    case InspectWaited(ch) => Some((s, if ch in s.open then Lent(ch) else Get(DropWaited)))
    case DropWaited => Some((s.(counter := s.counter - 1), Get(LookAtContext)))
  }

  function ActPut(c: Config, s: Pool, i: nat, p: PutStep, ch: ChanId): Option<(Pool, PC)> {
    match p
    case PutLock => if s.lock.None? then Some((s.(lock := Some(i)), Put(Examine, ch))) else None
    case Examine => Some((s, Put(if s.closed || ch !in s.open then CountDown else Send, ch)))
    case CountDown => Some((s.(counter := s.counter - 1), Put(ExamineAgain, ch)))
    case ExamineAgain => Some((s, Put(if ch in s.open then CloseIt else PutUnlock, ch)))
    case Send =>
      if s.sealed then Some((s.(panicked := true), Put(PutUnlock, ch)))
      else if |s.buffer| < c.size then Some((s.(buffer := s.buffer + [ch]), Put(PutUnlock, ch)))
      else Some((s, Put(Overflow, ch)))
    case Overflow => Some((s.(counter := s.counter - 1), Put(CloseIt, ch)))
    case CloseIt => Some((s.(open := s.open - {ch}), Put(PutUnlock, ch)))
    case PutUnlock => Some((s.(lock := None), Idle))
  }

  function ActClose(c: Config, s: Pool, i: nat, k: CloseStep): Option<(Pool, PC)> {
    match k
    case CloseLock => if s.lock.None? then Some((s.(lock := Some(i)), Close(ExamineClosed))) else None
    case ExamineClosed => Some((s, Close(if s.closed then UnlockAgain else Mark)))
    case Mark => Some((s.(closed := true), Close(Seal)))
    case Seal => Some((s.(sealed := true, panicked := s.panicked || s.sealed), Close(CloseUnlock)))
    case CloseUnlock => Some((s.(lock := None), Close(Drain)))
    case UnlockAgain => Some((s.(lock := None), Idle))
    case Drain =>
      if s.buffer != [] then Some((s.(buffer := s.buffer[1..]), Close(DrainCount(s.buffer[0]))))
      else if s.sealed then Some((s, Idle))
      else None
    case DrainCount(ch) => Some((s.(counter := s.counter - 1), Close(DrainClose(ch))))
    case DrainClose(ch) => Some((s.(open := s.open - {ch}), Close(Drain)))
  }

  function Act(c: Config, s: Pool, i: nat, pc: PC, ok: bool): Option<(Pool, PC)> {
    match pc
    case Idle => None
    case Lent(_) => None
    case Get(g) => ActGet(c, s, i, g, ok)
    case Put(p, ch) => ActPut(c, s, i, p, ch)
    case Close(k) => ActClose(c, s, i, k)
  }

  function Enter(pc: PC, call: Call): Option<PC> {
    match (pc, call)
    case (Idle, CallGet) => Some(Get(LookAtContext))
    case (Idle, CallClose) => Some(Close(CloseLock))
    case (Lent(ch), CallPut) => Some(Put(PutLock, ch))
    case _ => None
  }

  function RunNext(s: State, i: nat, r: Option<(Pool, PC)>): Option<State>
    requires i < |s.threads|
  {
    if r.None? then None else Some(State(r.value.0, s.threads[i := r.value.1]))
  }

  function Next(c: Config, s: State, e: Event): Option<State> {
    match e
    case Spawn => Some(s.(threads := s.threads + [Idle]))
    case Begin(i, call) =>
      if i < |s.threads| && Enter(s.threads[i], call).Some?
      then Some(s.(threads := s.threads[i := Enter(s.threads[i], call).value])) else None
    case Run(i, ok) => if i < |s.threads| then RunNext(s, i, Act(c, s.pool, i, s.threads[i], ok)) else None
    case Die(ch) =>
      if ch in s.pool.open then Some(s.(pool := s.pool.(open := s.pool.open - {ch}))) else None
  }

  // A run: the states passed through when the events of es happen one after the other.
  ghost predicate IsRun(c: Config, es: seq<Event>, run: seq<State>) {
    && |run| == |es| + 1
    && run[0] == Initial(c)
    && forall k :: 0 <= k < |es| ==> Next(c, run[k], es[k]) == Some(run[k + 1])
  }

  // ---------------------------------------------------------------- the counter

  // 1 when the goroutine accounts for one unit of currentPoolSize: it holds a counted
  // channel, or has removed one and has yet to count it out.
  function Weight(pc: PC): int {
    match pc
    case Idle => 0
    case Lent(_) => 1
    case Get(g) =>
      if g.Inspect? || g.DropDead? || g.UnlockAndLend? || g.InspectWaited? || g.DropWaited? then 1 else 0
    case Put(p, _) =>
      if p.PutLock? || p.Examine? || p.CountDown? || p.Send? || p.Overflow? then 1 else 0
    case Close(k) =>
      if k.DrainCount? then 1 else 0
  }

  // ---------------------------------------------------------------- invariants

  // Between Lock and Unlock of p.mu.
  predicate InCritical(pc: PC) {
    match pc
    case Idle => false
    case Lent(_) => false
    case Get(g) =>
      g.LookAtClosed? || g.LockedLook? || g.Open? || g.Confirm? || g.CountUp? || g.UnlockAndLend? || g.UnlockBad?
      || g.UnlockAndFail? || g.UnlockAndWait?
    case Put(p, _) => !p.PutLock?
    case Close(k) => k.ExamineClosed? || k.Mark? || k.Seal? || k.CloseUnlock? || k.UnlockAgain?
  }

  // Between the locked look at the counter and the increment.
  predicate Growing(pc: PC) {
    pc.Get? && (pc.get.Open? || pc.get.Confirm? || pc.get.CountUp?)
  }

  // Has seen closed == false in the critical section it is still in.
  predicate SawOpenPool(pc: PC) {
    Growing(pc) || pc == Get(LockedLook) || pc == Close(Mark) || (pc.Put? && pc.put.Send?)
  }

  predicate Draining(pc: PC) {
    pc.Close? && (pc.close.CloseUnlock? || pc.close.Drain? || pc.close.DrainCount? || pc.close.DrainClose?)
  }

  // The channel a goroutine is responsible for, if any.
  function Holds(pc: PC): Option<ChanId> {
    match pc
    case Idle => None
    case Lent(ch) => Some(ch)
    case Get(g) =>
      (match g
       case Inspect(ch) => Some(ch)
       case Confirm(ch) => Some(ch)
       case CountUp(ch) => Some(ch)
       case UnlockAndLend(ch) => Some(ch)
       case UnlockBad(ch) => Some(ch)
       case CloseBad(ch) => Some(ch)
       case InspectWaited(ch) => Some(ch)
       case _ => None)
    case Put(p, ch) => if p.PutUnlock? then None else Some(ch)
    case Close(k) =>
      (match k
       case DrainCount(ch) => Some(ch)
       case DrainClose(ch) => Some(ch)
       case _ => None)
  }

  function Holding(ch: ChanId): PC -> int {
    pc => if Holds(pc) == Some(ch) then 1 else 0
  }

  // In how many places an AMQP channel is: slots of the buffer plus goroutines.
  function Homes(s: State, ch: ChanId): int {
    multiset(s.pool.buffer)[ch] + Sum(Holding(ch), s.threads)
  }

  ghost predicate MutualExclusion(s: State) {
    && (forall i :: 0 <= i < |s.threads| ==> (InCritical(s.threads[i]) <==> s.pool.lock == Some(i)))
    && (s.pool.lock.Some? ==> s.pool.lock.value < |s.threads|)
  }

  ghost predicate CounterExact(s: State) {
    s.pool.counter == |s.pool.buffer| + Sum(Weight, s.threads)
  }

  ghost predicate CounterBounded(c: Config, s: State) {
    && s.pool.counter <= Max(c.size, c.max)
    && |s.pool.buffer| <= c.size
    && forall i :: 0 <= i < |s.threads| && Growing(s.threads[i]) ==> s.pool.counter < c.max
  }

  // What a goroutine at pc may rely on about the flags.
  predicate KnowsFlags(p: Pool, pc: PC) {
    && (SawOpenPool(pc) ==> !p.closed)
    && (pc == Close(Seal) ==> p.closed && !p.sealed)
    && (Draining(pc) ==> p.sealed)
  }

  ghost predicate Flags(s: State) {
    && !s.pool.panicked
    && (s.pool.sealed ==> s.pool.closed)
    && (s.pool.closed && !s.pool.sealed ==> exists i :: 0 <= i < |s.threads| && s.threads[i] == Close(Seal))
    && (forall i :: 0 <= i < |s.threads| ==> KnowsFlags(s.pool, s.threads[i]))
    && (s.pool.sealed && s.pool.buffer != [] ==> exists i :: 0 <= i < |s.threads| && Draining(s.threads[i]))
  }

  // Every AMQP channel has at most one home, and every open one has one.
  ghost predicate OneHome(s: State) {
    && (forall ch: ChanId :: Homes(s, ch) <= if ch < s.pool.next then 1 else 0)
    && (forall ch: ChanId :: ch in s.pool.open ==> Homes(s, ch) == 1)
  }

  ghost predicate Inv(c: Config, s: State) {
    && MutualExclusion(s)
    && CounterExact(s)
    && CounterBounded(c, s)
    && Flags(s)
    && OneHome(s)
  }

  // ---------------------------------------------------------------- what one action does, locally

  // p and pc are before the action of goroutine i, q and pc' after it.

  ghost predicate LocksWell(p: Pool, i: nat, pc: PC, q: Pool, pc': PC) {
    && (InCritical(pc') <==> q.lock == Some(i))
    && (q.lock == p.lock || (p.lock.None? && q.lock == Some(i)) || (p.lock == Some(i) && q.lock.None?))
  }

  ghost predicate CountsWell(p: Pool, pc: PC, q: Pool, pc': PC) {
    q.counter - |q.buffer| - Weight(pc') == p.counter - |p.buffer| - Weight(pc)
  }

  ghost predicate StaysInBounds(c: Config, p: Pool, pc: PC, q: Pool, pc': PC) {
    && (|p.buffer| <= c.size ==> |q.buffer| <= c.size)
    && (Growing(pc') ==> q.counter < c.max)
    && ((q.counter <= p.counter && q.counted == p.counted)
        || (pc.Get? && pc.get.CountUp? && q.counter == p.counter + 1))
  }

  ghost predicate SetsFlagsWell(p: Pool, pc: PC, q: Pool, pc': PC) {
    && KnowsFlags(q, pc') && (q.sealed ==> q.closed) && !q.panicked
    && (p.closed ==> q.closed) && (p.sealed ==> q.sealed)
    && (q.closed != p.closed ==> pc == Close(Mark) && pc' == Close(Seal) && q.sealed == p.sealed)
    && (q.sealed != p.sealed ==> pc == Close(Seal) && Draining(pc'))
    && (pc == Close(Seal) ==> q.sealed)
    && (Draining(pc) && !Draining(pc') ==> q.buffer == [])
    && (|q.buffer| > |p.buffer| ==> !p.closed)
  }

  // How one action moves AMQP channels around: one is taken from the head of the buffer,
  // opened, given back to the tail, closed (or known dead and let go), or nothing moves.
  ghost predicate Shifts(p: Pool, pc: PC, q: Pool, pc': PC) {
    if Holds(pc').Some? then
      var ch := Holds(pc').value;
      if Holds(pc).Some? then
        q.buffer == p.buffer && q.open == p.open && q.next == p.next && Holds(pc) == Some(ch)
      else
        || (p.buffer != [] && ch == p.buffer[0] && q.buffer == p.buffer[1..] && q.open == p.open && q.next == p.next)
        || (q.buffer == p.buffer && ch == p.next && q.next == p.next + 1 && q.open == p.open + {ch})
    else
      && q.next == p.next
      && if Holds(pc).Some? then
           || (q.buffer == p.buffer + [Holds(pc).value] && q.open == p.open)
           || (q.buffer == p.buffer && q.open <= p.open && p.open - q.open <= {Holds(pc).value}
               && Holds(pc).value !in q.open)
         else
           q.buffer == p.buffer && q.open == p.open
  }

  ghost predicate Behaves(c: Config, p: Pool, i: nat, pc: PC, q: Pool, pc': PC) {
    && LocksWell(p, i, pc, q, pc')
    && CountsWell(p, pc, q, pc')
    && StaysInBounds(c, p, pc, q, pc')
    && SetsFlagsWell(p, pc, q, pc')
    && Shifts(p, pc, q, pc')
  }

  // What goroutine i may rely on.
  ghost predicate Ready(c: Config, p: Pool, i: nat, pc: PC) {
    && (InCritical(pc) <==> p.lock == Some(i))
    && (Growing(pc) ==> p.counter < c.max)
    && KnowsFlags(p, pc) && (p.sealed ==> p.closed) && !p.panicked
  }

  // Each of the three methods, one action at a time.

  lemma GetLocksAndFlags(c: Config, p: Pool, i: nat, pc: PC, ok: bool, q: Pool, pc': PC)
    requires pc.Get? && Ready(c, p, i, pc) && Act(c, p, i, pc, ok) == Some((q, pc'))
    ensures LocksWell(p, i, pc, q, pc') && SetsFlagsWell(p, pc, q, pc')
  {
    match pc.get {
      case GetLock =>
      case LookAtClosed =>
      case LockedLook =>
      case Open =>
      case Confirm(_) =>
      case _ =>
    }
  }

  lemma GetCountsLight(c: Config, p: Pool, i: nat, pc: PC, ok: bool, q: Pool, pc': PC)
    requires pc.Get? && Act(c, p, i, pc, ok) == Some((q, pc')) && Weight(pc) == 0
    ensures CountsWell(p, pc, q, pc')
  {
  }

  lemma GetCountsHeavy(c: Config, p: Pool, i: nat, pc: PC, ok: bool, q: Pool, pc': PC)
    requires pc.Get? && Act(c, p, i, pc, ok) == Some((q, pc')) && Weight(pc) == 1
    ensures CountsWell(p, pc, q, pc')
  {
  }

  lemma GetCounts(c: Config, p: Pool, i: nat, pc: PC, ok: bool, q: Pool, pc': PC)
    requires pc.Get? && Act(c, p, i, pc, ok) == Some((q, pc'))
    ensures CountsWell(p, pc, q, pc')
  {
    if Weight(pc) == 0 {
      GetCountsLight(c, p, i, pc, ok, q, pc');
    } else {
      GetCountsHeavy(c, p, i, pc, ok, q, pc');
    }
  }

  lemma GetBounds(c: Config, p: Pool, i: nat, pc: PC, ok: bool, q: Pool, pc': PC)
    requires pc.Get? && Ready(c, p, i, pc) && Act(c, p, i, pc, ok) == Some((q, pc'))
    ensures StaysInBounds(c, p, pc, q, pc')
  {
  }

  lemma GetShiftsHeld(c: Config, p: Pool, i: nat, pc: PC, ok: bool, q: Pool, pc': PC)
    requires pc.Get? && Act(c, p, i, pc, ok) == Some((q, pc')) && Holds(pc).Some?
    ensures Shifts(p, pc, q, pc')
  {
  }

  lemma GetShiftsTaken(c: Config, p: Pool, i: nat, pc: PC, ok: bool, q: Pool, pc': PC)
    requires pc.Get? && Act(c, p, i, pc, ok) == Some((q, pc')) && Holds(pc).None? && Holds(pc').Some?
    ensures Shifts(p, pc, q, pc')
  {
  }

  lemma GetShiftsNothing(c: Config, p: Pool, i: nat, pc: PC, ok: bool, q: Pool, pc': PC)
    requires pc.Get? && Act(c, p, i, pc, ok) == Some((q, pc')) && Holds(pc).None? && Holds(pc').None?
    ensures Shifts(p, pc, q, pc')
  {
  }

  lemma GetShifts(c: Config, p: Pool, i: nat, pc: PC, ok: bool, q: Pool, pc': PC)
    requires pc.Get? && Act(c, p, i, pc, ok) == Some((q, pc'))
    ensures Shifts(p, pc, q, pc')
  {
    if Holds(pc).Some? {
      GetShiftsHeld(c, p, i, pc, ok, q, pc');
    } else if Holds(pc').Some? {
      GetShiftsTaken(c, p, i, pc, ok, q, pc');
    } else {
      GetShiftsNothing(c, p, i, pc, ok, q, pc');
    }
  }

  lemma GetBehaves(c: Config, p: Pool, i: nat, pc: PC, ok: bool, q: Pool, pc': PC)
    requires pc.Get? && Ready(c, p, i, pc) && Act(c, p, i, pc, ok) == Some((q, pc'))
    ensures Behaves(c, p, i, pc, q, pc')
  {
    GetLocksAndFlags(c, p, i, pc, ok, q, pc');
    GetCounts(c, p, i, pc, ok, q, pc');
    GetBounds(c, p, i, pc, ok, q, pc');
    GetShifts(c, p, i, pc, ok, q, pc');
  }

  lemma PutBehaves(c: Config, p: Pool, i: nat, pc: PC, ok: bool, q: Pool, pc': PC)
    requires pc.Put? && Ready(c, p, i, pc) && Act(c, p, i, pc, ok) == Some((q, pc'))
    ensures Behaves(c, p, i, pc, q, pc')
  {
  }

  lemma CloseBehaves(c: Config, p: Pool, i: nat, pc: PC, ok: bool, q: Pool, pc': PC)
    requires pc.Close? && Ready(c, p, i, pc) && Act(c, p, i, pc, ok) == Some((q, pc'))
    ensures Behaves(c, p, i, pc, q, pc')
  {
  }

  lemma EnterBehaves(c: Config, p: Pool, i: nat, pc: PC, call: Call, pc': PC)
    requires Ready(c, p, i, pc) && Enter(pc, call) == Some(pc')
    ensures Behaves(c, p, i, pc, p, pc')
  {
  }

  // ---------------------------------------------------------------- preservation

  lemma ExclusionKept(c: Config, s: State, i: nat, q: Pool, pc: PC)
    requires i < |s.threads| && Inv(c, s) && Behaves(c, s.pool, i, s.threads[i], q, pc)
    ensures MutualExclusion(State(q, s.threads[i := pc]))
  {
  }

  lemma CounterKept(c: Config, s: State, i: nat, q: Pool, pc: PC)
    requires i < |s.threads| && Inv(c, s) && Behaves(c, s.pool, i, s.threads[i], q, pc)
    ensures CounterExact(State(q, s.threads[i := pc]))
  {
    SumUpdate(Weight, s.threads, i, pc);
  }

  lemma BoundKept(c: Config, s: State, i: nat, q: Pool, pc: PC)
    requires i < |s.threads| && Inv(c, s) && Behaves(c, s.pool, i, s.threads[i], q, pc)
    ensures CounterBounded(c, State(q, s.threads[i := pc]))
  {
    assert Growing(s.threads[i]) ==> s.pool.counter < c.max;
    if s.threads[i].Get? && s.threads[i].get.CountUp? {
      assert s.pool.lock == Some(i);
    }
  }

  lemma FlagsKept(c: Config, s: State, i: nat, q: Pool, pc: PC)
    requires i < |s.threads| && Inv(c, s) && Behaves(c, s.pool, i, s.threads[i], q, pc)
    ensures Flags(State(q, s.threads[i := pc]))
  {
    var t := State(q, s.threads[i := pc]);
    assert InCritical(s.threads[i]) <==> s.pool.lock == Some(i);
    forall j | 0 <= j < |t.threads| ensures KnowsFlags(q, t.threads[j]) {
      assert InCritical(s.threads[j]) <==> s.pool.lock == Some(j);
      assert KnowsFlags(s.pool, s.threads[j]);
    }
    if q.closed && !q.sealed {
      if s.pool.closed {
        var j :| 0 <= j < |s.threads| && s.threads[j] == Close(Seal);
        assert t.threads[j] == Close(Seal);
      } else {
        assert t.threads[i] == Close(Seal);
      }
    }
    if q.sealed && q.buffer != [] {
      if s.pool.sealed {
        assert s.pool.buffer != [];
        var j :| 0 <= j < |s.threads| && Draining(s.threads[j]);
        assert Draining(t.threads[j]);
      } else {
        assert Draining(t.threads[i]);
      }
    }
  }

  lemma ShiftCounts(p: Pool, pc: PC, q: Pool, pc': PC, ch: ChanId)
    requires Shifts(p, pc, q, pc')
    ensures var before := multiset(p.buffer)[ch] + Holding(ch)(pc);
            var after := multiset(q.buffer)[ch] + Holding(ch)(pc');
            && p.next <= q.next
            && (after <= before || (after == before + 1 && ch == p.next < q.next))
            && (ch in q.open ==> (ch in p.open && after == before) || (ch == p.next && after == before + 1))
  {
    if p.buffer != [] { assert p.buffer == [p.buffer[0]] + p.buffer[1..]; }
  }

  lemma HomesKept(c: Config, s: State, i: nat, q: Pool, pc: PC)
    requires i < |s.threads| && Inv(c, s) && Behaves(c, s.pool, i, s.threads[i], q, pc)
    ensures OneHome(State(q, s.threads[i := pc]))
  {
    var t := State(q, s.threads[i := pc]);
    forall ch: ChanId
      ensures Homes(t, ch) <= if ch < q.next then 1 else 0
      ensures ch in q.open ==> Homes(t, ch) == 1
    {
      ShiftCounts(s.pool, s.threads[i], q, pc, ch);
      SumUpdate(Holding(ch), s.threads, i, pc);
      SumNonNegative(Holding(ch), s.threads);
      assert Homes(s, ch) <= if ch < s.pool.next then 1 else 0;
    }
  }

  lemma MoveKeeps(c: Config, s: State, i: nat, q: Pool, pc: PC)
    requires i < |s.threads| && Inv(c, s) && Behaves(c, s.pool, i, s.threads[i], q, pc)
    ensures Inv(c, State(q, s.threads[i := pc]))
  {
    ExclusionKept(c, s, i, q, pc);
    CounterKept(c, s, i, q, pc);
    BoundKept(c, s, i, q, pc);
    FlagsKept(c, s, i, q, pc);
    HomesKept(c, s, i, q, pc);
  }

  lemma ActBehaves(c: Config, p: Pool, i: nat, pc: PC, ok: bool, q: Pool, pc': PC)
    requires Ready(c, p, i, pc) && Act(c, p, i, pc, ok) == Some((q, pc'))
    ensures Behaves(c, p, i, pc, q, pc')
  {
    match pc
    case Get(_) => GetBehaves(c, p, i, pc, ok, q, pc');
    case Put(_, _) => PutBehaves(c, p, i, pc, ok, q, pc');
    case Close(_) => CloseBehaves(c, p, i, pc, ok, q, pc');
  }

  lemma IsReady(c: Config, s: State, i: nat)
    requires i < |s.threads| && Inv(c, s)
    ensures Ready(c, s.pool, i, s.threads[i])
  {
  }

  lemma SpawnFlags(s: State)
    requires Flags(s)
    ensures Flags(s.(threads := s.threads + [Idle]))
  {
    var ts := s.threads + [Idle];
    assert forall j :: 0 <= j < |s.threads| ==> ts[j] == s.threads[j];
  }

  lemma SpawnKeeps(c: Config, s: State)
    requires Inv(c, s)
    ensures Inv(c, s.(threads := s.threads + [Idle]))
  {
    var t := s.(threads := s.threads + [Idle]);
    SumAppend(Weight, s.threads, Idle);
    forall ch: ChanId ensures Homes(t, ch) == Homes(s, ch) {
      SumAppend(Holding(ch), s.threads, Idle);
    }
    SpawnFlags(s);
  }

  lemma ActKeeps(c: Config, s: State, i: nat, ok: bool, q: Pool, pc: PC)
    requires i < |s.threads| && Inv(c, s) && Act(c, s.pool, i, s.threads[i], ok) == Some((q, pc))
    ensures Inv(c, State(q, s.threads[i := pc]))
  {
    IsReady(c, s, i);
    ActBehaves(c, s.pool, i, s.threads[i], ok, q, pc);
    MoveKeeps(c, s, i, q, pc);
  }

  lemma EnterKeeps(c: Config, s: State, i: nat, call: Call, pc: PC)
    requires i < |s.threads| && Inv(c, s) && Enter(s.threads[i], call) == Some(pc)
    ensures Inv(c, s.(threads := s.threads[i := pc]))
  {
    IsReady(c, s, i);
    EnterBehaves(c, s.pool, i, s.threads[i], call, pc);
    MoveKeeps(c, s, i, s.pool, pc);
  }

  lemma DieKeeps(c: Config, s: State, ch: ChanId)
    requires Inv(c, s)
    ensures Inv(c, s.(pool := s.pool.(open := s.pool.open - {ch})))
  {
    var t := s.(pool := s.pool.(open := s.pool.open - {ch}));
    assert forall k: ChanId :: Homes(t, k) == Homes(s, k);
  }

  lemma StepKeeps(c: Config, s: State, e: Event, t: State)
    requires Inv(c, s) && Next(c, s, e) == Some(t)
    ensures Inv(c, t)
  {
    match e
    case Spawn => SpawnKeeps(c, s);
    case Begin(i, call) => EnterKeeps(c, s, i, call, t.threads[i]);
    case Run(i, ok) => ActKeeps(c, s, i, ok, t.pool, t.threads[i]);
    case Die(ch) => DieKeeps(c, s, ch);
  }

  lemma InitialHolds(c: Config)
    ensures Inv(c, Initial(c))
  {
    var s := Initial(c);
    forall ch: ChanId
      ensures Homes(s, ch) == if ch < c.size then 1 else 0
    {
      IotaOccurs(c.size, ch);
    }
  }

  lemma {:induction false} IotaOccurs(n: nat, ch: ChanId)
    ensures multiset(seq(n, i => i))[ch] == if ch < n then 1 else 0
  {
    if n > 0 {
      IotaOccurs(n - 1, ch);
      assert seq(n, i => i) == seq(n - 1, i => i) + [n - 1];
    } else {
      assert seq(n, i => i) == [];
    }
  }

  lemma {:induction false} RunKeeps(c: Config, es: seq<Event>, run: seq<State>, k: nat)
    requires IsRun(c, es, run) && k < |run|
    ensures Inv(c, run[k])
  {
    if k == 0 {
      InitialHolds(c);
    } else {
      RunKeeps(c, es, run, k - 1);
      StepKeeps(c, run[k - 1], es[k - 1], run[k]);
    }
  }

  // ---------------------------------------------------------------- theorems

  // Whatever the interleaving, currentPoolSize counts exactly the buffered channels, the
  // lent ones and the removed ones whose decrement is still to come; it never leaves
  // 0 .. max, the buffer never overflows, at most one goroutine is inside the mutex, and
  // nobody sends on, or closes again, the closed Go channel.
  lemma CounterIsExactAndBounded(c: Config, es: seq<Event>, run: seq<State>, k: nat)
    requires IsRun(c, es, run) && k < |run|
    ensures CounterExact(run[k]) && MutualExclusion(run[k])
    ensures 0 <= run[k].pool.counter <= Max(c.size, c.max)
    ensures |run[k].pool.buffer| <= c.size && !run[k].pool.panicked
  {
    RunKeeps(c, es, run, k);
    SumNonNegative(Weight, run[k].threads);
  }

  // No two goroutines ever have the same AMQP channel in hand, and none has one that is
  // in the buffer.
  lemma ChannelsAreNeverShared(c: Config, es: seq<Event>, run: seq<State>, k: nat, i: nat, j: nat)
    requires IsRun(c, es, run) && k < |run|
    requires i < j < |run[k].threads| && Holds(run[k].threads[i]).Some?
    ensures Holds(run[k].threads[i]) != Holds(run[k].threads[j])
    ensures Holds(run[k].threads[i]).value !in run[k].pool.buffer
  {
    var s, ch := run[k], Holds(run[k].threads[i]).value;
    RunKeeps(c, es, run, k);
    assert Homes(s, ch) <= 1;
    SumAtLeast(Holding(ch), s.threads, i);
    if Holds(s.threads[j]) == Some(ch) { SumAtLeastTwo(Holding(ch), s.threads, i, j); }
  }

  lemma ActAfterClose(c: Config, s: State, i: nat, ok: bool, q: Pool, pc: PC)
    requires i < |s.threads| && Inv(c, s) && s.pool.closed && Act(c, s.pool, i, s.threads[i], ok) == Some((q, pc))
    ensures q.closed && q.counter <= s.pool.counter && q.counted == s.pool.counted
  {
    IsReady(c, s, i);
    ActBehaves(c, s.pool, i, s.threads[i], ok, q, pc);
    assert !SawOpenPool(s.threads[i]);
  }

  lemma StepAfterClose(c: Config, s: State, e: Event, t: State)
    requires Inv(c, s) && s.pool.closed && Next(c, s, e) == Some(t)
    ensures t.pool.closed && t.pool.counter <= s.pool.counter && t.pool.counted == s.pool.counted
  {
    if e.Run? { ActAfterClose(c, s, e.i, e.ok, t.pool, t.threads[e.i]); }
  }

  // Once close has set its flag, no further channel is ever counted and the counter never
  // rises.
  lemma {:induction false} ClosedPoolOnlyShrinks(c: Config, es: seq<Event>, run: seq<State>, j: nat, k: nat)
    requires IsRun(c, es, run) && j <= k < |run| && run[j].pool.closed
    ensures run[k].pool.closed && run[k].pool.counter <= run[j].pool.counter
    ensures run[k].pool.counted == run[j].pool.counted
  {
    if j < k {
      ClosedPoolOnlyShrinks(c, es, run, j, k - 1);
      RunKeeps(c, es, run, k - 1);
      StepAfterClose(c, run[k - 1], es[k - 1], run[k]);
    }
  }

  // When the drain is over, every borrower has put its channel back and no get is under
  // way, the counter is 0 and every AMQP channel ever opened is closed.
  lemma TeardownLeavesNothing(c: Config, es: seq<Event>, run: seq<State>, k: nat)
    requires IsRun(c, es, run) && k < |run| && run[k].pool.sealed
    requires forall i :: 0 <= i < |run[k].threads| ==> run[k].threads[i] == Idle
    ensures run[k].pool.counter == 0 && run[k].pool.buffer == [] && run[k].pool.open == {}
  {
    var s := run[k];
    RunKeeps(c, es, run, k);
    SumZero(Weight, s.threads);
    forall ch | ch in s.pool.open ensures false {
      SumZero(Holding(ch), s.threads);
    }
  }

  // A goroutine that only a channel coming back, or its context, can move on.
  predicate Waiting(s: State, i: nat) {
    i < |s.threads| && s.threads[i] == Get(Wait) && s.pool.buffer == [] && !s.pool.sealed
  }

  // The pool never deadlocks: while contexts live and the broker answers, a goroutine
  // inside a method can act, or waits for a mutex whose holder can act, or is Waiting.
  lemma OnlyWaitersBlock(c: Config, es: seq<Event>, run: seq<State>, k: nat, i: nat)
    requires IsRun(c, es, run) && k < |run| && i < |run[k].threads|
    requires run[k].threads[i] != Idle && !run[k].threads[i].Lent?
    ensures var s := run[k];
            || Next(c, s, Run(i, true)).Some?
            || (s.pool.lock.Some? && s.pool.lock.value != i && Next(c, s, Run(s.pool.lock.value, true)).Some?)
            || Waiting(s, i)
  {
    var s := run[k];
    RunKeeps(c, es, run, k);
    assert KnowsFlags(s.pool, s.threads[i]);
    if s.pool.lock.Some? {
      var h := s.pool.lock.value;
      assert InCritical(s.threads[h]);
      InsideActs(c, s.pool, h, s.threads[h]);
    }
    if !InCritical(s.threads[i]) { OutsideActs(c, s.pool, i, s.threads[i]); }
  }

  lemma InsideActs(c: Config, p: Pool, i: nat, pc: PC)
    requires InCritical(pc)
    ensures Act(c, p, i, pc, true).Some?
  {
  }

  lemma OutsideActs(c: Config, p: Pool, i: nat, pc: PC)
    requires !InCritical(pc) && pc != Idle && !pc.Lent? && KnowsFlags(p, pc)
    ensures Act(c, p, i, pc, true).Some? || p.lock.Some? || (pc == Get(Wait) && p.buffer == [] && !p.sealed)
  {
  }
}
