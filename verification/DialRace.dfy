/**
Dialling against shutting down: connectionState of types.go and rabbitmqsdk.go:96-110,
699-709, 811-842, and the connections of the reconnect loop (reconnect.go:59-211), as a
small-step interleaving system.

A dial stores its network connection and then looks whether the context has ended; Shutdown
ends the context and then closes the connection that is stored.  Reconnect holds s.mu, and
closes s.conn before it dials.
*/
module DialRace {
  import opened Options

  type Conn = nat

  // connectionState.interrupt, from taking the lock to releasing it.
  datatype Interrupt = Locking | Reading | Closing(target: Conn) | Unlocking

  datatype PC =
    // reconnect, before it dials
    | WantMu
    | AtLoopHead                          // select on ctx.Done()
    | ClosingOld                          // s.conn.Close()
    // amqp091.DialConfig with the Dial function of NewSDK
    | Dialling                            // dialer.DialContext
    | SettingDeadline(c: Conn)
    | StoreLocking(c: Conn)               // connectionState.set
    | Storing(c: Conn)
    | StoreUnlocking(c: Conn)
    | Checking(c: Conn)                   // ctx.Err()
    | DialInterrupts(c: Conn, at: Interrupt)
    | ClosingOwn(c: Conn)                 // the interrupt reported an error
    | Handshaking(c: Conn)                // the rest of DialConfig
    // reconnect, after it has dialled
    | LookingAtContext(c: Conn)
    | OpeningChannel(c: Conn)
    | Discarding(c: Conn, leaves: bool)   // closing c on an error path: retry, or leave the loop
    | Keeping(c: Conn)                    // s.conn = conn
    | Restoring                           // QoS, topology, publisher pool
    | ClosingKept                         // closeReconnectResources
    | Consuming                           // startWithStoreQueuesFlag; its failure closes nothing
    | Pausing                             // waitReconnect
    | UnlockingMu
    // Shutdown
    | Cancelling                          // shutdownOnce
    | ShutdownInterrupts(at: Interrupt)
    | Done

  datatype Shared = Shared(
    cancelled: bool,
    interrupted: bool,                    // an interrupt of Shutdown is complete
    mu: Option<nat>,                      // s.mu
    lock: Option<nat>,                    // connectionState.mu
    stored: Option<Conn>,                 // connectionState.conn
    kept: Conn,                           // the network connection under s.conn
    dialled: nat,                         // network connections are numbered from 0
    closed: set<Conn>)

  datatype State = State(shared: Shared, threads: seq<PC>)

  datatype Event =
    | StartReconnect
    | CallShutdown
    | Cancel                              // the context NewSDK was given ends
    | Close(c: Conn)                      // any other Close of a network connection
    | Run(i: nat, ok: bool)               // the next action of a goroutine; ok is the answer it gets

  // What NewSDK returns: its own dial is over, and connection 0 is stored and kept.
  const INITIAL := State(Shared(false, false, None, None, Some(0), 0, 1, {}), [])

  function ActInterrupt(s: Shared, i: nat, at: Interrupt): Option<(Shared, Option<Interrupt>)> {
    match at
    case Locking => if s.lock.None? then Some((s.(lock := Some(i)), Some(Reading))) else None
    case Reading => Some((s, Some(if s.stored.Some? then Closing(s.stored.value) else Unlocking)))
    case Closing(target) => Some((Shut(s, target), Some(Unlocking)))
    case Unlocking => Some((s.(lock := None), None))
  }

  function Shut(s: Shared, c: Conn): Shared {
    s.(closed := s.closed + {c})
  }

  // The new shared state and where the goroutine goes; None when it is blocked.
  function Act(s: Shared, i: nat, pc: PC, ok: bool): Option<(Shared, PC)> {
    match pc
    case WantMu => if s.mu.None? then Some((s.(mu := Some(i)), AtLoopHead)) else None
    case AtLoopHead => Some((s, if s.cancelled then UnlockingMu else ClosingOld))
    case ClosingOld => Some((Shut(s, s.kept), Dialling))
    case Dialling => if ok then Some((s.(dialled := s.dialled + 1), SettingDeadline(s.dialled))) else Some((s, Pausing))
    case SettingDeadline(c) => Some((s, if ok then StoreLocking(c) else Discarding(c, false)))
    case StoreLocking(c) => if s.lock.None? then Some((s.(lock := Some(i)), Storing(c))) else None
    case Storing(c) => Some((s.(stored := Some(c)), StoreUnlocking(c)))
    case StoreUnlocking(c) => Some((s.(lock := None), Checking(c)))
    case Checking(c) => Some((s, if s.cancelled then DialInterrupts(c, Locking) else Handshaking(c)))
    case DialInterrupts(c, at) =>
      var r := ActInterrupt(s, i, at);
      if r.None? then None
      else if r.value.1.Some? then Some((r.value.0, DialInterrupts(c, r.value.1.value)))
      else Some((r.value.0, if ok then Handshaking(c) else ClosingOwn(c)))
    case ClosingOwn(c) => Some((Shut(s, c), Handshaking(c)))
    case Handshaking(c) => Some((s, if ok then LookingAtContext(c) else Discarding(c, false)))
    case LookingAtContext(c) => Some((s, if s.cancelled then Discarding(c, true) else OpeningChannel(c)))
    case OpeningChannel(c) => Some((s, if ok then Keeping(c) else Discarding(c, false)))
    case Discarding(c, leaves) => Some((Shut(s, c), if leaves then UnlockingMu else Pausing))
    case Keeping(c) => Some((s.(kept := c), Restoring))
    case Restoring => Some((s, if ok then Consuming else ClosingKept))
    case ClosingKept => Some((Shut(s, s.kept), Pausing))
    case Consuming => Some((s, if ok then UnlockingMu else Pausing))
    case Pausing => if ok then Some((s, AtLoopHead)) else if s.cancelled then Some((s, UnlockingMu)) else None
    case UnlockingMu => Some((s.(mu := None), Done))
    case Cancelling => Some((s.(cancelled := true), ShutdownInterrupts(Locking)))
    case ShutdownInterrupts(at) =>
      var r := ActInterrupt(s, i, at);
      if r.None? then None
      else if r.value.1.Some? then Some((r.value.0, ShutdownInterrupts(r.value.1.value)))
      else Some((r.value.0.(interrupted := true), Done))
    case Done => None
  }

  function Next(s: State, e: Event): Option<State> {
    match e
    case StartReconnect => Some(s.(threads := s.threads + [WantMu]))
    case CallShutdown => Some(s.(threads := s.threads + [Cancelling]))
    case Cancel => Some(s.(shared := s.shared.(cancelled := true)))
    case Close(c) => if c < s.shared.dialled then Some(s.(shared := Shut(s.shared, c))) else None
    case Run(i, ok) =>
      if i < |s.threads| && Act(s.shared, i, s.threads[i], ok).Some? then
        var r := Act(s.shared, i, s.threads[i], ok).value;
        Some(State(r.0, s.threads[i := r.1]))
      else None
  }

  ghost predicate IsRun(es: seq<Event>, run: seq<State>) {
    && |run| == |es| + 1
    && run[0] == INITIAL
    && forall k :: 0 <= k < |es| ==> Next(run[k], es[k]) == Some(run[k + 1])
  }

  // ---------------------------------------------------------------- the stored connection

  // Inside connectionState.mu.
  predicate HasLock(pc: PC) {
    match pc
    case Storing(_) => true
    case StoreUnlocking(_) => true
    case DialInterrupts(_, at) => !at.Locking?
    case ShutdownInterrupts(at) => !at.Locking?
    case _ => false
  }

  // Inside s.mu.
  predicate HasMu(pc: PC) {
    !pc.WantMu? && !pc.Cancelling? && !pc.ShutdownInterrupts? && !pc.Done?
  }

  // What an interrupt in progress is about to close.
  function Target(pc: PC): Option<Conn> {
    match pc
    case DialInterrupts(_, Closing(c)) => Some(c)
    case ShutdownInterrupts(Closing(c)) => Some(c)
    case _ => None
  }

  // The connection reconnect has been given by a dial and not yet kept or closed.
  function Owns(pc: PC): Option<Conn> {
    match pc
    case SettingDeadline(c) => Some(c)
    case StoreLocking(c) => Some(c)
    case Storing(c) => Some(c)
    case StoreUnlocking(c) => Some(c)
    case Checking(c) => Some(c)
    case DialInterrupts(c, _) => Some(c)
    case ClosingOwn(c) => Some(c)
    case Handshaking(c) => Some(c)
    case LookingAtContext(c) => Some(c)
    case OpeningChannel(c) => Some(c)
    case Discarding(c, _) => Some(c)
    case Keeping(c) => Some(c)
    case _ => None
  }

  // Has a connection that is not stored yet, or never will be.
  predicate BeforeStore(pc: PC) { pc.SettingDeadline? || pc.StoreLocking? || pc.Storing? || pc.Discarding? }

  // Will still close what is stored, if the context has ended.
  predicate WillLook(pc: PC) {
    match pc
    case StoreUnlocking(_) => true
    case Checking(_) => true
    case DialInterrupts(_, at) => !at.Unlocking?
    case ShutdownInterrupts(at) => !at.Unlocking?
    case _ => false
  }

  // What is stored has been closed, if there is anything.
  predicate StoredClosed(s: Shared) { s.stored.Some? ==> s.stored.value in s.closed }

  // What a goroutine may rely on.
  predicate Knows(s: Shared, i: nat, pc: PC) {
    && (HasMu(pc) <==> s.mu == Some(i))
    && (HasLock(pc) <==> s.lock == Some(i))
    && (Target(pc).Some? ==> s.stored == Target(pc))
    && (pc.ShutdownInterrupts? || pc.DialInterrupts? ==> s.cancelled)
    && (pc == ShutdownInterrupts(Unlocking) ==> StoredClosed(s))
  }

  // Once Shutdown has interrupted, a stored connection that is still open is somebody's business.
  ghost predicate Watched(s: State) {
    s.shared.interrupted && !StoredClosed(s.shared) ==> exists i :: 0 <= i < |s.threads| && WillLook(s.threads[i])
  }

  ghost predicate Inv(s: State) {
    && (forall i :: 0 <= i < |s.threads| ==> Knows(s.shared, i, s.threads[i]))
    && (s.shared.lock.Some? ==> s.shared.lock.value < |s.threads|)
    && (s.shared.mu.Some? ==> s.shared.mu.value < |s.threads|)
    && (s.shared.interrupted ==> s.shared.cancelled)
    && Watched(s)
  }

  // How a mutex may change hands at an action of goroutine i.
  predicate Passes(before: Option<nat>, i: nat, after: Option<nat>) {
    after == before || (before.None? && after == Some(i)) || (before == Some(i) && after.None?)
  }

  // What one action does.
  ghost predicate Behaves(s: Shared, i: nat, pc: PC, t: Shared, pc': PC) {
    && Knows(t, i, pc') && Passes(s.lock, i, t.lock) && Passes(s.mu, i, t.mu)
    && (t.stored == s.stored || (s.lock == t.lock == Some(i) && t.stored.Some? && pc'.StoreUnlocking?))
    && s.closed <= t.closed && (s.cancelled ==> t.cancelled)
    && (t.interrupted ==> s.interrupted || (s.cancelled && StoredClosed(t)))
    && (WillLook(pc) && s.cancelled ==> WillLook(pc') || StoredClosed(t))
  }

  lemma InterruptBehaves(s: Shared, i: nat, pc: PC, ok: bool, t: Shared, pc': PC)
    requires pc.DialInterrupts? || pc.ShutdownInterrupts?
    requires Knows(s, i, pc) && Act(s, i, pc, ok) == Some((t, pc'))
    ensures Behaves(s, i, pc, t, pc')
  {
  }

  lemma ActBehaves(s: Shared, i: nat, pc: PC, ok: bool, t: Shared, pc': PC)
    requires Knows(s, i, pc) && Act(s, i, pc, ok) == Some((t, pc'))
    ensures Behaves(s, i, pc, t, pc')
  {
    if pc.DialInterrupts? || pc.ShutdownInterrupts? { InterruptBehaves(s, i, pc, ok, t, pc'); }
  }

  lemma BehavesKeeps(s: State, i: nat, t: Shared, pc: PC)
    requires Inv(s) && i < |s.threads| && Behaves(s.shared, i, s.threads[i], t, pc)
    ensures Inv(State(t, s.threads[i := pc]))
  {
    var after := s.threads[i := pc];
    forall j | 0 <= j < |after| ensures Knows(t, j, after[j]) {
      assert Knows(s.shared, j, s.threads[j]);
    }
    if t.interrupted && !StoredClosed(t) {
      if t.stored == s.shared.stored {
        var j :| 0 <= j < |s.threads| && WillLook(s.threads[j]);
        assert WillLook(after[j]);
      } else {
        assert WillLook(after[i]);
      }
    }
  }

  lemma StepKeeps(s: State, e: Event, t: State)
    requires Inv(s) && Next(s, e) == Some(t)
    ensures Inv(t)
  {
    match e
    case Run(i, ok) =>
      assert Knows(s.shared, i, s.threads[i]);
      ActBehaves(s.shared, i, s.threads[i], ok, t.shared, t.threads[i]);
      BehavesKeeps(s, i, t.shared, t.threads[i]);
    case _ =>
      EnvironmentKeeps(s, e, t);
  }

  lemma EnvironmentKeeps(s: State, e: Event, t: State)
    requires Inv(s) && Next(s, e) == Some(t) && !e.Run?
    ensures Inv(t)
  {
    forall j | 0 <= j < |t.threads| ensures Knows(t.shared, j, t.threads[j]) {
      assert j < |s.threads| ==> Knows(s.shared, j, s.threads[j]);
    }
    if t.shared.interrupted && !StoredClosed(t.shared) {
      var j :| 0 <= j < |s.threads| && WillLook(s.threads[j]);
      assert WillLook(t.threads[j]);
    }
  }

  // ---------------------------------------------------------------- every connection

  predicate IsOpen(s: Shared, c: Conn) { c < s.dialled && c !in s.closed }

  // Between two dials, only the connection under s.conn can be open, and it is the stored one.
  ghost predicate OnlyKeptOpen(s: Shared) {
    forall c: Conn :: IsOpen(s, c) ==> c == s.kept && s.stored == Some(c)
  }

  // Which connections can be open when reconnect is at pc.
  ghost predicate Tidy(s: Shared, pc: PC) {
    if Owns(pc).Some? then
      && (forall c: Conn :: IsOpen(s, c) ==> Owns(pc) == Some(c))
      && (BeforeStore(pc) || s.stored == Owns(pc))
    else if pc.Dialling? then forall c: Conn :: !IsOpen(s, c)
    else OnlyKeptOpen(s)
  }

  ghost predicate AllTidy(s: State) {
    && (s.shared.mu.None? ==> OnlyKeptOpen(s.shared))
    && forall i :: 0 <= i < |s.threads| && HasMu(s.threads[i]) ==> Tidy(s.shared, s.threads[i])
  }

  // Goroutines outside s.mu leave the connections alone, except that they may close one.
  predicate OnlyCloses(s: Shared, t: Shared) {
    t.stored == s.stored && t.kept == s.kept && t.dialled == s.dialled && s.closed <= t.closed
  }

  lemma ActIsTidy(s: Shared, i: nat, pc: PC, ok: bool, t: Shared, pc': PC)
    requires HasMu(pc) && Tidy(s, pc) && Act(s, i, pc, ok) == Some((t, pc'))
    ensures if HasMu(pc') then Tidy(t, pc') else OnlyKeptOpen(t)
  {
    if pc.Dialling? {
      assert forall c: Conn :: IsOpen(t, c) ==> c == s.dialled || IsOpen(s, c);
    } else {
      assert forall c: Conn :: IsOpen(t, c) ==> IsOpen(s, c);
    }
  }

  lemma OutsiderOnlyCloses(s: Shared, i: nat, pc: PC, ok: bool, t: Shared, pc': PC)
    requires !HasMu(pc) && Act(s, i, pc, ok) == Some((t, pc'))
    ensures OnlyCloses(s, t) && (HasMu(pc') ==> s.mu.None? && !Owns(pc').Some? && !pc'.Dialling?)
  {
  }

  lemma ClosingStaysTidy(s: Shared, t: Shared, pc: PC)
    requires OnlyCloses(s, t)
    ensures Tidy(s, pc) ==> Tidy(t, pc)
    ensures OnlyKeptOpen(s) ==> OnlyKeptOpen(t)
  {
    assert forall c: Conn :: IsOpen(t, c) ==> IsOpen(s, c);
  }

  lemma RunStaysTidy(s: State, i: nat, ok: bool, t: State)
    requires Inv(s) && AllTidy(s) && Next(s, Run(i, ok)) == Some(t) && Inv(t)
    ensures AllTidy(t)
  {
    assert Knows(s.shared, i, s.threads[i]) && Knows(t.shared, i, t.threads[i]);
    if HasMu(s.threads[i]) {
      ActIsTidy(s.shared, i, s.threads[i], ok, t.shared, t.threads[i]);
    } else {
      OutsiderOnlyCloses(s.shared, i, s.threads[i], ok, t.shared, t.threads[i]);
      ClosingStaysTidy(s.shared, t.shared, t.threads[i]);
    }
    forall j | 0 <= j < |t.threads| && HasMu(t.threads[j]) ensures Tidy(t.shared, t.threads[j]) {
      assert Knows(t.shared, j, t.threads[j]) && Knows(s.shared, j, s.threads[j]);
      if j != i { ClosingStaysTidy(s.shared, t.shared, t.threads[j]); }
    }
  }

  lemma StepStaysTidy(s: State, e: Event, t: State)
    requires Inv(s) && AllTidy(s) && Next(s, e) == Some(t) && Inv(t)
    ensures AllTidy(t)
  {
    if e.Run? {
      RunStaysTidy(s, e.i, e.ok, t);
    } else {
      ClosingStaysTidy(s.shared, t.shared, Done);
      forall i | 0 <= i < |t.threads| && HasMu(t.threads[i]) ensures Tidy(t.shared, t.threads[i]) {
        ClosingStaysTidy(s.shared, t.shared, t.threads[i]);
      }
    }
  }

  lemma {:induction false} RunKeeps(es: seq<Event>, run: seq<State>, k: nat)
    requires IsRun(es, run) && k < |run|
    ensures Inv(run[k]) && AllTidy(run[k])
  {
    if k > 0 {
      RunKeeps(es, run, k - 1);
      StepKeeps(run[k - 1], es[k - 1], run[k]);
      StepStaysTidy(run[k - 1], es[k - 1], run[k]);
    }
  }

  // ---------------------------------------------------------------- theorems

  // At most one goroutine is in the reconnect loop, and so at most one dial is under way.
  lemma OneDialAtATime(es: seq<Event>, run: seq<State>, k: nat, i: nat, j: nat)
    requires IsRun(es, run) && k < |run| && i < |run[k].threads| && j < |run[k].threads|
    requires HasMu(run[k].threads[i]) && HasMu(run[k].threads[j])
    ensures i == j
  {
    RunKeeps(es, run, k);
    assert Knows(run[k].shared, i, run[k].threads[i]) && Knows(run[k].shared, j, run[k].threads[j]);
  }

  // However reconnects, Shutdowns and the end of the context interleave, there is never more
  // than one open connection.
  lemma OneConnectionAtMost(es: seq<Event>, run: seq<State>, k: nat, c: Conn, d: Conn)
    requires IsRun(es, run) && k < |run| && IsOpen(run[k].shared, c) && IsOpen(run[k].shared, d)
    ensures c == d
  {
    RunKeeps(es, run, k);
    var s := run[k];
    if s.shared.mu.Some? {
      var i := s.shared.mu.value;
      assert Knows(s.shared, i, s.threads[i]) && Tidy(s.shared, s.threads[i]);
    }
  }

  predicate AllDone(s: State) {
    forall i :: 0 <= i < |s.threads| ==> s.threads[i].Done?
  }

  // When a Shutdown and all reconnects have finished, the stored network connection is closed ...
  lemma StoredConnectionIsClosed(es: seq<Event>, run: seq<State>, k: nat)
    requires IsRun(es, run) && k < |run| && run[k].shared.interrupted && AllDone(run[k])
    ensures run[k].shared.stored.Some? ==> run[k].shared.stored.value in run[k].shared.closed
  {
    RunKeeps(es, run, k);
  }

  // ... and so is every other connection ever dialled.
  lemma NothingEscapes(es: seq<Event>, run: seq<State>, k: nat, c: Conn)
    requires IsRun(es, run) && k < |run| && run[k].shared.interrupted && AllDone(run[k])
    requires c < run[k].shared.dialled
    ensures c in run[k].shared.closed
  {
    RunKeeps(es, run, k);
    var s := run[k];
    assert s.shared.mu.Some? ==> Knows(s.shared, s.shared.mu.value, s.threads[s.shared.mu.value]);
    assert IsOpen(s.shared, c) ==> s.shared.stored == Some(c);
  }

  // ---------------------------------------------------------------- rounds that fail, and one that does not

  // A round that fails after its dial, but for the consumers, leaves no connection open.
  lemma FailedRoundCloses(es: seq<Event>, run: seq<State>, k: nat, i: nat, c: Conn)
    requires IsRun(es, run) && k < |es| && es[k].Run? && es[k].i == i < |run[k].threads|
    requires run[k].threads[i].ClosingOld? || run[k].threads[i].Discarding? || run[k].threads[i].ClosingKept?
    ensures !IsOpen(run[k + 1].shared, c)
  {
    RunKeeps(es, run, k);
    var s, t := run[k], run[k + 1];
    assert Tidy(s.shared, s.threads[i]);
    assert IsOpen(t.shared, c) ==> IsOpen(s.shared, c);
  }

  lemma OneMore(es: seq<Event>, run: seq<State>, e: Event, t: State)
    requires IsRun(es, run) && Next(run[|es|], e) == Some(t)
    ensures IsRun(es + [e], run + [t])
  {
  }

  // The only goroutine makes its next action, and that succeeds.
  lemma Goes(es: seq<Event>, run: seq<State>) returns (es': seq<Event>, run': seq<State>)
    requires IsRun(es, run) && |run[|es|].threads| == 1
    requires Act(run[|es|].shared, 0, run[|es|].threads[0], true).Some?
    ensures IsRun(es', run')
    ensures var r := Act(run[|es|].shared, 0, run[|es|].threads[0], true).value; run'[|es'|] == State(r.0, [r.1])
  {
    var s := run[|es|];
    var r := Act(s.shared, 0, s.threads[0], true).value;
    assert s.threads[0 := r.1] == [r.1];
    OneMore(es, run, Run(0, true), State(r.0, [r.1]));
    es', run' := es + [Run(0, true)], run + [State(r.0, [r.1])];
  }

  // Up to the dialled connection: the old one is closed.
  lemma ReconnectDials() returns (es: seq<Event>, run: seq<State>)
    ensures IsRun(es, run)
    ensures run[|es|] == State(Shared(false, false, Some(0), None, Some(0), 0, 2, {0}), [SettingDeadline(1)])
  {
    assert INITIAL.threads + [WantMu] == [WantMu];
    es, run := [StartReconnect], [INITIAL, State(INITIAL.shared, [WantMu])];
    es, run := Goes(es, run);
    es, run := Goes(es, run);
    es, run := Goes(es, run);
    es, run := Goes(es, run);
  }

  // ... which is stored before anybody looks at the context ...
  lemma ReconnectStores() returns (es: seq<Event>, run: seq<State>)
    ensures IsRun(es, run)
    ensures run[|es|] == State(Shared(false, false, Some(0), None, Some(1), 0, 2, {0}), [Handshaking(1)])
  {
    es, run := ReconnectDials();
    es, run := Goes(es, run);
    es, run := Goes(es, run);
    es, run := Goes(es, run);
    es, run := Goes(es, run);
    es, run := Goes(es, run);
  }

  // A reconnect that meets no trouble gets through: the new connection is open, stored and
  // kept, and s.mu is free again.
  lemma ReconnectSucceeds() returns (es: seq<Event>, run: seq<State>)
    ensures IsRun(es, run)
    ensures run[|es|] == State(Shared(false, false, None, None, Some(1), 1, 2, {0}), [Done])
  {
    es, run := ReconnectStores();
    es, run := Goes(es, run);
    es, run := Goes(es, run);
    es, run := Goes(es, run);
    es, run := Goes(es, run);
    es, run := Goes(es, run);
    es, run := Goes(es, run);
    es, run := Goes(es, run);
  }

  // ---------------------------------------------------------------- the end of the context

  // Has looked at the context for the last time before it dials.
  predicate PastLook(pc: PC) { pc.ClosingOld? || pc.Dialling? }

  // Has looked at the context after its dial.
  predicate LookedAgain(pc: PC) { pc.OpeningChannel? || pc.Keeping? }

  // What one action does once the context has ended.
  predicate EndsOrderly(s: Shared, pc: PC, t: Shared, pc': PC) {
    && t.cancelled
    && t.dialled + (if PastLook(pc') then 1 else 0) <= s.dialled + (if PastLook(pc) then 1 else 0)
    && (!LookedAgain(pc) ==> !LookedAgain(pc') && t.kept == s.kept)
    && (!HasMu(pc) ==> t.dialled == s.dialled && t.kept == s.kept)
  }

  lemma ActEndsOrderly(s: Shared, i: nat, pc: PC, ok: bool, t: Shared, pc': PC)
    requires s.cancelled && Act(s, i, pc, ok) == Some((t, pc'))
    ensures EndsOrderly(s, pc, t, pc')
  {
  }

  // What the goroutine inside s.mu is at, if there is one.
  function Inside(s: State): Option<PC> {
    if s.shared.mu.Some? && s.shared.mu.value < |s.threads| then Some(s.threads[s.shared.mu.value]) else None
  }

  predicate AboutToDial(s: State) { Inside(s).Some? && PastLook(Inside(s).value) }

  predicate AboutToKeep(s: State) { Inside(s).Some? && LookedAgain(Inside(s).value) }

  function Dials(s: State): nat { s.shared.dialled + if AboutToDial(s) then 1 else 0 }

  // Whoever else acts, the one inside s.mu stays where it is.
  predicate Relays(s: State, i: nat, t: State) {
    && i < |s.threads| && i < |t.threads|
    && Inside(t) == (if HasMu(t.threads[i]) then Some(t.threads[i])
                     else if HasMu(s.threads[i]) then None else Inside(s))
    && (HasMu(s.threads[i]) ==> Inside(s) == Some(s.threads[i]))
    && (HasMu(t.threads[i]) && !HasMu(s.threads[i]) ==> Inside(s) == None && t.threads[i] == AtLoopHead)
  }

  lemma RunRelays(s: State, i: nat, ok: bool, t: State)
    requires Inv(s) && Next(s, Run(i, ok)) == Some(t) && Inv(t)
    ensures Relays(s, i, t)
  {
    assert Knows(s.shared, i, s.threads[i]) && Knows(t.shared, i, t.threads[i]);
  }

  lemma RelaysOrderly(s: State, i: nat, t: State)
    requires Relays(s, i, t) && EndsOrderly(s.shared, s.threads[i], t.shared, t.threads[i])
    ensures t.shared.cancelled && Dials(t) <= Dials(s)
    ensures !AboutToKeep(s) ==> !AboutToKeep(t) && t.shared.kept == s.shared.kept
  {
  }

  lemma StepAfterEnd(es: seq<Event>, run: seq<State>, k: nat)
    requires IsRun(es, run) && k < |es| && run[k].shared.cancelled
    ensures run[k + 1].shared.cancelled && Dials(run[k + 1]) <= Dials(run[k])
    ensures !AboutToKeep(run[k]) ==> !AboutToKeep(run[k + 1]) && run[k + 1].shared.kept == run[k].shared.kept
  {
    RunKeeps(es, run, k);
    RunKeeps(es, run, k + 1);
    var s, e, t := run[k], es[k], run[k + 1];
    if e.Run? {
      RunRelays(s, e.i, e.ok, t);
      ActEndsOrderly(s.shared, e.i, s.threads[e.i], e.ok, t.shared, t.threads[e.i]);
      RelaysOrderly(s, e.i, t);
    }
  }

  lemma {:induction false} AfterTheEnd(es: seq<Event>, run: seq<State>, j: nat, k: nat)
    requires IsRun(es, run) && j <= k < |run| && run[j].shared.cancelled
    ensures run[k].shared.cancelled && Dials(run[k]) <= Dials(run[j])
    ensures !AboutToKeep(run[j]) ==> !AboutToKeep(run[k]) && run[k].shared.kept == run[j].shared.kept
  {
    if j < k {
      AfterTheEnd(es, run, j, k - 1);
      StepAfterEnd(es, run, k - 1);
    }
  }

  // After the context has ended, by Shutdown or by itself, at most one more connection is
  // dialled, by all goroutines together and however long they run; and none if nobody was
  // past the look at the context that each round begins with.
  lemma OneMoreDialAtMost(es: seq<Event>, run: seq<State>, j: nat, k: nat)
    requires IsRun(es, run) && j <= k < |run| && run[j].shared.cancelled
    ensures run[k].shared.dialled <= run[j].shared.dialled + 1
    ensures !AboutToDial(run[j]) ==> run[k].shared.dialled <= run[j].shared.dialled
  {
    AfterTheEnd(es, run, j, k);
  }

  // Nor is a connection kept any more, unless its goroutine had looked again by then.
  lemma NothingIsKeptAfterwards(es: seq<Event>, run: seq<State>, j: nat, k: nat)
    requires IsRun(es, run) && j <= k < |run| && run[j].shared.cancelled && !AboutToKeep(run[j])
    ensures run[k].shared.kept == run[j].shared.kept
  {
    AfterTheEnd(es, run, j, k);
  }
}
