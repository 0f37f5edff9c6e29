/**
The goroutines an SDK counts in its wait group, and the calls of Shutdown that wait for them,
as a small-step interleaving system (reconnect.go, rabbitmqsdk.go:171, 398-407, 699-745).

Recovery is a baton: the monitor of a connection hands it to a reconnect goroutine, which
hands it to the monitor of the next connection.
*/
module Lifecycle {
  import opened Options
  import opened Sums

  datatype PC =
    // monitorConnection's select; a flag is false once that notify channel has been set to nil
    | Monitor(channelOpen: bool, connOpen: bool)
    | HandleCloseError(err: bool)     // err: the error is not nil
    | CompareAndSwap
    | SpawnReconnect                  // the swap succeeded
    | Trying                          // reconnect, until it starts the new monitor or gives up
    | Unlocking(handedOver: bool)     // deferred mu.Unlock
    | Clearing(handedOver: bool)      // deferred reconnecting.Store(false), the last to run
    | Worker
    | Publishing                      // a caller inside publishAMQP; not in the wait group
    | Returning                       // about to leave the wait group
    | Shutdown(step: StopStep)
    | Gone

  datatype StopStep = EnterShutdownOnce | CancelContext | LeaveShutdownOnce | Waiting | EnterCloseOnce | Closing

  datatype Once = Fresh | Running | Finished

  datatype Shared = Shared(
    cancelled: bool, reconnecting: bool, wg: int,
    shutdownOnce: Once, closeOnce: Once,
    closings: nat)                    // how often the resources have been closed

  datatype State = State(shared: Shared, threads: seq<PC>)

  // What the select of a monitor receives.
  datatype Signal = ContextDone | Value(onChannel: bool, err: bool) | Closed(onChannel: bool)

  // What comes of the reconnect loop.
  datatype Outcome = StartsWorker | HandsOver | GivesUp

  datatype Event =
    | Cancel                          // the context NewSDK was given ends
    | See(i: nat, signal: Signal)     // a monitor
    | Attempt(i: nat, outcome: Outcome)   // a reconnect goroutine
    | Do(i: nat)                      // the next action of any other goroutine
    | UserStart                       // Start starts a worker
    | UserPublish                     // a Publish call begins
    | UserShutdown

  const INITIAL := State(Shared(false, false, 1, Fresh, Fresh, 0), [Monitor(true, true)])

  // The monitor goes where it goes, or does not receive that signal now.
  function Select(cancelled: bool, pc: PC, signal: Signal): Option<PC>
    requires pc.Monitor?
  {
    match signal
    case ContextDone => if cancelled then Some(Returning) else None
    case Value(onChannel, err) =>
      if (if onChannel then pc.channelOpen else pc.connOpen) then Some(HandleCloseError(err)) else None
    case Closed(onChannel) =>
      if !(if onChannel then pc.channelOpen else pc.connOpen) then None
      else if (if onChannel then pc.connOpen else pc.channelOpen) then
        Some(if onChannel then Monitor(false, true) else Monitor(true, false))
      else Some(Returning)
  }

  // New shared state, own next step, goroutines spawned.
  function Act(s: Shared, pc: PC): Option<(Shared, PC, seq<PC>)> {
    match pc
    case HandleCloseError(err) => Some((s, if err then CompareAndSwap else Returning, []))
    case CompareAndSwap =>
      if s.reconnecting then Some((s, Returning, []))
      else Some((s.(reconnecting := true), SpawnReconnect, []))
    case SpawnReconnect => Some((s.(wg := s.wg + 1), Returning, [Trying]))
    case Unlocking(handedOver) => Some((s, Clearing(handedOver), []))
    case Clearing(_) => Some((s.(reconnecting := false), Returning, []))
    case Worker => Some((s, Returning, []))
    case Publishing => Some((s, Gone, []))
    case Returning => Some((s.(wg := s.wg - 1), Gone, []))
    case Shutdown(step) =>
      (match step
       case EnterShutdownOnce =>
         if s.shutdownOnce.Running? then None
         else if s.shutdownOnce.Finished? then Some((s, Shutdown(Waiting), []))
         else Some((s.(shutdownOnce := Running), Shutdown(CancelContext), []))
       case CancelContext => Some((s.(cancelled := true), Shutdown(LeaveShutdownOnce), []))
       case LeaveShutdownOnce => Some((s.(shutdownOnce := Finished), Shutdown(Waiting), []))
       case Waiting => if s.wg == 0 then Some((s, Shutdown(EnterCloseOnce), [])) else None
       case EnterCloseOnce =>
         if s.closeOnce.Running? then None
         else if s.closeOnce.Finished? then Some((s, Gone, []))
         else Some((s.(closeOnce := Running), Shutdown(Closing), []))
       case Closing => Some((s.(closeOnce := Finished, closings := s.closings + 1), Gone, [])))
    case _ => None
  }

  function Next(s: State, e: Event): Option<State> {
    match e
    case Cancel => Some(s.(shared := s.shared.(cancelled := true)))
    case See(i, signal) =>
      if i < |s.threads| && s.threads[i].Monitor? && Select(s.shared.cancelled, s.threads[i], signal).Some? then
        Some(s.(threads := s.threads[i := Select(s.shared.cancelled, s.threads[i], signal).value]))
      else None
    case Attempt(i, outcome) =>
      if i < |s.threads| && s.threads[i].Trying? && (outcome.GivesUp? ==> s.shared.cancelled) then
        Some(match outcome
             case StartsWorker => State(s.shared.(wg := s.shared.wg + 1), s.threads + [Worker])
             case HandsOver =>
               State(s.shared.(wg := s.shared.wg + 1), s.threads[i := Unlocking(true)] + [Monitor(true, true)])
             case GivesUp => s.(threads := s.threads[i := Unlocking(false)]))
      else None
    case Do(i) =>
      if i < |s.threads| && Act(s.shared, s.threads[i]).Some? then
        var r := Act(s.shared, s.threads[i]).value;
        Some(State(r.0, s.threads[i := r.1] + r.2))
      else None
    case UserStart => Some(State(s.shared.(wg := s.shared.wg + 1), s.threads + [Worker]))
    case UserPublish => Some(s.(threads := s.threads + [Publishing]))
    case UserShutdown => Some(s.(threads := s.threads + [Shutdown(EnterShutdownOnce)]))
  }

  ghost predicate IsRun(es: seq<Event>, run: seq<State>) {
    && |run| == |es| + 1
    && run[0] == INITIAL
    && forall k :: 0 <= k < |es| ==> Next(run[k], es[k]) == Some(run[k + 1])
  }

  // ---------------------------------------------------------------- what is counted

  // Goroutines that will still see to the connection's recovery.
  predicate HasBaton(pc: PC) {
    pc.Monitor? || pc.HandleCloseError? || pc.CompareAndSwap? || pc.SpawnReconnect? || pc.Trying?
  }

  // From the swap that sets `reconnecting` to the store that clears it.
  predicate Recovering(pc: PC) {
    pc.SpawnReconnect? || pc.Trying? || pc.Unlocking? || pc.Clearing?
  }

  // Has handed over and has not cleared the flag yet.
  predicate InWindow(pc: PC) { pc == Unlocking(true) || pc == Clearing(true) }

  predicate InWaitGroup(pc: PC) { !pc.Publishing? && !pc.Shutdown? && !pc.Gone? }

  function BatonOne(pc: PC): int { One(HasBaton(pc)) }
  function RecoveringOne(pc: PC): int { One(Recovering(pc)) }
  function GaveUpOne(pc: PC): int { One(pc == Unlocking(false) || pc == Clearing(false)) }
  function CountedOne(pc: PC): int { One(InWaitGroup(pc)) }

  function Batons(s: State): int { Sum(BatonOne, s.threads) }

  // The ways to end recovery for good.
  ghost predicate Ends(s: State, e: Event) {
    match e
    case See(i, signal) =>
      // the context has ended, or the second notify channel was closed without an error
      && i < |s.threads| && s.threads[i].Monitor?
      && (signal.ContextDone? || (signal.Closed? && !(s.threads[i].channelOpen && s.threads[i].connOpen)))
    case Attempt(i, outcome) => outcome.GivesUp?
    case Do(i) =>
      && i < |s.threads|
      && (s.threads[i] == HandleCloseError(false)
          // an error so soon that the previous reconnect goroutine has not cleared the flag
          || (s.threads[i] == CompareAndSwap && exists j :: 0 <= j < |s.threads| && InWindow(s.threads[j])))
    case _ => false
  }

  // What the three counts do together.  When recovery is over, no reconnect goroutine is in
  // its loop or beyond the hand-over and in need of a monitor.
  ghost predicate Inv(s: State) {
    && 0 <= Batons(s) <= 1
    && Sum(RecoveringOne, s.threads) == One(s.shared.reconnecting)
    && (Batons(s) == 1 ==> Sum(GaveUpOne, s.threads) == 0)
    && s.shared.wg == Sum(CountedOne, s.threads)
  }

  // One goroutine moves and spawns others.
  lemma Change(f: PC -> int, threads: seq<PC>, i: nat, pc: PC, spawned: seq<PC>)
    requires i < |threads|
    ensures Sum(f, threads[i := pc] + spawned) == Sum(f, threads) - f(threads[i]) + f(pc) + Sum(f, spawned)
  {
    SumUpdate(f, threads, i, pc);
    SumConcat(f, threads[i := pc], spawned);
  }

  // What the goroutine does to the counts, given what it spawns.
  ghost predicate Moves(s: State, i: nat, pc: PC, spawned: seq<PC>, t: State) {
    && i < |s.threads| && |spawned| <= 1 && t.threads == s.threads[i := pc] + spawned
    && t.shared.wg == s.shared.wg - CountedOne(s.threads[i]) + CountedOne(pc) + Sum(CountedOne, spawned)
    && One(t.shared.reconnecting)
        == One(s.shared.reconnecting) - RecoveringOne(s.threads[i]) + RecoveringOne(pc) + Sum(RecoveringOne, spawned)
  }

  lemma MovesCounts(s: State, i: nat, pc: PC, spawned: seq<PC>, t: State)
    requires Inv(s) && Moves(s, i, pc, spawned, t)
    ensures Batons(t) == Batons(s) - BatonOne(s.threads[i]) + BatonOne(pc) + Sum(BatonOne, spawned)
    ensures Sum(RecoveringOne, t.threads) == One(t.shared.reconnecting)
    ensures Sum(GaveUpOne, t.threads)
        == Sum(GaveUpOne, s.threads) - GaveUpOne(s.threads[i]) + GaveUpOne(pc) + Sum(GaveUpOne, spawned)
    ensures t.shared.wg == Sum(CountedOne, t.threads)
  {
    Change(BatonOne, s.threads, i, pc, spawned);
    Change(RecoveringOne, s.threads, i, pc, spawned);
    Change(GaveUpOne, s.threads, i, pc, spawned);
    Change(CountedOne, s.threads, i, pc, spawned);
  }

  lemma Appends(s: State, pc: PC, t: State)
    requires Inv(s) && t.threads == s.threads + [pc] && t.shared.reconnecting == s.shared.reconnecting
    requires pc.Worker? || pc.Publishing? || pc.Shutdown?
    requires t.shared.wg == s.shared.wg + CountedOne(pc)
    ensures Inv(t) && Batons(t) == Batons(s)
  {
    SumAppend(BatonOne, s.threads, pc);
    SumAppend(RecoveringOne, s.threads, pc);
    SumAppend(GaveUpOne, s.threads, pc);
    SumAppend(CountedOne, s.threads, pc);
  }

  // Where a goroutine goes and what it spawns at one event.
  function Moved(s: State, e: Event): Option<(nat, PC, seq<PC>)>
    requires Next(s, e).Some?
  {
    match e
    case See(i, signal) => Some((i, Select(s.shared.cancelled, s.threads[i], signal).value, []))
    case Attempt(i, outcome) =>
      (match outcome
       case StartsWorker => Some((i, Trying, [Worker]))
       case HandsOver => Some((i, Unlocking(true), [Monitor(true, true)]))
       case GivesUp => Some((i, Unlocking(false), [])))
    case Do(i) => var r := Act(s.shared, s.threads[i]).value; Some((i, r.1, r.2))
    case _ => None
  }

  lemma SpawnCounts(spawned: seq<PC>)
    requires |spawned| <= 1
    ensures Sum(BatonOne, spawned) == if spawned == [] then 0 else BatonOne(spawned[0])
    ensures Sum(RecoveringOne, spawned) == if spawned == [] then 0 else RecoveringOne(spawned[0])
    ensures Sum(GaveUpOne, spawned) == if spawned == [] then 0 else GaveUpOne(spawned[0])
    ensures Sum(CountedOne, spawned) == if spawned == [] then 0 else CountedOne(spawned[0])
  {
    if spawned != [] {
      assert spawned == [spawned[0]];
      SumOne(BatonOne, spawned[0]);
      SumOne(RecoveringOne, spawned[0]);
      SumOne(GaveUpOne, spawned[0]);
      SumOne(CountedOne, spawned[0]);
    }
  }

  // A goroutine that finds the flag set, or clears it, is not alone in its account.
  lemma FlagIsSomebodys(s: State, i: nat)
    requires Inv(s) && i < |s.threads| && s.threads[i].Clearing?
    ensures s.shared.reconnecting
  {
    SumAtLeast(RecoveringOne, s.threads, i);
  }

  // A failed swap: the flag belongs to a reconnect goroutine that has handed over.
  lemma FailedSwapIsInWindow(s: State, i: nat)
    requires Inv(s) && i < |s.threads| && s.threads[i].CompareAndSwap?
    ensures s.shared.reconnecting <==> exists j :: 0 <= j < |s.threads| && InWindow(s.threads[j])
  {
    SumAtLeast(BatonOne, s.threads, i);
    if s.shared.reconnecting {
      var j := SumPositive(RecoveringOne, s.threads);
      if HasBaton(s.threads[j]) {
        SumAtLeastTwo(BatonOne, s.threads, if i < j then i else j, if i < j then j else i);
      }
      SumAtLeast(GaveUpOne, s.threads, j);
      assert InWindow(s.threads[j]);
    }
    forall j | 0 <= j < |s.threads| && InWindow(s.threads[j]) ensures s.shared.reconnecting {
      SumAtLeast(RecoveringOne, s.threads, j);
    }
  }

  function OneOf(f: PC -> int, spawned: seq<PC>): int
    requires |spawned| <= 1
  {
    if spawned == [] then 0 else f(spawned[0])
  }

  // What one move does to the baton and to the goroutines that gave up.
  ghost predicate Local(s: State, e: Event, i: nat, pc: PC, spawned: seq<PC>) {
    && i < |s.threads| && |spawned| <= 1
    && BatonOne(pc) + OneOf(BatonOne, spawned) == BatonOne(s.threads[i]) - One(Ends(s, e))
    && GaveUpOne(pc) + OneOf(GaveUpOne, spawned) <= GaveUpOne(s.threads[i]) + One(Ends(s, e))
  }

  lemma StopIsOrderly(s: State, i: nat, t: State)
    requires Next(s, Do(i)) == Some(t) && s.threads[i].Shutdown?
    ensures var r := Act(s.shared, s.threads[i]).value; Moves(s, i, r.1, r.2, t) && Local(s, Do(i), i, r.1, r.2)
  {
    SpawnCounts([]);
  }

  lemma SwapIsOrderly(s: State, i: nat, t: State)
    requires Inv(s) && Next(s, Do(i)) == Some(t) && s.threads[i].CompareAndSwap?
    ensures var r := Act(s.shared, s.threads[i]).value; Moves(s, i, r.1, r.2, t) && Local(s, Do(i), i, r.1, r.2)
  {
    SpawnCounts([]);
    FailedSwapIsInWindow(s, i);
  }

  lemma OtherIsOrderly(s: State, i: nat, t: State)
    requires Inv(s) && Next(s, Do(i)) == Some(t) && !s.threads[i].CompareAndSwap? && !s.threads[i].Shutdown?
    ensures var r := Act(s.shared, s.threads[i]).value; Moves(s, i, r.1, r.2, t) && Local(s, Do(i), i, r.1, r.2)
  {
    SpawnCounts(Act(s.shared, s.threads[i]).value.2);
    if s.threads[i].Clearing? { FlagIsSomebodys(s, i); }
  }

  lemma ActIsOrderly(s: State, i: nat, t: State)
    requires Inv(s) && Next(s, Do(i)) == Some(t)
    ensures var r := Act(s.shared, s.threads[i]).value; Moves(s, i, r.1, r.2, t) && Local(s, Do(i), i, r.1, r.2)
  {
    if s.threads[i].CompareAndSwap? {
      SwapIsOrderly(s, i, t);
    } else if s.threads[i].Shutdown? {
      StopIsOrderly(s, i, t);
    } else {
      OtherIsOrderly(s, i, t);
    }
  }

  lemma SignalIsOrderly(s: State, i: nat, signal: Signal, t: State)
    requires Next(s, See(i, signal)) == Some(t)
    ensures var pc := Select(s.shared.cancelled, s.threads[i], signal).value;
      Moves(s, i, pc, [], t) && Local(s, See(i, signal), i, pc, [])
  {
    SpawnCounts([]);
  }

  lemma AttemptIsOrderly(s: State, i: nat, outcome: Outcome, t: State)
    requires Next(s, Attempt(i, outcome)) == Some(t)
    ensures var (j, pc, spawned) := Moved(s, Attempt(i, outcome)).value;
      i == j && Moves(s, i, pc, spawned, t) && Local(s, Attempt(i, outcome), i, pc, spawned)
  {
    SpawnCounts(Moved(s, Attempt(i, outcome)).value.2);
    assert outcome.StartsWorker? ==> s.threads[i := Trying] == s.threads;
  }

  lemma MoveIsOrderly(s: State, e: Event, t: State)
    requires Inv(s) && Next(s, e) == Some(t) && Moved(s, e).Some?
    ensures var (i, pc, spawned) := Moved(s, e).value; Moves(s, i, pc, spawned, t) && Local(s, e, i, pc, spawned)
  {
    match e
    case See(i, signal) => SignalIsOrderly(s, i, signal, t);
    case Attempt(i, outcome) => AttemptIsOrderly(s, i, outcome, t);
    case Do(i) => ActIsOrderly(s, i, t);
    case _ =>
  }

  lemma MoveKeeps(s: State, e: Event, t: State)
    requires Inv(s) && Next(s, e) == Some(t) && Moved(s, e).Some?
    ensures Inv(t) && Batons(t) == Batons(s) - One(Ends(s, e))
  {
    var (i, pc, spawned) := Moved(s, e).value;
    MoveIsOrderly(s, e, t);
    LocalKeeps(s, e, i, pc, spawned, t);
  }

  lemma LocalKeeps(s: State, e: Event, i: nat, pc: PC, spawned: seq<PC>, t: State)
    requires Inv(s) && Moves(s, i, pc, spawned, t) && Local(s, e, i, pc, spawned)
    ensures Inv(t) && Batons(t) == Batons(s) - One(Ends(s, e))
  {
    MovesCounts(s, i, pc, spawned, t);
    SpawnCounts(spawned);
    SumNonNegative(BatonOne, t.threads);
    SumNonNegative(GaveUpOne, t.threads);
  }

  lemma StepKeeps(s: State, e: Event, t: State)
    requires Inv(s) && Next(s, e) == Some(t)
    ensures Inv(t) && Batons(t) == Batons(s) - One(Ends(s, e))
  {
    match e
    case Cancel =>
    case UserStart => Appends(s, Worker, t);
    case UserPublish => Appends(s, Publishing, t);
    case UserShutdown => Appends(s, Shutdown(EnterShutdownOnce), t);
    case _ => MoveKeeps(s, e, t);
  }

  lemma InitialHolds()
    ensures Inv(INITIAL) && Batons(INITIAL) == 1
  {
    SumOne(BatonOne, Monitor(true, true));
    SumOne(RecoveringOne, Monitor(true, true));
    SumOne(GaveUpOne, Monitor(true, true));
    SumOne(CountedOne, Monitor(true, true));
  }

  lemma {:induction false} RunKeeps(es: seq<Event>, run: seq<State>, k: nat)
    requires IsRun(es, run) && k < |run|
    ensures Inv(run[k])
  {
    if k == 0 {
      InitialHolds();
    } else {
      RunKeeps(es, run, k - 1);
      StepKeeps(run[k - 1], es[k - 1], run[k]);
    }
  }

  // ---------------------------------------------------------------- theorems on recovery

  // At any time there is at most one goroutine with the baton; there is none exactly when
  // one of the four ends has happened.
  lemma {:induction false} RecoveryEndsExactly(es: seq<Event>, run: seq<State>, k: nat)
    requires IsRun(es, run) && k < |run|
    ensures Batons(run[k]) == 0 || Batons(run[k]) == 1
    ensures Batons(run[k]) == 0 <==> exists j :: 0 <= j < k && Ends(run[j], es[j])
  {
    if k == 0 {
      InitialHolds();
    } else {
      RecoveryEndsExactly(es, run, k - 1);
      RunKeeps(es, run, k - 1);
      StepKeeps(run[k - 1], es[k - 1], run[k]);
    }
  }

  // `reconnecting` is set exactly while one goroutine is between its swap and its store, and
  // there is never more than one.
  lemma FlagMeansRecovering(es: seq<Event>, run: seq<State>, k: nat)
    requires IsRun(es, run) && k < |run|
    ensures run[k].shared.reconnecting <==> exists i :: 0 <= i < |run[k].threads| && Recovering(run[k].threads[i])
    ensures forall i, j :: 0 <= i < j < |run[k].threads| ==>
        !(Recovering(run[k].threads[i]) && Recovering(run[k].threads[j]))
  {
    RunKeeps(es, run, k);
    var s := run[k];
    if s.shared.reconnecting {
      var i := SumPositive(RecoveringOne, s.threads);
      assert Recovering(s.threads[i]);
    }
    forall i | 0 <= i < |s.threads| && Recovering(s.threads[i]) ensures s.shared.reconnecting {
      SumAtLeast(RecoveringOne, s.threads, i);
    }
    forall i, j | 0 <= i < j < |s.threads| ensures !(Recovering(s.threads[i]) && Recovering(s.threads[j])) {
      SumAtLeastTwo(RecoveringOne, s.threads, i, j);
    }
  }

  // The fourth end does happen, with no cancellation, no graceful close and no nil error: a
  // second error right after a successful reconnect, and nobody will reconnect again.
  lemma WindowIsReachable() returns (es: seq<Event>, run: seq<State>)
    ensures IsRun(es, run) && Batons(run[|es|]) == 0 && !run[|es|].shared.cancelled
    ensures forall e :: e in es ==> !e.Cancel? && !e.UserShutdown?
    ensures forall k :: 0 <= k < |es| && es[k].See? ==> es[k].signal == Value(true, true)
    ensures Ends(run[|es| - 1], es[|es| - 1])
    ensures es[|es| - 1].Do? && run[|es| - 1].threads[es[|es| - 1].i].CompareAndSwap?
  {
    es := [See(0, Value(true, true)), Do(0), Do(0), Do(0), Attempt(1, HandsOver),
           See(2, Value(true, true)), Do(2), Do(2)];
    var s1 := Next(INITIAL, es[0]).value;
    var s2 := Next(s1, es[1]).value;
    var s3 := Next(s2, es[2]).value;
    var s4 := Next(s3, es[3]).value;
    assert s4.threads == [Returning, Trying];
    var s5 := Next(s4, es[4]).value;
    assert s5.threads == [Returning, Unlocking(true), Monitor(true, true)];
    var s6 := Next(s5, es[5]).value;
    var s7 := Next(s6, es[6]).value;
    var s8 := Next(s7, es[7]).value;
    run := [INITIAL, s1, s2, s3, s4, s5, s6, s7, s8];
    assert IsRun(es, run);
    RunKeeps(es, run, 7);
    assert InWindow(s7.threads[1]);
    assert Ends(run[7], es[7]);
    RecoveryEndsExactly(es, run, 8);
  }

  // ---------------------------------------------------------------- what a monitor listens to

  // One of its notify channels has been closed before.
  ghost predicate SeenClosed(es: seq<Event>, k: nat, i: nat, onChannel: bool)
    requires k <= |es|
  {
    exists j :: 0 <= j < k && es[j] == See(i, Closed(onChannel))
  }

  lemma NoSignalBefore(es: seq<Event>, run: seq<State>, j: nat, k: nat, i: nat)
    requires IsRun(es, run) && j < |es| && j <= k < |run| && es[j].See? && es[j].i == i
    ensures i < |run[j].threads| <= |run[k].threads|
  {
    assert Next(run[j], es[j]) == Some(run[j + 1]);
    ThreadsStay(es, run, j, k);
  }

  lemma {:induction false} ThreadsStay(es: seq<Event>, run: seq<State>, j: nat, k: nat)
    requires IsRun(es, run) && j <= k < |run|
    ensures |run[j].threads| <= |run[k].threads|
  {
    if j < k {
      ThreadsStay(es, run, j, k - 1);
      assert Next(run[k - 1], es[k - 1]) == Some(run[k]);
    }
  }

  // A monitor listens to a notify channel exactly until it has seen it closed, and to one of
  // the two at least.
  lemma {:induction false} ListensExactly(es: seq<Event>, run: seq<State>, k: nat, i: nat)
    requires IsRun(es, run) && k < |run| && i < |run[k].threads| && run[k].threads[i].Monitor?
    ensures run[k].threads[i].channelOpen <==> !SeenClosed(es, k, i, true)
    ensures run[k].threads[i].connOpen <==> !SeenClosed(es, k, i, false)
    ensures run[k].threads[i].channelOpen || run[k].threads[i].connOpen
  {
    if k > 0 {
      var s, e, t := run[k - 1], es[k - 1], run[k];
      assert Next(s, e) == Some(t);
      if i < |s.threads| {
        assert s.threads[i].Monitor?;
        ListensExactly(es, run, k - 1, i);
        SeenOneMore(es, k, i, true);
        SeenOneMore(es, k, i, false);
      } else {
        forall j | 0 <= j < k && es[j].See? && es[j].i == i ensures false { NoSignalBefore(es, run, j, k - 1, i); }
      }
    }
  }

  lemma SeenOneMore(es: seq<Event>, k: nat, i: nat, onChannel: bool)
    requires 0 < k <= |es|
    ensures SeenClosed(es, k, i, onChannel) <==>
              SeenClosed(es, k - 1, i, onChannel) || es[k - 1] == See(i, Closed(onChannel))
  {
  }

  // So an error is received on a notify channel, and goes to handleCloseError, exactly as
  // long as that channel has not been closed, whatever has become of the other one; and the
  // closing of both, in either order, is what makes a monitor return without one.
  lemma ErrorsAreHeardExactly(es: seq<Event>, run: seq<State>, k: nat, i: nat, onChannel: bool, err: bool)
    requires IsRun(es, run) && k < |run| && i < |run[k].threads| && run[k].threads[i].Monitor?
    ensures Next(run[k], See(i, Value(onChannel, err))).Some? <==> !SeenClosed(es, k, i, onChannel)
    ensures !SeenClosed(es, k, i, onChannel) ==>
              Next(run[k], See(i, Value(onChannel, err))).value.threads[i] == HandleCloseError(err)
    ensures !SeenClosed(es, k, i, onChannel) ==>
              (Next(run[k], See(i, Closed(onChannel))).value.threads[i] == Returning
               <==> SeenClosed(es, k, i, !onChannel))
  {
    ListensExactly(es, run, k, i);
  }

  // ---------------------------------------------------------------- shutting down

  predicate PastWaiting(pc: PC) { pc == Shutdown(EnterCloseOnce) || pc == Shutdown(Closing) }

  function ClosingOne(pc: PC): int { One(pc == Shutdown(Closing)) }

  ghost predicate Orderly(s: State) {
    && (forall i :: 0 <= i < |s.threads| && (PastWaiting(s.threads[i]) || s.threads[i] == Shutdown(Waiting)) ==>
        s.shared.shutdownOnce.Finished?)
    && s.shared.closings + Sum(ClosingOne, s.threads) == One(!s.shared.closeOnce.Fresh?)
    && (s.shared.closeOnce.Finished? ==> s.shared.closings == 1)
    && (!s.shared.closeOnce.Fresh? ==> s.shared.shutdownOnce.Finished?)
  }

  // Somebody has found the wait group empty.
  ghost predicate SawEmpty(s: State) {
    !s.shared.closeOnce.Fresh? || exists i :: 0 <= i < |s.threads| && PastWaiting(s.threads[i])
  }

  ghost predicate Quiet(s: State) {
    SawEmpty(s) ==> s.shared.wg == 0
  }

  // No goroutine of the wait group is left.
  predicate NobodyCounted(s: State) {
    forall i :: 0 <= i < |s.threads| ==> !InWaitGroup(s.threads[i])
  }

  lemma EmptyMeansNobody(s: State)
    requires Inv(s) && s.shared.wg == 0
    ensures NobodyCounted(s)
  {
    forall i | 0 <= i < |s.threads| ensures !InWaitGroup(s.threads[i]) { SumAtLeast(CountedOne, s.threads, i); }
  }

  // What one move does to the two Once values, to the count of closings and to the wait group.
  ghost predicate OnceLocal(s: Shared, pc: PC, t: Shared, pc': PC, spawned: seq<PC>) {
    && (s.shutdownOnce.Finished? ==> t.shutdownOnce.Finished?)
    && (PastWaiting(pc') || pc' == Shutdown(Waiting) ==>
        t.shutdownOnce.Finished? || PastWaiting(pc) || pc == Shutdown(Waiting))
    && t.closings - s.closings + ClosingOne(pc') - ClosingOne(pc) == One(!t.closeOnce.Fresh?) - One(!s.closeOnce.Fresh?)
    && (t.closeOnce.Finished? ==> s.closeOnce.Finished? || pc == Shutdown(Closing))
    && t.closings == s.closings + One(pc == Shutdown(Closing))
    && (!t.closeOnce.Fresh? ==> !s.closeOnce.Fresh? || PastWaiting(pc))
    && (PastWaiting(pc') ==> PastWaiting(pc) || (pc == Shutdown(Waiting) && s.wg == 0))
    && (!InWaitGroup(pc) ==> spawned == [] && t.wg == s.wg)
    && (forall j :: 0 <= j < |spawned| ==> InWaitGroup(spawned[j]))
  }

  lemma StopIsOnceLocal(s: Shared, step: StopStep)
    requires Act(s, Shutdown(step)).Some? && (step.Closing? ==> !s.closeOnce.Fresh?)
    ensures var r := Act(s, Shutdown(step)).value; OnceLocal(s, Shutdown(step), r.0, r.1, r.2)
  {
  }

  lemma ActIsOnceLocal(s: Shared, pc: PC)
    requires Act(s, pc).Some? && !pc.Shutdown?
    ensures var r := Act(s, pc).value; OnceLocal(s, pc, r.0, r.1, r.2)
  {
  }

  lemma MoveIsOnceLocal(s: State, e: Event, t: State)
    requires Orderly(s) && Next(s, e) == Some(t) && Moved(s, e).Some?
    ensures var (i, pc, spawned) := Moved(s, e).value;
      && OnceLocal(s.shared, s.threads[i], t.shared, pc, spawned) && |spawned| <= 1
      && t.threads == s.threads[i := pc] + spawned
  {
    match e
    case Do(i) =>
      if s.threads[i].Shutdown? {
        SumAtLeast(ClosingOne, s.threads, i);
        SumNonNegative(ClosingOne, s.threads);
        StopIsOnceLocal(s.shared, s.threads[i].step);
      } else {
        ActIsOnceLocal(s.shared, s.threads[i]);
      }
    case Attempt(i, outcome) =>
      assert outcome.StartsWorker? ==> s.threads[i := Trying] == s.threads;
    case _ =>
  }

  lemma OnceLocalKeeps(s: State, i: nat, pc: PC, spawned: seq<PC>, t: State)
    requires Orderly(s) && i < |s.threads| && OnceLocal(s.shared, s.threads[i], t.shared, pc, spawned)
    requires t.threads == s.threads[i := pc] + spawned && |spawned| <= 1
    ensures Orderly(t)
  {
    Change(ClosingOne, s.threads, i, pc, spawned);
    SumZero(ClosingOne, spawned);
    SumNonNegative(ClosingOne, t.threads);
    SumAtLeast(ClosingOne, s.threads, i);
  }

  lemma StepKeepsOrderly(s: State, e: Event, t: State)
    requires Orderly(s) && Next(s, e) == Some(t)
    ensures Orderly(t)
  {
    if Moved(s, e).Some? {
      var (i, pc, spawned) := Moved(s, e).value;
      MoveIsOnceLocal(s, e, t);
      OnceLocalKeeps(s, i, pc, spawned, t);
    } else if e.UserStart? {
      SumAppend(ClosingOne, s.threads, Worker);
    } else if e.UserPublish? {
      SumAppend(ClosingOne, s.threads, Publishing);
    } else if e.UserShutdown? {
      SumAppend(ClosingOne, s.threads, Shutdown(EnterShutdownOnce));
    }
  }

  // Once the wait group has been seen empty, only goroutines outside it move.
  lemma OnceLocalKeepsQuiet(s: State, i: nat, pc: PC, spawned: seq<PC>, t: State)
    requires Inv(s) && Orderly(s) && Quiet(s) && i < |s.threads|
    requires OnceLocal(s.shared, s.threads[i], t.shared, pc, spawned)
    requires t.threads == s.threads[i := pc] + spawned
    ensures Quiet(t)
  {
    if s.shared.wg == 0 { EmptyMeansNobody(s); }
  }

  lemma StepKeepsQuiet(s: State, e: Event, t: State)
    requires Inv(s) && Orderly(s) && Quiet(s) && Next(s, e) == Some(t)
    requires e.UserStart? ==> !SawEmpty(s)
    ensures Quiet(t)
  {
    if Moved(s, e).Some? {
      var (i, pc, spawned) := Moved(s, e).value;
      MoveIsOnceLocal(s, e, t);
      OnceLocalKeepsQuiet(s, i, pc, spawned, t);
    }
  }

  // No worker is started once the wait group has been seen empty.
  ghost predicate NoStartWhenEmpty(es: seq<Event>, run: seq<State>)
    requires |run| == |es| + 1
  {
    forall k :: 0 <= k < |es| && es[k].UserStart? ==> !SawEmpty(run[k])
  }

  lemma {:induction false} RunIsOrderly(es: seq<Event>, run: seq<State>, k: nat)
    requires IsRun(es, run) && k < |run|
    ensures Orderly(run[k])
  {
    if k == 0 {
      SumOne(ClosingOne, Monitor(true, true));
    } else {
      RunIsOrderly(es, run, k - 1);
      StepKeepsOrderly(run[k - 1], es[k - 1], run[k]);
    }
  }

  lemma {:induction false} RunIsQuiet(es: seq<Event>, run: seq<State>, k: nat)
    requires IsRun(es, run) && k < |run| && NoStartWhenEmpty(es, run)
    ensures Quiet(run[k])
  {
    if k > 0 {
      RunIsQuiet(es, run, k - 1);
      RunKeeps(es, run, k - 1);
      RunIsOrderly(es, run, k - 1);
      StepKeepsQuiet(run[k - 1], es[k - 1], run[k]);
    }
  }

  // ---------------------------------------------------------------- theorems on shutting down

  // However many Shutdown calls race, with each other and with the end of the context: the
  // resources are closed at most once.
  lemma ClosedAtMostOnce(es: seq<Event>, run: seq<State>, k: nat)
    requires IsRun(es, run) && k < |run|
    ensures run[k].shared.closings <= 1
  {
    RunIsOrderly(es, run, k);
    SumNonNegative(ClosingOne, run[k].threads);
  }

  // Whether no counted goroutine is left whenever the resources are being closed, have been
  // closed, or are about to be.
  ghost predicate ClosesOnNobody(run: seq<State>) {
    forall k :: 0 <= k < |run| && SawEmpty(run[k]) ==> NobodyCounted(run[k])
  }

  // A run does so if and only if no Start starts a worker after a Shutdown has found the wait
  // group empty.
  lemma ClosesOnNobodyExactly(es: seq<Event>, run: seq<State>)
    requires IsRun(es, run)
    ensures ClosesOnNobody(run) <==> NoStartWhenEmpty(es, run)
  {
    if NoStartWhenEmpty(es, run) {
      forall k | 0 <= k < |run| && SawEmpty(run[k]) ensures NobodyCounted(run[k]) {
        RunIsQuiet(es, run, k);
        RunKeeps(es, run, k);
        EmptyMeansNobody(run[k]);
      }
    } else {
      var k :| 0 <= k < |es| && es[k].UserStart? && SawEmpty(run[k]);
      StartIsSeen(run[k], run[k + 1]);
    }
  }

  lemma StartIsSeen(s: State, t: State)
    requires SawEmpty(s) && Next(s, UserStart) == Some(t)
    ensures SawEmpty(t) && !NobodyCounted(t)
  {
    assert t.threads[|s.threads|] == Worker;
    if s.shared.closeOnce.Fresh? {
      var i :| 0 <= i < |s.threads| && PastWaiting(s.threads[i]);
      assert PastWaiting(t.threads[i]);
    }
  }

  // So a caller is safe who starts nothing once Shutdown has been called.
  lemma NoStartAfterShutdownSuffices(es: seq<Event>, run: seq<State>)
    requires IsRun(es, run)
    requires forall k :: 0 <= k < |es| && es[k].UserStart? ==> run[k].shared.shutdownOnce.Fresh?
    ensures ClosesOnNobody(run)
  {
    forall k | 0 <= k < |es| && es[k].UserStart? ensures !SawEmpty(run[k]) { RunIsOrderly(es, run, k); }
    ClosesOnNobodyExactly(es, run);
  }

  lemma OneMore(es: seq<Event>, run: seq<State>, e: Event, t: State)
    requires IsRun(es, run) && Next(run[|es|], e) == Some(t)
    ensures IsRun(es + [e], run + [t])
  {
  }

  // Shutdown is called, and the monitor returns.
  lemma AShutdown() returns (es: seq<Event>, run: seq<State>)
    ensures IsRun(es, run) && forall e :: e in es ==> !e.UserStart?
    ensures run[|es|] == State(Shared(true, false, 0, Finished, Fresh, 0), [Gone, Shutdown(Waiting)])
  {
    es := [UserShutdown, Do(1), Do(1), Do(1)];
    var s1 := Next(INITIAL, es[0]).value;
    var s2 := Next(s1, es[1]).value;
    var s3 := Next(s2, es[2]).value;
    var s4 := Next(s3, es[3]).value;
    assert s4.threads == [Monitor(true, true), Shutdown(Waiting)];
    run := [INITIAL, s1, s2, s3, s4];
    assert IsRun(es, run);
    var s5 := Next(s4, See(0, ContextDone)).value;
    assert s5.threads == [Returning, Shutdown(Waiting)];
    OneMore(es, run, See(0, ContextDone), s5);
    es, run := es + [See(0, ContextDone)], run + [s5];
    var s6 := Next(s5, Do(0)).value;
    assert s6.threads == [Gone, Shutdown(Waiting)];
    OneMore(es, run, Do(0), s6);
    es, run := es + [Do(0)], run + [s6];
  }

  lemma LateStartIsClosedUnder() returns (es: seq<Event>, run: seq<State>)
    ensures IsRun(es, run) && SawEmpty(run[|es|]) && Worker in run[|es|].threads
  {
    es, run := AShutdown();
    var s7 := Next(run[|es|], Do(1)).value;
    assert s7.threads == [Gone, Shutdown(EnterCloseOnce)];
    OneMore(es, run, Do(1), s7);
    es, run := es + [Do(1)], run + [s7];
    var s8 := Next(s7, UserStart).value;
    assert s8.threads == [Gone, Shutdown(EnterCloseOnce), Worker];
    OneMore(es, run, UserStart, s8);
    es, run := es + [UserStart], run + [s8];
    assert PastWaiting(run[|es|].threads[1]);
  }

  // Publishers are not counted: Shutdown waits for none of them, and closes the pool and the
  // connection under one that is under way.
  lemma PublisherIsClosedUnder() returns (es: seq<Event>, run: seq<State>)
    ensures IsRun(es, run) && NoStartWhenEmpty(es, run)
    ensures run[|es|].shared.closings == 1 && Publishing in run[|es|].threads
  {
    es, run := AShutdown();
    var s7 := Next(run[|es|], Do(1)).value;
    assert s7.threads == [Gone, Shutdown(EnterCloseOnce)];
    OneMore(es, run, Do(1), s7);
    es, run := es + [Do(1)], run + [s7];
    var s8 := Next(s7, UserPublish).value;
    assert s8.threads == [Gone, Shutdown(EnterCloseOnce), Publishing];
    OneMore(es, run, UserPublish, s8);
    es, run := es + [UserPublish], run + [s8];
    var s9 := Next(s8, Do(1)).value;
    assert s9.threads == [Gone, Shutdown(Closing), Publishing];
    OneMore(es, run, Do(1), s9);
    es, run := es + [Do(1)], run + [s9];
    var s10 := Next(s9, Do(1)).value;
    assert s10.threads == [Gone, Gone, Publishing];
    OneMore(es, run, Do(1), s10);
    es, run := es + [Do(1)], run + [s10];
    assert run[|es|].threads[2] == Publishing;
  }
}
