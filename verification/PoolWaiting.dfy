/**
When does a goroutine wait although the pool could still grow?  publisher_pool.go:106
waits for a channel to come back, but `put` and the dead-channel paths lower the counter
without waking anybody.
*/
module PoolWaiting {
  import opened Options
  import opened Sums
  import opened PoolMachine

  predicate DeathFree(es: seq<Event>) {
    forall k :: 0 <= k < |es| ==> !es[k].Die?
  }

  // Waiting at an open pool although its counter is below the maximum.
  predicate WaitsWithRoom(c: Config, s: State, i: nat) {
    Waiting(s, i) && !s.pool.closed && s.pool.counter < c.max
  }

  // ---------------------------------------------------------------- when size == max and no channel dies

  predicate Alive(c: Config, p: Pool, pc: PC) {
    && (Weight(pc) == 1 ==> Holds(pc).Some?)
    && (Holds(pc).Some? ==> Holds(pc).value in p.open)
    && !(pc.Put? && (pc.put.CountDown? || pc.put.ExamineAgain? || pc.put.Overflow? || pc.put.CloseIt?))
    && (pc == Get(Wait) || pc == Get(UnlockAndWait) ==> p.counter >= c.max)
  }

  ghost predicate Vital(c: Config, s: State) {
    !s.pool.closed ==>
      && (forall a :: 0 <= a < |s.pool.buffer| ==> s.pool.buffer[a] in s.pool.open)
      && (forall i :: 0 <= i < |s.threads| ==> Alive(c, s.pool, s.threads[i]))
  }

  // What an action of a healthy goroutine does to everybody else while the pool is open.
  ghost predicate Harmless(p: Pool, pc: PC, q: Pool) {
    && q.counter >= p.counter
    && (forall ch :: ch in p.open && ch !in q.open ==> Holds(pc) == Some(ch))
  }

  lemma HolderStaysAlive(c: Config, p: Pool, i: nat, pc: PC, ok: bool, q: Pool, pc': PC)
    requires pc.Get? && Act(c, p, i, pc, ok) == Some((q, pc')) && Alive(c, p, pc)
    requires forall a :: 0 <= a < |p.buffer| ==> p.buffer[a] in p.open
    requires Holds(pc).Some?
    ensures Alive(c, q, pc') && Harmless(p, pc, q)
  {
  }

  lemma TakerStaysAlive(c: Config, p: Pool, i: nat, pc: PC, ok: bool, q: Pool, pc': PC)
    requires pc.Get? && Act(c, p, i, pc, ok) == Some((q, pc')) && Alive(c, p, pc)
    requires forall a :: 0 <= a < |p.buffer| ==> p.buffer[a] in p.open
    requires Holds(pc).None? && Holds(pc').Some?
    ensures Alive(c, q, pc') && Harmless(p, pc, q)
  {
  }

  lemma SeekerStaysAlive(c: Config, p: Pool, i: nat, pc: PC, ok: bool, q: Pool, pc': PC)
    requires pc.Get? && Act(c, p, i, pc, ok) == Some((q, pc')) && Alive(c, p, pc)
    requires forall a :: 0 <= a < |p.buffer| ==> p.buffer[a] in p.open
    requires Holds(pc).None? && Holds(pc').None?
    ensures Alive(c, q, pc') && Harmless(p, pc, q)
  {
  }

  lemma GetStaysAlive(c: Config, p: Pool, i: nat, pc: PC, ok: bool, q: Pool, pc': PC)
    requires pc.Get? && Act(c, p, i, pc, ok) == Some((q, pc')) && Alive(c, p, pc)
    requires forall a :: 0 <= a < |p.buffer| ==> p.buffer[a] in p.open
    ensures Alive(c, q, pc') && Harmless(p, pc, q)
  {
    if Holds(pc).Some? {
      HolderStaysAlive(c, p, i, pc, ok, q, pc');
    } else if Holds(pc').Some? {
      TakerStaysAlive(c, p, i, pc, ok, q, pc');
    } else {
      SeekerStaysAlive(c, p, i, pc, ok, q, pc');
    }
  }

  lemma StaysAlive(c: Config, p: Pool, i: nat, pc: PC, ok: bool, q: Pool, pc': PC)
    requires Ready(c, p, i, pc) && Act(c, p, i, pc, ok) == Some((q, pc')) && !q.closed
    requires Alive(c, p, pc)
    requires forall a :: 0 <= a < |p.buffer| ==> p.buffer[a] in p.open
    requires pc.Put? && pc.put.Send? ==> |p.buffer| < c.size
    ensures Alive(c, q, pc') && Harmless(p, pc, q)
  {
    match pc
    case Get(_) => GetStaysAlive(c, p, i, pc, ok, q, pc');
    case Put(_, _) =>
    case Close(_) =>
  }

  lemma SendHasRoom(c: Config, s: State, i: nat)
    requires Inv(c, s) && c.size >= c.max && i < |s.threads| && s.threads[i].Put? && s.threads[i].put.Send?
    ensures |s.pool.buffer| < c.size
  {
    SumAtLeast(Weight, s.threads, i);
  }

  lemma HeldByOne(c: Config, s: State, i: nat, j: nat)
    requires Inv(c, s) && i < |s.threads| && j < |s.threads| && i != j && Holds(s.threads[i]).Some?
    ensures Holds(s.threads[i]) != Holds(s.threads[j])
  {
    var ch := Holds(s.threads[i]).value;
    assert Homes(s, ch) <= 1;
    if Holds(s.threads[j]) == Some(ch) {
      SumAtLeastTwo(Holding(ch), s.threads, if i < j then i else j, if i < j then j else i);
    }
  }

  lemma HeldIsNotBuffered(c: Config, s: State, i: nat, a: nat)
    requires Inv(c, s) && i < |s.threads| && a < |s.pool.buffer|
    ensures Holds(s.threads[i]) != Some(s.pool.buffer[a])
  {
    var ch := s.pool.buffer[a];
    assert Homes(s, ch) <= 1 && ch in multiset(s.pool.buffer);
    if Holds(s.threads[i]) == Some(ch) { SumAtLeast(Holding(ch), s.threads, i); }
  }

  lemma ActKeepsVital(c: Config, s: State, i: nat, ok: bool, q: Pool, pc: PC)
    requires Inv(c, s) && Vital(c, s) && c.size >= c.max && i < |s.threads|
    requires Act(c, s.pool, i, s.threads[i], ok) == Some((q, pc))
    ensures Vital(c, State(q, s.threads[i := pc]))
  {
    IsReady(c, s, i);
    ActBehaves(c, s.pool, i, s.threads[i], ok, q, pc);
    if !q.closed {
      if s.threads[i].Put? && s.threads[i].put.Send? { SendHasRoom(c, s, i); }
      StaysAlive(c, s.pool, i, s.threads[i], ok, q, pc);
      OthersStayAlive(c, s, i, q, pc);
    }
  }

  lemma OthersStayAlive(c: Config, s: State, i: nat, q: Pool, pc: PC)
    requires Inv(c, s) && Vital(c, s) && !s.pool.closed && i < |s.threads|
    requires Alive(c, q, pc) && Harmless(s.pool, s.threads[i], q) && Shifts(s.pool, s.threads[i], q, pc)
    ensures Vital(c, State(q, s.threads[i := pc]))
  {
    var t := State(q, s.threads[i := pc]);
    forall j | 0 <= j < |t.threads| ensures Alive(c, q, t.threads[j]) {
      if j != i && Holds(s.threads[j]).Some? { HeldByOne(c, s, j, i); }
    }
    forall a | 0 <= a < |q.buffer| ensures q.buffer[a] in q.open {
      if q.buffer[a] in s.pool.buffer {
        var b :| 0 <= b < |s.pool.buffer| && s.pool.buffer[b] == q.buffer[a];
        HeldIsNotBuffered(c, s, i, b);
      } else {
        assert Holds(s.threads[i]) == Some(q.buffer[a]);
      }
    }
  }

  lemma StepKeepsVital(c: Config, s: State, e: Event, t: State)
    requires Inv(c, s) && Vital(c, s) && c.size >= c.max && Next(c, s, e) == Some(t) && !e.Die?
    ensures Vital(c, t)
  {
    if e.Run? { ActKeepsVital(c, s, e.i, e.ok, t.pool, t.threads[e.i]); }
  }

  lemma {:induction false} RunKeepsVital(c: Config, es: seq<Event>, run: seq<State>, k: nat)
    requires IsRun(c, es, run) && DeathFree(es) && c.size >= c.max && k < |run|
    ensures Vital(c, run[k])
  {
    if k > 0 {
      RunKeepsVital(c, es, run, k - 1);
      RunKeeps(c, es, run, k - 1);
      StepKeepsVital(c, run[k - 1], es[k - 1], run[k]);
    }
  }

  // ---------------------------------------------------------------- reachable states

  ghost predicate Reachable(c: Config, deaths: bool, s: State) {
    exists es, run :: IsRun(c, es, run) && (deaths || DeathFree(es)) && run[|es|] == s
  }

  // No goroutine ever waits with room.
  ghost predicate NeverWaitsWithRoom(c: Config, deaths: bool) {
    forall s, i :: Reachable(c, deaths, s) ==> !WaitsWithRoom(c, s, i)
  }

  lemma WaitingMeansFull(c: Config, s: State, i: nat)
    requires c.size >= c.max && Reachable(c, false, s)
    ensures !WaitsWithRoom(c, s, i)
  {
    var es, run :| IsRun(c, es, run) && DeathFree(es) && run[|es|] == s;
    RunKeepsVital(c, es, run, |es|);
    assert i < |s.threads| && !s.pool.closed ==> Alive(c, s.pool, s.threads[i]);
  }

  lemma ReachInitial(c: Config, deaths: bool)
    ensures Reachable(c, deaths, Initial(c))
  {
    assert IsRun(c, [], [Initial(c)]);
  }

  lemma Reach(c: Config, deaths: bool, s: State, e: Event) returns (t: State)
    requires Reachable(c, deaths, s) && Next(c, s, e).Some? && (deaths || !e.Die?)
    ensures Next(c, s, e) == Some(t) && Reachable(c, deaths, t)
  {
    t := Next(c, s, e).value;
    var es, run :| IsRun(c, es, run) && (deaths || DeathFree(es)) && run[|es|] == s;
    assert IsRun(c, es + [e], run + [t]);
  }

  // Whole calls, run without interruption.

  // get finds an open channel in the buffer.
  lemma ReachTaken(c: Config, deaths: bool, s: State, i: nat) returns (t: State)
    requires Reachable(c, deaths, s) && i < |s.threads| && s.threads[i] == Idle
    requires s.pool.buffer != [] && s.pool.buffer[0] in s.pool.open
    ensures Reachable(c, deaths, t)
    ensures t == State(s.pool.(buffer := s.pool.buffer[1..]), s.threads[i := Lent(s.pool.buffer[0])])
  {
    t := Reach(c, deaths, s, Begin(i, CallGet));
    t := Reach(c, deaths, t, Run(i, true));
    t := Reach(c, deaths, t, Run(i, true));
    t := Reach(c, deaths, t, Run(i, true));
    assert t.threads == s.threads[i := Lent(s.pool.buffer[0])];
  }

  // get opens a channel.
  lemma ReachOpened(c: Config, deaths: bool, s: State, i: nat) returns (t: State)
    requires Reachable(c, deaths, s) && i < |s.threads| && s.threads[i] == Idle
    requires s.pool.buffer == [] && !s.pool.sealed && !s.pool.closed && s.pool.lock.None? && s.pool.counter < c.max
    ensures Reachable(c, deaths, t)
    ensures t.threads == s.threads[i := Lent(s.pool.next)]
    ensures t.pool == s.pool.(open := s.pool.open + {s.pool.next}, next := s.pool.next + 1,
                              counter := s.pool.counter + 1, counted := s.pool.counted + {s.pool.next})
  {
    t := Reach(c, deaths, s, Begin(i, CallGet));
    t := Reach(c, deaths, t, Run(i, true));
    t := Reach(c, deaths, t, Run(i, true));
    t := Reach(c, deaths, t, Run(i, true));
    t := Reach(c, deaths, t, Run(i, true));
    t := ReachOpenedLocked(c, deaths, t, i);
    assert t.threads == s.threads[i := Lent(s.pool.next)];
  }

  lemma ReachOpenedLocked(c: Config, deaths: bool, s: State, i: nat) returns (t: State)
    requires Reachable(c, deaths, s) && i < |s.threads| && s.threads[i] == Get(LookAtClosed)
    requires !s.pool.closed && s.pool.lock == Some(i) && s.pool.counter < c.max
    ensures Reachable(c, deaths, t)
    ensures t.threads == s.threads[i := Lent(s.pool.next)]
    ensures t.pool == s.pool.(open := s.pool.open + {s.pool.next}, next := s.pool.next + 1, lock := None,
                              counter := s.pool.counter + 1, counted := s.pool.counted + {s.pool.next})
  {
    t := Reach(c, deaths, s, Run(i, true));
    t := Reach(c, deaths, t, Run(i, true));
    t := Reach(c, deaths, t, Run(i, true));
    t := Reach(c, deaths, t, Run(i, true));
    t := ReachCounted(c, deaths, t, i);
    assert t.threads == s.threads[i := Lent(s.pool.next)];
  }

  lemma ReachCounted(c: Config, deaths: bool, s: State, i: nat) returns (t: State)
    requires Reachable(c, deaths, s) && i < |s.threads| && s.threads[i].Get? && s.threads[i].get.CountUp?
    ensures Reachable(c, deaths, t)
    ensures var ch := s.threads[i].get.ch;
            t == State(s.pool.(lock := None, counter := s.pool.counter + 1, counted := s.pool.counted + {ch}),
                       s.threads[i := Lent(ch)])
  {
    t := Reach(c, deaths, s, Run(i, true));
    t := Reach(c, deaths, t, Run(i, true));
    assert t.threads == s.threads[i := Lent(s.threads[i].get.ch)];
  }

  // get comes to wait.
  lemma ReachWaiting(c: Config, deaths: bool, s: State, i: nat) returns (t: State)
    requires Reachable(c, deaths, s) && i < |s.threads| && s.threads[i] == Idle
    requires s.pool.buffer == [] && !s.pool.sealed && s.pool.counter >= c.max
    ensures Reachable(c, deaths, t)
    ensures t == s.(threads := s.threads[i := Get(Wait)])
  {
    t := Reach(c, deaths, s, Begin(i, CallGet));
    t := Reach(c, deaths, t, Run(i, true));
    t := Reach(c, deaths, t, Run(i, true));
    t := Reach(c, deaths, t, Run(i, true));
    assert t.threads == s.threads[i := Get(Wait)];
  }

  // put stores the channel.
  lemma ReachStored(c: Config, deaths: bool, s: State, i: nat) returns (t: State)
    requires Reachable(c, deaths, s) && i < |s.threads| && s.threads[i].Lent?
    requires !s.pool.sealed && !s.pool.closed && s.pool.lock.None?
    requires s.threads[i].ch in s.pool.open && |s.pool.buffer| < c.size
    ensures Reachable(c, deaths, t)
    ensures t == State(s.pool.(buffer := s.pool.buffer + [s.threads[i].ch]), s.threads[i := Idle])
  {
    t := Reach(c, deaths, s, Begin(i, CallPut));
    t := Reach(c, deaths, t, Run(i, true));
    t := Reach(c, deaths, t, Run(i, true));
    t := Reach(c, deaths, t, Run(i, true));
    t := Reach(c, deaths, t, Run(i, true));
    assert t.threads == s.threads[i := Idle];
  }

  // put finds the buffer full, or the channel dead.
  lemma ReachDiscarded(c: Config, deaths: bool, s: State, i: nat) returns (t: State)
    requires Reachable(c, deaths, s) && i < |s.threads| && s.threads[i].Lent?
    requires !s.pool.sealed && !s.pool.closed && s.pool.lock.None?
    requires s.threads[i].ch in s.pool.open ==> |s.pool.buffer| >= c.size
    ensures Reachable(c, deaths, t)
    ensures t == State(s.pool.(counter := s.pool.counter - 1, open := s.pool.open - {s.threads[i].ch}),
                       s.threads[i := Idle])
  {
    t := Reach(c, deaths, s, Begin(i, CallPut));
    t := Reach(c, deaths, t, Run(i, true));
    t := Reach(c, deaths, t, Run(i, true));
    t := Reach(c, deaths, t, Run(i, true));
    t := Reach(c, deaths, t, Run(i, true));
    t := Reach(c, deaths, t, Run(i, true));
    if s.threads[i].ch in s.pool.open {
      t := Reach(c, deaths, t, Run(i, true));
    }
    assert t.threads == s.threads[i := Idle];
    assert s.threads[i].ch !in s.pool.open ==> s.pool.open - {s.threads[i].ch} == s.pool.open;
  }

  // ---------------------------------------------------------------- otherwise it does happen

  // Goroutines 0 .. k each hold the channel of the same number; the rest of the first
  // size channels are in the buffer.
  ghost predicate LentOut(c: Config, s: State, k: nat) {
    && k <= |s.threads|
    && (forall i :: 0 <= i < k ==> s.threads[i] == Lent(i))
    && (forall ch: ChanId :: ch in s.pool.open <==> ch < s.pool.next)
    && s.pool.next == Max(c.size, k) == s.pool.counter
    && |s.pool.buffer| == Max(0, c.size - k)
    && (forall a :: 0 <= a < |s.pool.buffer| ==> s.pool.buffer[a] == k + a)
    && s.pool.lock.None? && !s.pool.closed && !s.pool.sealed
  }

  // One more goroutine appears and gets the next channel.
  lemma ReachOneMore(c: Config, deaths: bool, r: State, k: nat) returns (s: State)
    requires 0 < k <= Max(c.size, c.max) && Reachable(c, deaths, r) && LentOut(c, r, k - 1) && |r.threads| == k - 1
    ensures Reachable(c, deaths, s) && LentOut(c, s, k) && |s.threads| == k
  {
    s := Reach(c, deaths, r, Spawn);
    if k <= c.size {
      s := ReachTaken(c, deaths, s, k - 1);
    } else {
      s := ReachOpened(c, deaths, s, k - 1);
    }
  }

  lemma {:induction false} ReachLentOut(c: Config, deaths: bool, k: nat) returns (s: State)
    requires k <= Max(c.size, c.max)
    ensures Reachable(c, deaths, s) && LentOut(c, s, k) && |s.threads| == k
  {
    if k == 0 {
      ReachInitial(c, deaths);
      s := Initial(c);
    } else {
      var r := ReachLentOut(c, deaths, k - 1);
      s := ReachOneMore(c, deaths, r, k);
    }
  }

  // All channels are lent, one more goroutine waits.
  lemma ReachFullHouse(c: Config, deaths: bool) returns (s: State)
    requires Max(c.size, c.max) > 0
    ensures var m := Max(c.size, c.max);
            Reachable(c, deaths, s) && LentOut(c, s, m) && |s.threads| == m + 1 && Waiting(s, m)
  {
    var m := Max(c.size, c.max);
    s := ReachLentOut(c, deaths, m);
    s := Reach(c, deaths, s, Spawn);
    s := ReachWaiting(c, deaths, s, m);
  }

  // A death while everything is lent strands the waiting goroutine.
  lemma DeathLeavesRoom(c: Config) returns (s: State)
    requires 0 < c.max && c.size <= c.max
    ensures Reachable(c, true, s) && WaitsWithRoom(c, s, c.max)
  {
    s := ReachFullHouse(c, true);
    s := Reach(c, true, s, Die(0));
    s := ReachDiscarded(c, true, s, 0);
  }

  // The borrowers of channels 0 .. k put them back.
  lemma {:induction false} ReachPutBack(c: Config, s: State, k: nat) returns (t: State)
    requires Reachable(c, false, s) && |s.threads| > c.max >= c.size >= k && LentOut(c, s, |s.threads| - 1)
    ensures Reachable(c, false, t) && |t.threads| == |s.threads| && |t.pool.buffer| == k
    ensures t.pool == s.pool.(buffer := t.pool.buffer)
    ensures forall i :: 0 <= i < k ==> t.threads[i] == Idle && t.pool.buffer[i] == i
    ensures forall i :: k <= i < |s.threads| ==> t.threads[i] == s.threads[i]
  {
    if k == 0 {
      t := s;
    } else {
      t := ReachPutBack(c, s, k - 1);
      t := ReachStored(c, false, t, k - 1);
    }
  }

  // The first k goroutines take what is in the buffer.
  lemma {:induction false} ReachTakenAgain(c: Config, s: State, k: nat) returns (t: State)
    requires Reachable(c, false, s) && k <= |s.pool.buffer| < |s.threads|
    requires forall i :: 0 <= i < k ==> s.threads[i] == Idle && s.pool.buffer[i] in s.pool.open
    ensures Reachable(c, false, t) && |t.threads| == |s.threads|
    ensures t.pool == s.pool.(buffer := s.pool.buffer[k..])
    ensures forall i :: k <= i < |s.threads| ==> t.threads[i] == s.threads[i]
  {
    if k == 0 {
      t := s;
    } else {
      t := ReachTakenAgain(c, s, k - 1);
      assert t.pool.buffer[0] == s.pool.buffer[k - 1];
      t := ReachTaken(c, false, t, k - 1);
      assert t.pool.buffer == s.pool.buffer[k..];
    }
  }

  // With room beyond the buffer, a put that finds the buffer full gives up a channel, and
  // the others may be gone again before the waiting goroutine looks.
  lemma OverflowLeavesRoom(c: Config) returns (s: State)
    requires c.size < c.max
    ensures Reachable(c, false, s) && WaitsWithRoom(c, s, c.max)
  {
    s := ReachFullHouse(c, false);
    s := ReachPutBack(c, s, c.size);
    s := ReachDiscarded(c, false, s, c.size);
    s := ReachTakenAgain(c, s, c.size);
  }

  lemma MoreWithDeaths(c: Config, s: State)
    requires Reachable(c, false, s)
    ensures Reachable(c, true, s)
  {
  }

  // For the pools NewSDK builds, "a goroutine waits only while the pool is at its maximum"
  // holds exactly when the pool cannot grow beyond its buffer and no channel ever dies.
  lemma WaitingMeansFullExactly(c: Config, deaths: bool)
    requires 1 <= c.size <= c.max
    ensures NeverWaitsWithRoom(c, deaths) <==> c.size == c.max && !deaths
  {
    if c.size < c.max {
      var s := OverflowLeavesRoom(c);
      if deaths { MoreWithDeaths(c, s); }
    } else if deaths {
      var s := DeathLeavesRoom(c);
    } else {
      forall s, i | Reachable(c, false, s) ensures !WaitsWithRoom(c, s, i) {
        WaitingMeansFull(c, s, i);
      }
    }
  }

  // ---------------------------------------------------------------- how it comes about, run by run

  // On its way into the select, or in it.
  predicate Commits(pc: PC) { pc == Get(Wait) || pc == Get(UnlockAndWait) }

  predicate Committed(s: State, i: nat) { i < |s.threads| && Commits(s.threads[i]) }

  predicate CommittedWithRoom(c: Config, s: State, i: nat) {
    Committed(s, i) && !s.pool.closed && s.pool.counter < c.max
  }

  // Giving up a channel: a dead one taken by a getter or put back, or one the buffer has no
  // room for.
  predicate CountsDown(pc: PC) {
    pc == Get(DropDead) || pc == Get(DropWaited) || (pc.Put? && (pc.put.CountDown? || pc.put.Overflow?))
  }

  // Another goroutine takes the counter of an open pool down from its maximum while i is
  // committed to waiting.
  predicate MakesRoom(c: Config, s: State, e: Event, i: nat) {
    && Committed(s, i) && !s.pool.closed && s.pool.counter == c.max
    && e.Run? && e.i != i && e.i < |s.threads| && CountsDown(s.threads[e.i])
  }

  // What an action does when it leaves an open pool below its maximum.
  ghost predicate LeavesRoom(c: Config, p: Pool, pc: PC, q: Pool, pc': PC) {
    !q.closed && q.counter < c.max ==>
      && !p.closed && (Commits(pc') ==> Commits(pc))
      && (p.counter < c.max || (p.counter == c.max && CountsDown(pc)))
  }

  lemma GetLeavesRoom(c: Config, p: Pool, i: nat, pc: PC, ok: bool, q: Pool, pc': PC)
    requires pc.Get? && Act(c, p, i, pc, ok) == Some((q, pc'))
    ensures LeavesRoom(c, p, pc, q, pc')
  {
  }

  lemma ActLeavesRoom(c: Config, p: Pool, i: nat, pc: PC, ok: bool, q: Pool, pc': PC)
    requires KnowsFlags(p, pc) && (p.sealed ==> p.closed) && Act(c, p, i, pc, ok) == Some((q, pc'))
    ensures LeavesRoom(c, p, pc, q, pc')
  {
    if pc.Get? { GetLeavesRoom(c, p, i, pc, ok, q, pc'); }
  }

  lemma RoomBegins(c: Config, s: State, e: Event, t: State, i: nat)
    requires Inv(c, s) && Next(c, s, e) == Some(t)
    requires CommittedWithRoom(c, t, i) && !CommittedWithRoom(c, s, i)
    ensures MakesRoom(c, s, e, i)
  {
    if e.Run? {
      assert KnowsFlags(s.pool, s.threads[e.i]);
      ActLeavesRoom(c, s.pool, e.i, s.threads[e.i], e.ok, t.pool, t.threads[e.i]);
    }
  }

  // Whenever a goroutine waits at an open pool with room, some other goroutine has given up a
  // channel of a full pool while the first was committed to waiting, and it has been so since.
  lemma {:induction false} RoomComesFromADecrement(c: Config, es: seq<Event>, run: seq<State>, k: nat, i: nat)
    returns (d: nat)
    requires IsRun(c, es, run) && k < |run| && CommittedWithRoom(c, run[k], i)
    ensures d < k && MakesRoom(c, run[d], es[d], i)
    ensures forall j :: d < j <= k ==> CommittedWithRoom(c, run[j], i)
  {
    if CommittedWithRoom(c, run[k - 1], i) {
      d := RoomComesFromADecrement(c, es, run, k - 1, i);
    } else {
      RunKeeps(c, es, run, k - 1);
      RoomBegins(c, run[k - 1], es[k - 1], run[k], i);
      d := k - 1;
    }
  }
}
