/**
Start against reconnect (rabbitmqsdk.go:348-410, reconnect.go:189-202).

Start stores its queues in one critical section of s.mu and calls Consume for each of them in
a critical section of its own; reconnect holds s.mu throughout and calls Consume for
everything stored.
*/
module StartRace {
  import opened Options
  import opened Sums

  datatype Starter =
    | Storing(names: seq<string>)
    | Consuming(lo: nat, hi: nat)     // the stored queues lo .. hi are still to be consumed
    | Failed

  datatype State = State(
    queues: seq<string>,              // s.queues
    alive: bool,                      // the consume channel works
    consumes: seq<nat>,               // per stored queue: the calls of Consume in force on the channel
    starters: seq<Starter>)

  datatype Event =
    | CallStart(names: seq<string>)
    | Store(i: nat)
    | Consume(i: nat, ok: bool)
    | Break                           // the channel dies, and every consumer with it
    | Reconnect                       // a reconnect that gets through

  const INITIAL := State([], true, [], [])

  function Dead(s: State): State {
    s.(alive := false, consumes := seq(|s.queues|, _ => 0))
  }

  function Next(s: State, e: Event): Option<State> {
    match e
    case CallStart(names) => Some(s.(starters := s.starters + [Storing(names)]))
    case Store(i) =>
      if i < |s.starters| && s.starters[i].Storing? then
        var names := s.starters[i].names;
        Some(s.(queues := s.queues + names, consumes := s.consumes + seq(|names|, _ => 0),
                starters := s.starters[i := Consuming(|s.queues|, |s.queues| + |names|)]))
      else None
    case Consume(i, ok) =>
      if i < |s.starters| && s.starters[i].Consuming? && s.starters[i].lo < s.starters[i].hi then
        var c := s.starters[i];
        if ok && s.alive && c.lo < |s.consumes| then
          Some(s.(consumes := s.consumes[c.lo := s.consumes[c.lo] + 1],
              starters := s.starters[i := Consuming(c.lo + 1, c.hi)]))
        else      // the broker has closed the channel, or it was dead already
          Some(Dead(s).(starters := s.starters[i := Failed]))
      else None
    case Break => Some(Dead(s))
    case Reconnect => Some(s.(alive := true, consumes := seq(|s.queues|, _ => 1)))
  }

  ghost predicate IsRun(es: seq<Event>, run: seq<State>) {
    && |run| == |es| + 1
    && run[0] == INITIAL
    && forall k :: 0 <= k < |es| ==> Next(run[k], es[k]) == Some(run[k + 1])
  }

  // ---------------------------------------------------------------- invariant

  predicate Pending(c: Starter, n: nat) { c.Consuming? && c.lo <= n < c.hi }

  // Every stored queue is still to be consumed by at most one Start.
  ghost predicate Inv(s: State) {
    && |s.consumes| == |s.queues|
    && (forall i :: 0 <= i < |s.starters| && s.starters[i].Consuming? ==>
        s.starters[i].lo <= s.starters[i].hi <= |s.queues|)
    && (forall i, j, n: nat :: 0 <= i < j < |s.starters| ==> !(Pending(s.starters[i], n) && Pending(s.starters[j], n)))
  }

  lemma StepKeeps(s: State, e: Event, t: State)
    requires Inv(s) && Next(s, e) == Some(t)
    ensures Inv(t) && |s.queues| <= |t.queues|
  {
    forall i, j, n: nat | 0 <= i < j < |t.starters| ensures !(Pending(t.starters[i], n) && Pending(t.starters[j], n)) {
      if j < |s.starters| { assert !(Pending(s.starters[i], n) && Pending(s.starters[j], n)); }
    }
  }

  lemma {:induction false} RunKeeps(es: seq<Event>, run: seq<State>, k: nat)
    requires IsRun(es, run) && k < |run|
    ensures Inv(run[k])
  {
    if k > 0 {
      RunKeeps(es, run, k - 1);
      StepKeeps(run[k - 1], es[k - 1], run[k]);
    }
  }

  lemma {:induction false} QueuesOnlyGrow(es: seq<Event>, run: seq<State>, j: nat, k: nat)
    requires IsRun(es, run) && j <= k < |run|
    ensures |run[j].queues| <= |run[k].queues|
  {
    if j < k {
      QueuesOnlyGrow(es, run, j, k - 1);
      RunKeeps(es, run, k - 1);
      StepKeeps(run[k - 1], es[k - 1], run[k]);
    }
  }

  // ---------------------------------------------------------------- who has consumed what

  // At event e, a Start gets its Consume of the stored queue n through.
  predicate Consumes(s: State, e: Event, n: nat) {
    && e.Consume? && e.ok && s.alive && e.i < |s.starters| && s.starters[e.i].Consuming?
    && s.starters[e.i].lo == n && n < s.starters[e.i].hi
  }

  ghost predicate ConsumedIn(es: seq<Event>, run: seq<State>, from: nat, k: nat, n: nat)
    requires k <= |es| && |run| == |es| + 1
  {
    exists b: nat :: from <= b < k && Consumes(run[b], es[b], n)
  }

  // How many of the first k events it takes to include the last Reconnect.
  function Last(es: seq<Event>, k: nat): (r: nat)
    requires k <= |es|
    ensures r <= k
  {
    if k == 0 then 0 else if es[k - 1].Reconnect? then k else Last(es, k - 1)
  }

  ghost predicate NobodyWill(s: State, n: nat) {
    n < |s.queues| && forall i :: 0 <= i < |s.starters| ==> !Pending(s.starters[i], n)
  }

  lemma StaysConsumed(s: State, e: Event, t: State, n: nat)
    requires Inv(s) && Next(s, e) == Some(t) && (NobodyWill(s, n) || Consumes(s, e, n))
    ensures NobodyWill(t, n)
  {
    if Consumes(s, e, n) {
      forall i | 0 <= i < |s.starters| && i != e.i ensures !Pending(s.starters[i], n) {
        assert Pending(s.starters[e.i], n);
      }
    }
  }

  lemma {:induction false} ConsumedOnce(es: seq<Event>, run: seq<State>, b: nat, k: nat, n: nat)
    requires IsRun(es, run) && b < k <= |es| && Consumes(run[b], es[b], n)
    ensures NobodyWill(run[k], n)
  {
    RunKeeps(es, run, k - 1);
    if b < k - 1 { ConsumedOnce(es, run, b, k - 1, n); }
    StaysConsumed(run[k - 1], es[k - 1], run[k], n);
  }

  // The calls of Consume in force for a stored queue: one from the last reconnect if the
  // queue was stored by then, and one from its own Start if that came after.
  lemma {:induction false} ConsumesExactly(es: seq<Event>, run: seq<State>, k: nat, n: nat)
    requires IsRun(es, run) && k < |run| && n < |run[k].queues| && run[k].alive
    ensures Inv(run[k])
    ensures var r := Last(es, k);
            run[k].consumes[n] == One(n < |run[r].queues|) + One(ConsumedIn(es, run, r, k, n))
  {
    RunKeeps(es, run, k);
    if k > 0 && !es[k - 1].Reconnect? {
      var s := run[k - 1];
      RunKeeps(es, run, k - 1);
      if n < |s.queues| { ConsumesExactly(es, run, k - 1, n); }
      LastStep(es, run, k, n);
      ConsumesStep(s, es[k - 1], run[k], n);
    }
  }

  // What one event other than Reconnect does to the count, when the channel survives it.
  lemma ConsumesStep(s: State, e: Event, t: State, n: nat)
    requires Inv(s) && Next(s, e) == Some(t) && !e.Reconnect? && t.alive && n < |t.queues|
    ensures Inv(t) && s.alive
    ensures t.consumes[n] == (if n < |s.queues| then s.consumes[n] else 0) + One(Consumes(s, e, n))
  {
    StepKeeps(s, e, t);
  }

  lemma LastStep(es: seq<Event>, run: seq<State>, k: nat, n: nat)
    requires IsRun(es, run) && 0 < k < |run| && Inv(run[k - 1])
    requires !es[k - 1].Reconnect? && run[k].alive && n < |run[k].queues|
    ensures var r := Last(es, k);
      && r <= k - 1 && |run[r].queues| <= |run[k - 1].queues|
      && (n >= |run[k - 1].queues| ==> !ConsumedIn(es, run, r, k, n))
      && (Consumes(run[k - 1], es[k - 1], n) ==> !ConsumedIn(es, run, r, k - 1, n) && ConsumedIn(es, run, r, k, n))
      && (!Consumes(run[k - 1], es[k - 1], n) ==> (ConsumedIn(es, run, r, k, n) <==> ConsumedIn(es, run, r, k - 1, n)))
  {
    var r := Last(es, k);
    QueuesOnlyGrow(es, run, r, k - 1);
    forall b: nat | r <= b < k - 1 && Consumes(run[b], es[b], n)
      ensures n < |run[k - 1].queues| && !Consumes(run[k - 1], es[k - 1], n)
    {
      ConsumedOnce(es, run, b, k - 1, n);
      assert Consumes(run[k - 1], es[k - 1], n) ==> Pending(run[k - 1].starters[es[k - 1].i], n);
    }
  }

  // So a stored queue is consumed exactly once while the channel works if and only if just
  // one of the two happened: it was stored before the last reconnect, or its own Start got
  // its Consume through since.  It is not consumed when neither did (its Start has yet to
  // come to it), and twice when both did.
  lemma {:induction false} ConsumedOnceExactly(es: seq<Event>, run: seq<State>, k: nat, n: nat)
    requires IsRun(es, run) && k < |run| && n < |run[k].queues| && run[k].alive
    ensures Inv(run[k])
    ensures var r := Last(es, k); var replayed, own := n < |run[r].queues|, ConsumedIn(es, run, r, k, n);
      && (run[k].consumes[n] == 1 <==> replayed != own)
      && (run[k].consumes[n] == 0 <==> !replayed && !own)
      && (run[k].consumes[n] == 2 <==> replayed && own)
  {
    ConsumesExactly(es, run, k, n);
  }

  // A queue whose Start has got its Consume through is consumed once while the channel works,
  // or twice: exactly when the last reconnect came between storing and consuming it.
  lemma DuplicatedExactly(es: seq<Event>, run: seq<State>, b: nat, k: nat, n: nat)
    requires IsRun(es, run) && b < k < |run| && Consumes(run[b], es[b], n) && run[k].alive
    ensures n < |run[k].queues| == |run[k].consumes|
    ensures var r := Last(es, k);
            run[k].consumes[n] == if r <= b && n < |run[r].queues| then 2 else 1
  {
    var r := Last(es, k);
    RunKeeps(es, run, k);
    RunKeeps(es, run, b);
    QueuesOnlyGrow(es, run, b, k);
    ConsumesExactly(es, run, k, n);
    if r > b {
      QueuesOnlyGrow(es, run, b, r);
      forall c: nat | r <= c < k ensures !Consumes(run[c], es[c], n) {
        ConsumedOnce(es, run, b, c, n);
        assert Consumes(run[c], es[c], n) ==> Pending(run[c].starters[es[c].i], n);
      }
    }
  }

  // Between storing and consuming, a queue is not consumed.
  lemma UnconsumedIsReachable(name: string) returns (es: seq<Event>, run: seq<State>)
    ensures IsRun(es, run) && run[|es|].queues == [name] && run[|es|].alive && run[|es|].consumes == [0]
  {
    es := [CallStart([name]), Store(0)];
    var s1 := Next(INITIAL, es[0]).value;
    var s2 := Next(s1, es[1]).value;
    assert s2.queues == [name] && s2.consumes == [0];
    run := [INITIAL, s1, s2];
  }

  // A Start that has failed is carried through by the next reconnect all the same.
  lemma FailedStartIsReplayed(name: string) returns (es: seq<Event>, run: seq<State>)
    ensures IsRun(es, run) && run[|es|].queues == [name] && run[|es|].alive && run[|es|].consumes == [1]
    ensures run[|es|].starters == [Failed]
  {
    es := [CallStart([name]), Store(0), Consume(0, false), Reconnect];
    var s1 := Next(INITIAL, es[0]).value;
    var s2 := Next(s1, es[1]).value;
    assert s2.queues == [name] && s2.starters == [Consuming(0, 1)];
    var s3 := Next(s2, es[2]).value;
    assert s3.queues == [name] && s3.starters == [Failed];
    var s4 := Next(s3, es[3]).value;
    run := [INITIAL, s1, s2, s3, s4];
  }

  // A duplicate does happen.
  lemma DuplicateIsReachable(name: string) returns (es: seq<Event>, run: seq<State>)
    ensures IsRun(es, run) && run[|es|].queues == [name] && run[|es|].alive && run[|es|].consumes == [2]
  {
    es := [CallStart([name]), Store(0), Reconnect, Consume(0, true)];
    var s1 := Next(INITIAL, es[0]).value;
    var s2 := Next(s1, es[1]).value;
    assert s2.queues == [name] && s2.starters == [Consuming(0, 1)];
    var s3 := Next(s2, es[2]).value;
    assert s3.consumes == [1];
    var s4 := Next(s3, es[3]).value;
    run := [INITIAL, s1, s2, s3, s4];
  }
}
