/**
Declaring, losing and replaying topology over the life of an SDK.

DeclareQueues calls succeed or stop midway; the connection breaks and the broker keeps all,
some or none of what was declared; the reconnect loop replays `declaredQueues` until it gets
through (rabbitmqsdk.go:208-338, reconnect.go:145-158).
*/
module TopologyHistory {
  import opened Broker
  import opened Topology

  datatype State = State(
    broker: Broker,
    live: bool,                        // the channel works: nothing broke since the last full replay
    declared: seq<QueueConfig>,        // s.declaredQueues
    whole: Broker)                     // the broker as it was when the channel last worked

  datatype Event =
    | Declare(qs: seq<QueueConfig>, after: Broker, r: Outcome, done: nat, part: Broker, survives: bool)
    | Break(after: Broker)             // what is left of the broker
    | Replay(after: Broker, r: Outcome, done: nat, part: Broker)

  ghost predicate Step(s: State, e: Event, t: State) {
    match e
    case Declare(qs, after, r, done, part, survives) =>
      if s.live then
        && Declares(s.broker, qs, after, r, done, part)
        && t == State(after, r.Done? || survives, if r.Done? then s.declared + qs else s.declared, after)
      else
        !r.Done? && t == s
    case Break(after) =>
      Sub(after, s.broker) && t == s.(broker := after, live := false)
    case Replay(after, r, done, part) =>
      && !s.live && Declares(s.broker, s.declared, after, r, done, part)
      && t == State(after, r.Done?, s.declared, if r.Done? then after else s.whole)
  }

  // A run starts on a broker that may hold anything.
  ghost predicate IsRun(es: seq<Event>, run: seq<State>) {
    && |run| == |es| + 1
    && run[0] == State(run[0].broker, true, [], run[0].broker)
    && forall i :: 0 <= i < |es| ==> Step(run[i], es[i], run[i + 1])
  }

  ghost predicate Inv(s: State) {
    && Sub(s.broker, s.whole)
    && Established(s.whole, AllWanted(s.declared))
    && (s.live ==> s.whole == s.broker)
  }

  ghost predicate AllValid(qs: seq<QueueConfig>) {
    forall i :: 0 <= i < |qs| ==> Valid(qs[i])
  }

  lemma BothValid(qs: seq<QueueConfig>, rs: seq<QueueConfig>)
    requires AllValid(qs) && ValidUpTo(rs, |rs|)
    ensures AllValid(qs + rs)
  {
    ValidOnes(rs, |rs|);
  }

  lemma WantedOfBoth(qs: seq<QueueConfig>, rs: seq<QueueConfig>)
    ensures AllWanted(qs + rs) == AllWanted(qs) + AllWanted(rs)
  {
  }

  // Wherever the declarations stop, the broker does not leave one on which all of them are
  // established.
  lemma DeclaresStaysWithin(b: Broker, fs: seq<Broker>, after: Broker, r: Outcome, done: nat, part: Broker, w: Broker)
    requires done <= |fs| && DeclaresFragments(b, fs, after, r, done, part)
    requires Sub(b, w) && Established(w, fs)
    ensures Sub(after, w) && (done < |fs| ==> !r.Refused?)
  {
    MergeAllWithin(b, fs[..done], w);
    if done < |fs| {
      var base := MergeAll(b, fs[..done]);
      SubTransitive(part, fs[done], w);
      MergeWithin(base, part, w);
      MergeWithin(base, fs[done], w);
    } else {
      assert fs[..done] == fs;
    }
  }

  lemma DeclaresKeepsAll(b: Broker, fs: seq<Broker>, after: Broker, r: Outcome, done: nat, part: Broker)
    requires done <= |fs| && DeclaresFragments(b, fs, after, r, done, part)
    ensures Sub(b, after)
    ensures done == |fs| ==> Established(after, fs)
  {
    MergeAllContains(b, fs[..done]);
    if done == |fs| {
      assert fs[..done] == fs;
    } else {
      SubMerge(MergeAll(b, fs[..done]), part);
      SubTransitive(b, MergeAll(b, fs[..done]), after);
    }
  }

  lemma StillEstablished(b: Broker, c: Broker, fs: seq<Broker>)
    requires Established(b, fs) && Sub(b, c)
    ensures Established(c, fs)
  {
    forall f | f in fs ensures Sub(f, c) { SubTransitive(f, b, c); }
  }

  lemma DeclareKeeps(s: State, qs: seq<QueueConfig>, after: Broker, r: Outcome, done: nat, part: Broker,
      survives: bool, t: State)
    requires Inv(s) && s.live && Step(s, Declare(qs, after, r, done, part, survives), t)
    ensures Inv(t)
  {
    DeclaresKeepsAll(s.broker, AllWanted(qs), after, r, done, part);
    StillEstablished(s.broker, after, AllWanted(s.declared));
    if r.Done? {
      WantedOfBoth(s.declared, qs);
      EstablishedTogether(after, AllWanted(s.declared), AllWanted(qs), AllWanted(s.declared + qs));
    }
  }

  lemma ReplayKeeps(s: State, after: Broker, r: Outcome, done: nat, part: Broker, t: State)
    requires Inv(s) && Step(s, Replay(after, r, done, part), t)
    ensures Inv(t)
  {
    DeclaresStaysWithin(s.broker, AllWanted(s.declared), after, r, done, part, s.whole);
    DeclaresKeepsAll(s.broker, AllWanted(s.declared), after, r, done, part);
  }

  lemma StepKeeps(s: State, e: Event, t: State)
    requires Inv(s) && Step(s, e, t)
    ensures Inv(t)
  {
    match e
    case Declare(qs, after, r, done, part, survives) =>
      if s.live { DeclareKeeps(s, qs, after, r, done, part, survives, t); }
    case Break(after) => SubTransitive(after, s.broker, s.whole);
    case Replay(after, r, done, part) => ReplayKeeps(s, after, r, done, part, t);
  }

  lemma RunKeepsAt(es: seq<Event>, run: seq<State>, i: nat)
    requires IsRun(es, run) && i < |es|
    ensures Inv(run[i]) ==> Inv(run[i + 1])
  {
    var s, e, t := run[i], es[i], run[i + 1];
    assert Step(s, e, t);
    if Inv(s) { StepKeeps(s, e, t); }
  }

  lemma {:induction false} RunKeeps(es: seq<Event>, run: seq<State>, i: nat)
    requires IsRun(es, run) && i < |run|
    ensures Inv(run[i])
  {
    if i > 0 {
      RunKeeps(es, run, i - 1);
      RunKeepsAt(es, run, i - 1);
    }
  }

  lemma StepKeepsValid(s: State, e: Event, t: State)
    requires AllValid(s.declared) && Step(s, e, t)
    ensures AllValid(t.declared)
  {
    if e.Declare? && s.live && e.r.Done? { BothValid(s.declared, e.qs); }
  }

  lemma {:induction false} RunIsValid(es: seq<Event>, run: seq<State>, i: nat)
    requires IsRun(es, run) && i < |run|
    ensures AllValid(run[i].declared)
  {
    if i > 0 {
      RunIsValid(es, run, i - 1);
      StepKeepsValid(run[i - 1], es[i - 1], run[i]);
    }
  }

  // ---------------------------------------------------------------- theorems

  // However many calls succeeded or stopped midway and however often the broker lost part
  // or all of its topology: a replay is never refused and finds no invalid configuration,
  // so only the network or the context can stop it.
  lemma ReplayNeverConflicts(es: seq<Event>, run: seq<State>, i: nat)
    requires IsRun(es, run) && i < |es| && es[i].Replay?
    ensures es[i].r.Done? || es[i].r.ContextEnded? || es[i].r.NetworkFailed?
  {
    RunKeeps(es, run, i);
    RunIsValid(es, run, i);
    assert Step(run[i], es[i], run[i + 1]);
    DeclaresStaysWithin(run[i].broker, AllWanted(run[i].declared), es[i].after, es[i].r, es[i].done, es[i].part,
        run[i].whole);
  }

  lemma StepOnlyAppends(s: State, e: Event, t: State)
    requires Step(s, e, t)
    ensures s.declared <= t.declared
    ensures e.Declare? && e.r.Done? ==> t.declared == s.declared + e.qs
  {
  }

  lemma {:induction false} AppendsOnly(run: seq<State>, i: nat, j: nat)
    requires i <= j < |run| && forall k :: i <= k < j ==> run[k].declared <= run[k + 1].declared
    ensures run[i].declared <= run[j].declared
  {
    if i < j { AppendsOnly(run, i, j - 1); }
  }

  lemma RunOnlyAppends(es: seq<Event>, run: seq<State>, i: nat, j: nat)
    requires IsRun(es, run) && i < j < |run| && es[i].Declare? && es[i].r.Done?
    ensures run[i].declared + es[i].qs <= run[j].declared
  {
    forall k | 0 <= k < |es| ensures run[k].declared <= run[k + 1].declared {
      StepOnlyAppends(run[k], es[k], run[k + 1]);
    }
    AppendsOnly(run, i + 1, j);
    StepOnlyAppends(run[i], es[i], run[i + 1]);
  }

  // What a successful DeclareQueues call promised is there, with the promised properties,
  // in every later state in which the channel works.
  lemma PromisesAreKept(es: seq<Event>, run: seq<State>, i: nat, k: nat, j: nat)
    requires IsRun(es, run) && i < j < |run| && run[j].live
    requires es[i].Declare? && es[i].r.Done? && k < |es[i].qs|
    ensures Valid(es[i].qs[k]) && Sub(Wanted(es[i].qs[k]), run[j].broker)
  {
    RunOnlyAppends(es, run, i, j);
    RunKeeps(es, run, j);
    RunIsValid(es, run, j);
    var n := |run[i].declared| + k;
    assert run[j].declared[n] == es[i].qs[k];
    assert AllWanted(run[j].declared)[n] == Wanted(es[i].qs[k]);
  }

  // On a broker that lost everything, a complete replay builds exactly what was declared.
  lemma FreshReplayRebuilds(es: seq<Event>, run: seq<State>, i: nat)
    requires IsRun(es, run) && i < |es| && es[i].Replay? && es[i].r.Done? && run[i].broker == EMPTY
    ensures var fs, b := AllWanted(run[i].declared), run[i + 1].broker;
            && Established(b, fs)
            && (forall x :: x in b.exchanges ==> exists f :: f in fs && x in f.exchanges)
            && (forall x :: x in b.queues ==> exists f :: f in fs && x in f.queues)
            && (forall x :: x in b.bindings ==> exists f :: f in fs && x in f.bindings)
  {
    var s, e := run[i], es[i];
    assert Step(s, e, run[i + 1]);
    DeclaresKeepsAll(s.broker, AllWanted(s.declared), e.after, e.r, e.done, e.part);
    MergeAllAddsNothingElse(EMPTY, AllWanted(s.declared));
  }

  // On a broker that still has everything, a replay changes nothing, however often queues
  // were declared and wherever it stops.
  lemma ReplayIsIdempotent(b: Broker, qs: seq<QueueConfig>, after: Broker, r: Outcome, done: nat, part: Broker)
    requires Established(b, AllWanted(qs)) && Declares(b, qs, after, r, done, part)
    ensures after == b
  {
    var fs := AllWanted(qs);
    MergeAllIdle(b, fs);
    MergeAllIdle(b, fs[..done]);
    if done < |fs| {
      SubTransitive(part, fs[done], b);
      MergeIdle(b, part);
    }
  }
}
