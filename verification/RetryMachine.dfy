/**
The life of one accepted message under the consume / retry / dead-letter protocol of
rabbitmqsdk.go, with every fault the broker and the network can produce.

The broker keeps copies of the message; workers make attempts at copies.  A failed copy is
republished with a raised counter and then acknowledged, in two separate calls, so a
fault between them leaves two copies where there was one.
*/
module RetryMachine {
  import opened Options
  import opened Sums
  import opened Retry

  // routed: a republish to the delivery's own exchange and routing key leads back to the queue.
  datatype Config = Config(maxRedelivery: Int64, routed: bool, dummyMessageEnabled: bool)

  // Where a copy is at the broker, and the attempt it is with or whose settlement put it there.
  datatype Place =
    | Ready
    | Unacked(attempt: nat)
    | Completed(attempt: nat)     // acknowledged after the handler returned nil
    | Retried(attempt: nat)       // acknowledged after its successor was confirmed
    | Rejected(attempt: nat)      // rejected without requeue: dead-lettered or discarded
    | Swallowed                   // acknowledged as a heartbeat, without a handler call

  datatype Copy = Copy(msg: Publishing, place: Place)

  // One delivery of a copy to a worker.
  datatype Attempt = Attempt(
    copy: nat,
    count: Int64,                 // the retry counter it carries
    phase: Phase,
    outcome: Option<bool>,        // whether the handler, once it has run, returned nil
    broken: bool,                 // its republish failed or was ambiguous, or its settlement
                                  // was not, or can no longer be, applied by the broker
    child: Option<nat>,           // the copy its republish created
    replaced: bool)               // its Ack removed the copy it had republished

  datatype State = State(copies: seq<Copy>, attempts: seq<Attempt>)

  datatype Event =
    | Hand(k: nat)                               // the broker hands copy k to a worker
    | HandlerReturns(a: nat, ok: bool)           // nil, or an error or a panic
    | Republish(a: nat, accepted: bool, confirmed: bool)  // what the broker did, what publishAMQP reports
    | Settle(a: nat, applied: bool)              // whether the broker applied the Ack or Nack
    | Swallow(k: nat)                            // a worker takes copy k for a heartbeat, its Ack is applied
    | Lose(k: nat)                               // channel or connection lost: the broker requeues copy k

  function Initial(m: Publishing): State {
    State([Copy(m, Ready)], [])
  }

  function Settled(how: Settlement, a: nat): Place {
    match how
    case AckDone => Completed(a)
    case AckRetried => Retried(a)
    case NackRequeue => Ready
    case NackReject => Rejected(a)
  }

  // What a worker takes for one of its own heartbeats.  If its Ack is not applied the copy stays
  // where it was.
  predicate Swallows(c: Config, m: Publishing) {
    c.dummyMessageEnabled && IsHeartbeat(m.headers)
  }

  function Next(c: Config, s: State, e: Event): Option<State> {
    match e
    case Hand(k) =>
      if k < |s.copies| && s.copies[k].place.Ready? && !Swallows(c, s.copies[k].msg) then
        Some(State(s.copies[k := s.copies[k].(place := Unacked(|s.attempts|))],
                   s.attempts + [Attempt(k, RetryCount(s.copies[k].msg.headers), AtHandler, None, false, None, false)]))
      else None
    case HandlerReturns(a, ok) =>
      if a < |s.attempts| && s.attempts[a].phase == AtHandler then
        var t := s.attempts[a];
        Some(s.(attempts := s.attempts[a :=
          t.(phase := Advance(c.maxRedelivery, t.count, t.phase, ok), outcome := Some(ok))]))
      else None
    case Republish(a, accepted, confirmed) =>
      if a < |s.attempts| && s.attempts[a].phase == AtPublish && (confirmed ==> accepted)
         && s.attempts[a].copy < |s.copies|
         && RetryCount(s.copies[s.attempts[a].copy].msg.headers) < 0x7FFF_FFFF_FFFF_FFFF then
        var t := s.attempts[a];
        var t' := t.(phase := Advance(c.maxRedelivery, t.count, t.phase, confirmed), broken := t.broken || !confirmed);
        if accepted && c.routed then
          Some(State(s.copies + [Copy(RetryOf(s.copies[t.copy].msg), Ready)],
                     s.attempts[a := t'.(child := Some(|s.copies|))]))
        else
          Some(s.(attempts := s.attempts[a := t']))
      else None
    case Settle(a, applied) =>
      if a < |s.attempts| && s.attempts[a].phase.AtSettle? then
        var t := s.attempts[a];
        if !applied then
          Some(s.(attempts := s.attempts[a := t.(phase := Finished, broken := true)]))
        else if t.copy < |s.copies| && s.copies[t.copy].place == Unacked(a) then
          Some(State(s.copies[t.copy := s.copies[t.copy].(place := Settled(t.phase.how, a))],
                     s.attempts[a := t.(phase := Finished, replaced := t.phase.how == AckRetried)]))
        else None
      else None
    case Swallow(k) =>
      if k < |s.copies| && s.copies[k].place.Ready? && Swallows(c, s.copies[k].msg) then
        Some(s.(copies := s.copies[k := s.copies[k].(place := Swallowed)]))
      else None
    case Lose(k) =>
      if k < |s.copies| && s.copies[k].place.Unacked? && s.copies[k].place.attempt < |s.attempts| then
        var a := s.copies[k].place.attempt;
        Some(State(s.copies[k := s.copies[k].(place := Ready)],
                   s.attempts[a := s.attempts[a].(broken := true)]))
      else None
  }

  ghost predicate IsRun(c: Config, m: Publishing, es: seq<Event>, run: seq<State>) {
    && |run| == |es| + 1
    && run[0] == Initial(m)
    && forall i :: 0 <= i < |es| ==> Next(c, run[i], es[i]) == Some(run[i + 1])
  }

  lemma OneMore(c: Config, m: Publishing, es: seq<Event>, run: seq<State>, e: Event, t: State)
    requires IsRun(c, m, es, run) && Next(c, run[|es|], e) == Some(t)
    ensures IsRun(c, m, es + [e], run + [t])
  {
  }

  // ---------------------------------------------------------------- the basic invariant

  predicate Live(p: Place) { p.Ready? || p.Unacked? }

  // Retries are possible for this message and lead nowhere.
  predicate Leaky(c: Config, m: Publishing) {
    !c.routed && c.maxRedelivery > 0 && RetryCount(m.headers) < c.maxRedelivery
  }

  // Messages that can be lost: unroutable retries, and what looks like a heartbeat.
  predicate Lossy(c: Config, m: Publishing) {
    Leaky(c, m) || Swallows(c, m)
  }

  predicate Gone(p: Place) { p.Completed? || p.Retried? || p.Rejected? }

  ghost predicate GoodCopy(c: Config, m: Publishing, s: State, k: nat)
    requires k < |s.copies|
  {
    var copy := s.copies[k];
    && RetryCount(m.headers) <= RetryCount(copy.msg.headers)
    && (k == 0 ==> copy.msg == m)
    && (k > 0 ==> 0 < c.maxRedelivery && RetryCount(copy.msg.headers) <= c.maxRedelivery
                  && copy.msg == WithCounter(m, RetryCount(copy.msg.headers)))
    && (copy.place.Swallowed? ==> Swallows(c, m))
    && (k > 0 ==> !Swallows(c, m))
    && (copy.place.Unacked? || Gone(copy.place) ==>
        copy.place.attempt < |s.attempts| && s.attempts[copy.place.attempt].copy == k)
    && (copy.place.Completed? ==> s.attempts[copy.place.attempt].outcome == Some(true))
    && (copy.place.Rejected? ==> s.attempts[copy.place.attempt].outcome == Some(false)
                                 && Exhausted(c.maxRedelivery, RetryCount(copy.msg.headers)))
    && (copy.place.Retried? ==> s.attempts[copy.place.attempt].child.Some? || Leaky(c, m))
    && (Gone(copy.place) ==> s.attempts[copy.place.attempt].phase == Finished)
  }

  ghost predicate GoodAttempt(c: Config, m: Publishing, s: State, a: nat)
    requires a < |s.attempts|
  {
    var t := s.attempts[a];
    && t.copy < |s.copies| && !Swallows(c, m)
    && t.count == RetryCount(s.copies[t.copy].msg.headers)
    && (t.phase == AtHandler <==> t.outcome.None?)
    && (t.phase == AtPublish ==> 0 < c.maxRedelivery && t.count < c.maxRedelivery)
    && (t.child.Some? ==> t.copy < t.child.value < |s.copies| && t.count < c.maxRedelivery && 0 < c.maxRedelivery
                          && (t.phase == AtSettle(AckRetried) || t.phase == AtSettle(NackRequeue)
                              || t.phase == Finished)
                          && s.copies[t.child.value].msg == RetryOf(s.copies[t.copy].msg))
    && (t.replaced <==> s.copies[t.copy].place == Retried(a))
    && (t.replaced ==> t.phase == Finished && (t.child.Some? || Leaky(c, m)))
    && (t.child.Some? && t.phase == Finished && !t.broken ==> t.replaced)
    && (t.phase == AtSettle(AckDone) ==> t.outcome == Some(true))
    && (t.phase == AtSettle(NackReject) ==> t.outcome == Some(false) && Exhausted(c.maxRedelivery, t.count))
    && (t.phase == AtSettle(AckRetried) ==> t.child.Some? || Leaky(c, m))
    && (t.phase == AtSettle(NackRequeue) ==> t.broken || c.maxRedelivery == 0)
    && (!t.broken && t.phase != Finished ==> s.copies[t.copy].place == Unacked(a))
    && (t.broken && s.copies[t.copy].place == Unacked(a) ==> t.phase == AtSettle(NackRequeue) || t.phase == Finished)
  }

  ghost predicate Inv(c: Config, m: Publishing, s: State) {
    && |s.copies| > 0
    && (forall k :: 0 <= k < |s.copies| ==> GoodCopy(c, m, s, k))
    && (forall a :: 0 <= a < |s.attempts| ==> GoodAttempt(c, m, s, a))
  }

  lemma InitialHolds(c: Config, m: Publishing)
    ensures Inv(c, m, Initial(m))
  {
  }

  // All copies look like heartbeats, or none does.
  lemma CopiesAreAlike(c: Config, m: Publishing, s: State, k: nat)
    requires Inv(c, m, s) && k < |s.copies|
    ensures Swallows(c, s.copies[k].msg) <==> Swallows(c, m)
  {
    assert GoodCopy(c, m, s, k);
    HeartbeatStays(m, RetryCount(s.copies[k].msg.headers));
  }

  lemma HandKeeps(c: Config, m: Publishing, s: State, k: nat, t: State)
    requires Inv(c, m, s) && Next(c, s, Hand(k)) == Some(t)
    ensures Inv(c, m, t)
  {
    CopiesAreAlike(c, m, s, k);
    forall j | 0 <= j < |t.copies| ensures GoodCopy(c, m, t, j) { assert GoodCopy(c, m, s, j); }
    forall a | 0 <= a < |s.attempts| ensures GoodAttempt(c, m, t, a) { assert GoodAttempt(c, m, s, a); }
  }

  lemma HandlerKeeps(c: Config, m: Publishing, s: State, a: nat, ok: bool, t: State)
    requires Inv(c, m, s) && Next(c, s, HandlerReturns(a, ok)) == Some(t)
    ensures Inv(c, m, t)
  {
    forall j | 0 <= j < |t.copies| ensures GoodCopy(c, m, t, j) { assert GoodCopy(c, m, s, j); }
    forall b | 0 <= b < |s.attempts| ensures GoodAttempt(c, m, t, b) { assert GoodAttempt(c, m, s, b); }
  }

  // What the other lemmas on a republish start from: the attempt, its copy, and the retry.
  lemma RepublishFacts(c: Config, m: Publishing, s: State, a: nat, accepted: bool, confirmed: bool, t: State)
    requires Inv(c, m, s) && Next(c, s, Republish(a, accepted, confirmed)) == Some(t)
    ensures GoodAttempt(c, m, s, a) && GoodCopy(c, m, s, s.attempts[a].copy)
    ensures var r := RetryOf(s.copies[s.attempts[a].copy].msg);
      RetryCount(r.headers) == s.attempts[a].count + 1 && r == WithCounter(m, s.attempts[a].count + 1)
  {
    assert GoodAttempt(c, m, s, a);
    assert GoodCopy(c, m, s, s.attempts[a].copy);
    RetryCounts(m, s.copies[s.attempts[a].copy].msg);
  }

  lemma RepublishKeepsOldCopy(c: Config, m: Publishing, s: State, a: nat, accepted: bool, confirmed: bool, t: State,
      j: nat)
    requires Inv(c, m, s) && Next(c, s, Republish(a, accepted, confirmed)) == Some(t) && j < |s.copies|
    ensures j < |t.copies| && GoodCopy(c, m, t, j)
  {
    assert GoodCopy(c, m, s, j);
  }

  lemma RepublishMakesGoodCopy(c: Config, m: Publishing, s: State, a: nat, confirmed: bool, t: State)
    requires Inv(c, m, s) && Next(c, s, Republish(a, true, confirmed)) == Some(t) && c.routed
    ensures |t.copies| == |s.copies| + 1 && GoodCopy(c, m, t, |s.copies|)
  {
    RepublishFacts(c, m, s, a, true, confirmed, t);
  }

  lemma RepublishKeepsAttempt(c: Config, m: Publishing, s: State, a: nat, accepted: bool, confirmed: bool, t: State,
      b: nat)
    requires Inv(c, m, s) && Next(c, s, Republish(a, accepted, confirmed)) == Some(t) && b < |s.attempts|
    ensures |t.attempts| == |s.attempts| && GoodAttempt(c, m, t, b)
  {
    assert GoodAttempt(c, m, s, b);
    if b == a { RepublishFacts(c, m, s, a, accepted, confirmed, t); }
  }

  lemma RepublishKeeps(c: Config, m: Publishing, s: State, a: nat, accepted: bool, confirmed: bool, t: State)
    requires Inv(c, m, s) && Next(c, s, Republish(a, accepted, confirmed)) == Some(t)
    ensures Inv(c, m, t)
  {
    forall j | 0 <= j < |t.copies| ensures GoodCopy(c, m, t, j) {
      if j < |s.copies| {
        RepublishKeepsOldCopy(c, m, s, a, accepted, confirmed, t, j);
      } else {
        RepublishMakesGoodCopy(c, m, s, a, confirmed, t);
      }
    }
    forall b | 0 <= b < |t.attempts| ensures GoodAttempt(c, m, t, b) {
      RepublishKeepsAttempt(c, m, s, a, accepted, confirmed, t, b);
    }
  }

  lemma SettleKeepsCopy(c: Config, m: Publishing, s: State, a: nat, applied: bool, t: State, j: nat)
    requires Inv(c, m, s) && Next(c, s, Settle(a, applied)) == Some(t) && j < |s.copies|
    ensures |t.copies| == |s.copies| && GoodCopy(c, m, t, j)
  {
    assert GoodAttempt(c, m, s, a);
    assert GoodCopy(c, m, s, j);
  }

  lemma SettleKeepsAttempt(c: Config, m: Publishing, s: State, a: nat, applied: bool, t: State, b: nat)
    requires Inv(c, m, s) && Next(c, s, Settle(a, applied)) == Some(t) && b < |s.attempts|
    ensures |t.attempts| == |s.attempts| && GoodAttempt(c, m, t, b)
  {
    assert GoodAttempt(c, m, s, a);
    assert GoodAttempt(c, m, s, b);
  }

  lemma SettleKeeps(c: Config, m: Publishing, s: State, a: nat, applied: bool, t: State)
    requires Inv(c, m, s) && Next(c, s, Settle(a, applied)) == Some(t)
    ensures Inv(c, m, t)
  {
    forall j | 0 <= j < |t.copies| ensures GoodCopy(c, m, t, j) { SettleKeepsCopy(c, m, s, a, applied, t, j); }
    forall b | 0 <= b < |t.attempts| ensures GoodAttempt(c, m, t, b) { SettleKeepsAttempt(c, m, s, a, applied, t, b); }
  }

  lemma LoseKeeps(c: Config, m: Publishing, s: State, k: nat, t: State)
    requires Inv(c, m, s) && Next(c, s, Lose(k)) == Some(t)
    ensures Inv(c, m, t)
  {
    assert GoodCopy(c, m, s, k);
    forall j | 0 <= j < |t.copies| ensures GoodCopy(c, m, t, j) { assert GoodCopy(c, m, s, j); }
    forall b | 0 <= b < |s.attempts| ensures GoodAttempt(c, m, t, b) { assert GoodAttempt(c, m, s, b); }
  }

  lemma NoAttempts(c: Config, m: Publishing, s: State)
    requires Inv(c, m, s) && Swallows(c, m)
    ensures s.attempts == []
  {
    assert s.attempts != [] ==> GoodAttempt(c, m, s, 0);
  }

  lemma SwallowKeeps(c: Config, m: Publishing, s: State, k: nat, t: State)
    requires Inv(c, m, s) && Next(c, s, Swallow(k)) == Some(t)
    ensures Inv(c, m, t) && Swallows(c, m) && t.attempts == []
  {
    CopiesAreAlike(c, m, s, k);
    NoAttempts(c, m, s);
    forall j | 0 <= j < |t.copies| ensures GoodCopy(c, m, t, j) { assert GoodCopy(c, m, s, j); }
  }

  lemma StepKeeps(c: Config, m: Publishing, s: State, e: Event, t: State)
    requires Inv(c, m, s) && Next(c, s, e) == Some(t)
    ensures Inv(c, m, t)
  {
    match e
    case Hand(k) => HandKeeps(c, m, s, k, t);
    case HandlerReturns(a, ok) => HandlerKeeps(c, m, s, a, ok, t);
    case Republish(a, accepted, confirmed) => RepublishKeeps(c, m, s, a, accepted, confirmed, t);
    case Settle(a, applied) => SettleKeeps(c, m, s, a, applied, t);
    case Swallow(k) => SwallowKeeps(c, m, s, k, t);
    case Lose(k) => LoseKeeps(c, m, s, k, t);
  }

  lemma {:induction false} RunKeeps(c: Config, m: Publishing, es: seq<Event>, run: seq<State>, i: nat)
    requires IsRun(c, m, es, run) && i < |run|
    ensures Inv(c, m, run[i])
  {
    if i == 0 {
      InitialHolds(c, m);
    } else {
      RunKeeps(c, m, es, run, i - 1);
      StepKeeps(c, m, run[i - 1], es[i - 1], run[i]);
    }
  }

  // ---------------------------------------------------------------- no loss

  // The message is still at the broker, or was handled successfully, or was rejected after
  // a failed handler call with its retries used up.
  ghost predicate Accounted(c: Config, s: State, k: nat) {
    && k < |s.copies|
    && var copy := s.copies[k];
       || Live(copy.place)
       || (copy.place.Completed? && copy.place.attempt < |s.attempts|
           && s.attempts[copy.place.attempt].outcome == Some(true))
       || (copy.place.Rejected? && copy.place.attempt < |s.attempts|
           && s.attempts[copy.place.attempt].outcome == Some(false)
           && Exhausted(c.maxRedelivery, RetryCount(copy.msg.headers)))
  }

  ghost predicate NotLost(c: Config, s: State) {
    exists k :: Accounted(c, s, k)
  }

  // Over every run with any faults, the copy made last is accounted for.
  lemma NeverLost(c: Config, m: Publishing, es: seq<Event>, run: seq<State>, i: nat)
    requires IsRun(c, m, es, run) && !Lossy(c, m) && i < |run|
    ensures |run[i].copies| > 0 && Accounted(c, run[i], |run[i].copies| - 1)
  {
    RunKeeps(c, m, es, run, i);
    var s := run[i];
    var last := |s.copies| - 1;
    assert GoodCopy(c, m, s, last);
    assert s.copies[last].place.Retried? ==> GoodAttempt(c, m, s, s.copies[last].place.attempt);
  }

  ghost predicate NeverLoses(c: Config, m: Publishing) {
    forall es, run, i :: IsRun(c, m, es, run) && 0 <= i < |run| ==> NotLost(c, run[i])
  }

  // One failure, a republish that is confirmed but routed nowhere, an applied Ack.
  lemma UnroutedRetryLoses(c: Config, m: Publishing)
    requires Leaky(c, m) && !Swallows(c, m)
    ensures !NeverLoses(c, m)
  {
    var s0 := Initial(m);
    var s1 := Next(c, s0, Hand(0)).value;
    var s2 := Next(c, s1, HandlerReturns(0, false)).value;
    var s3 := Next(c, s2, Republish(0, true, true)).value;
    var s4 := Next(c, s3, Settle(0, true)).value;
    assert IsRun(c, m, [Hand(0), HandlerReturns(0, false), Republish(0, true, true), Settle(0, true)],
        [s0, s1, s2, s3, s4]);
    assert s4.copies == [Copy(m, Retried(0))];
    assert !NotLost(c, [s0, s1, s2, s3, s4][4]);
  }

  // A caller's message with the type header of a heartbeat, on a queue that has heartbeats.
  lemma HeartbeatsAreSwallowed(c: Config, m: Publishing)
    requires Swallows(c, m)
    ensures !NeverLoses(c, m)
  {
    var s0 := Initial(m);
    var s1 := Next(c, s0, Swallow(0)).value;
    assert IsRun(c, m, [Swallow(0)], [s0, s1]);
    assert s1.copies == [Copy(m, Swallowed)];
    assert !NotLost(c, [s0, s1][1]);
  }

  // Confirms are given for unroutable messages too, and heartbeats are told by a header that
  // callers can set: no message is lost exactly when the retry route leads back to the queue,
  // or no retry is ever due, and the message does not look like a heartbeat on a queue that
  // has them.
  lemma NoLossExactly(c: Config, m: Publishing)
    ensures NeverLoses(c, m) <==>
              && (c.routed || c.maxRedelivery <= 0 || RetryCount(m.headers) >= c.maxRedelivery)
              && !(c.dummyMessageEnabled && IsHeartbeat(m.headers))
  {
    if Swallows(c, m) {
      HeartbeatsAreSwallowed(c, m);
    } else if Leaky(c, m) {
      UnroutedRetryLoses(c, m);
    } else {
      forall es, run, i | IsRun(c, m, es, run) && 0 <= i < |run| ensures NotLost(c, run[i]) {
        NeverLost(c, m, es, run, i);
      }
    }
  }

  // With MaxRedelivery = 0 the message goes back to the queue until its handler returns nil:
  // it is never copied, never rejected, and gone only after a success (or as a heartbeat).
  lemma ZeroRequeuesUntilSuccess(c: Config, m: Publishing, es: seq<Event>, run: seq<State>, i: nat)
    requires IsRun(c, m, es, run) && c.maxRedelivery == 0 && i < |run|
    ensures |run[i].copies| == 1 && run[i].copies[0].msg == m
    ensures Live(run[i].copies[0].place) || run[i].copies[0].place.Completed?
            || (run[i].copies[0].place.Swallowed? && Swallows(c, m))
  {
    RunKeeps(c, m, es, run, i);
    var s := run[i];
    assert GoodCopy(c, m, s, 0);
    assert |s.copies| > 1 ==> GoodCopy(c, m, s, 1);
    assert s.copies[0].place.Retried? ==> GoodAttempt(c, m, s, s.copies[0].place.attempt);
  }

  // ---------------------------------------------------------------- conservation

  function LiveOne(copy: Copy): int { One(Live(copy.place)) }
  function CompletedOne(copy: Copy): int { One(copy.place.Completed?) }
  function RejectedOne(copy: Copy): int { One(copy.place.Rejected?) }
  function SwallowedOne(copy: Copy): int { One(copy.place.Swallowed?) }
  function RetriedOne(copy: Copy): int { One(copy.place.Retried?) }

  function ChildOne(t: Attempt): int { One(t.child.Some?) }
  function ReplacedOne(t: Attempt): int { One(t.replaced) }

  // A fork: the broker took the republished copy and the original was not removed for it.
  function ForkOne(t: Attempt): int { One(t.child.Some? && !t.replaced) }

  ghost predicate Books(s: State) {
    && |s.copies| == 1 + Sum(ChildOne, s.attempts)
    && Sum(RetriedOne, s.copies) == Sum(ReplacedOne, s.attempts)
  }

  lemma SettleKeepsBooks(c: Config, m: Publishing, s: State, a: nat, applied: bool, t: State)
    requires Inv(c, m, s) && Books(s) && Next(c, s, Settle(a, applied)) == Some(t)
    ensures Books(t)
  {
    assert GoodAttempt(c, m, s, a);
    SumUpdate(ChildOne, s.attempts, a, t.attempts[a]);
    SumUpdate(ReplacedOne, s.attempts, a, t.attempts[a]);
    if applied { SumUpdate(RetriedOne, s.copies, s.attempts[a].copy, t.copies[s.attempts[a].copy]); }
  }

  lemma LoseKeepsBooks(c: Config, m: Publishing, s: State, k: nat, t: State)
    requires Inv(c, m, s) && Books(s) && Next(c, s, Lose(k)) == Some(t)
    ensures Books(t)
  {
    var a := s.copies[k].place.attempt;
    SumUpdate(ChildOne, s.attempts, a, t.attempts[a]);
    SumUpdate(ReplacedOne, s.attempts, a, t.attempts[a]);
    SumUpdate(RetriedOne, s.copies, k, t.copies[k]);
  }

  lemma StepKeepsBooks(c: Config, m: Publishing, s: State, e: Event, t: State)
    requires Inv(c, m, s) && Books(s) && Next(c, s, e) == Some(t)
    ensures Books(t)
  {
    match e
    case Hand(k) =>
      SumUpdate(RetriedOne, s.copies, k, t.copies[k]);
      SumAppend(ChildOne, s.attempts, t.attempts[|s.attempts|]);
      SumAppend(ReplacedOne, s.attempts, t.attempts[|s.attempts|]);
    case HandlerReturns(a, _) =>
      SumUpdate(ChildOne, s.attempts, a, t.attempts[a]);
      SumUpdate(ReplacedOne, s.attempts, a, t.attempts[a]);
    case Republish(a, _, _) =>
      assert GoodAttempt(c, m, s, a);
      SumUpdate(ChildOne, s.attempts, a, t.attempts[a]);
      SumUpdate(ReplacedOne, s.attempts, a, t.attempts[a]);
      if |t.copies| > |s.copies| { SumAppend(RetriedOne, s.copies, t.copies[|s.copies|]); }
    case Settle(a, applied) => SettleKeepsBooks(c, m, s, a, applied, t);
    case Swallow(k) => SumUpdate(RetriedOne, s.copies, k, t.copies[k]);
    case Lose(k) => LoseKeepsBooks(c, m, s, k, t);
  }

  lemma {:induction false} RunKeepsBooks(c: Config, m: Publishing, es: seq<Event>, run: seq<State>, i: nat)
    requires IsRun(c, m, es, run) && i < |run|
    ensures Books(run[i])
  {
    if i > 0 {
      RunKeepsBooks(c, m, es, run, i - 1);
      RunKeeps(c, m, es, run, i - 1);
      StepKeepsBooks(c, m, run[i - 1], es[i - 1], run[i]);
    }
  }

  lemma {:induction false} PlacesPartition(copies: seq<Copy>)
    ensures Sum(LiveOne, copies) + Sum(CompletedOne, copies) + Sum(RejectedOne, copies) + Sum(SwallowedOne, copies)
            + Sum(RetriedOne, copies) == |copies|
  {
    if copies != [] { PlacesPartition(copies[1..]); }
  }

  lemma {:induction false} ForksAreUnreplacedChildren(c: Config, m: Publishing, attempts: seq<Attempt>)
    requires forall a :: 0 <= a < |attempts| && attempts[a].replaced ==> attempts[a].child.Some?
    ensures Sum(ForkOne, attempts) == Sum(ChildOne, attempts) - Sum(ReplacedOne, attempts)
  {
    if attempts != [] { ForksAreUnreplacedChildren(c, m, attempts[1..]); }
  }

  // Live, completed, finally rejected and swallowed copies are 1 + forks, in every reachable
  // state, and none is swallowed unless the message looks like a heartbeat; in particular
  // there are at most 1 + forks dead letters.
  lemma CopiesAreConserved(c: Config, m: Publishing, es: seq<Event>, run: seq<State>, i: nat)
    requires IsRun(c, m, es, run) && !Leaky(c, m) && i < |run|
    ensures var s := run[i];
      && Sum(LiveOne, s.copies) + Sum(CompletedOne, s.copies) + Sum(RejectedOne, s.copies) + Sum(SwallowedOne, s.copies)
         == 1 + Sum(ForkOne, s.attempts)
      && Sum(RejectedOne, s.copies) <= 1 + Sum(ForkOne, s.attempts)
      && (!Swallows(c, m) ==> Sum(SwallowedOne, s.copies) == 0)
  {
    var s := run[i];
    RunKeeps(c, m, es, run, i);
    RunKeepsBooks(c, m, es, run, i);
    PlacesPartition(s.copies);
    forall a | 0 <= a < |s.attempts| && s.attempts[a].replaced ensures s.attempts[a].child.Some? {
      assert GoodAttempt(c, m, s, a);
    }
    ForksAreUnreplacedChildren(c, m, s.attempts);
    SumNonNegative(LiveOne, s.copies);
    SumNonNegative(CompletedOne, s.copies);
    SumNonNegative(SwallowedOne, s.copies);
    NothingSwallowed(c, m, s);
  }

  lemma NothingSwallowed(c: Config, m: Publishing, s: State)
    requires Inv(c, m, s)
    ensures !Swallows(c, m) ==> Sum(SwallowedOne, s.copies) == 0
  {
    if !Swallows(c, m) {
      forall k | 0 <= k < |s.copies| ensures SwallowedOne(s.copies[k]) == 0 { assert GoodCopy(c, m, s, k); }
      SumZero(SwallowedOne, s.copies);
    }
  }

  // ---------------------------------------------------------------- the retry bound

  function HandledOne(t: Attempt): int { One(t.outcome.Some?) }

  // A faulty attempt: its handler ran, and its republish failed or was ambiguous, or its
  // settlement was not applied.
  function FaultOne(t: Attempt): int { One(t.outcome.Some? && t.broken) }

  // How many handler calls a copy with this counter can still cause by itself.
  function Potential(n: Int64, count: Int64): int {
    if 0 < n && count < n then n - count + 1 else 1
  }

  // What is left of the potential of a copy: all of it until a sound attempt has spent some.
  function Pot(n: Int64, attempts: seq<Attempt>): Copy -> int {
    (copy: Copy) => if !Live(copy.place) then 0
        else Potential(n, RetryCount(copy.msg.headers)) - Spent(n, attempts, copy.place)
  }

  function Spent(n: Int64, attempts: seq<Attempt>, p: Place): int {
    if p.Unacked? && p.attempt < |attempts| then
      var t := attempts[p.attempt];
      if t.outcome.None? || t.broken then 0 else if t.child.Some? then Potential(n, t.count) else 1
    else 0
  }

  // Handler calls made, against the p0 a faulty attempt is allowed; what a faulty attempt
  // may still republish is held in reserve.
  function Cost(n: Int64, p0: int): Attempt -> int {
    (t: Attempt) => HandledOne(t) + (if t.outcome.Some? && t.broken
                          then (if t.child.Some? then 0 else Potential(n, t.count) - 1) - p0 else 0)
  }

  function Balance(n: Int64, p0: int, s: State): int {
    Sum(Pot(n, s.attempts), s.copies) + Sum(Cost(n, p0), s.attempts)
  }

  // The balance never rises, and keeps its value unless a message is completed or an
  // attempt turns faulty.
  ghost predicate Falls(n: Int64, p0: int, lossy: bool, s: State, t: State) {
    && Balance(n, p0, t) <= Balance(n, p0, s)
    && (!lossy && Sum(FaultOne, t.attempts) == Sum(FaultOne, s.attempts)
        && Sum(CompletedOne, t.copies) == Sum(CompletedOne, s.copies) ==>
          Balance(n, p0, t) == Balance(n, p0, s))
  }

  lemma HandFalls(c: Config, m: Publishing, p0: int, s: State, k: nat, t: State)
    requires Inv(c, m, s) && Next(c, s, Hand(k)) == Some(t)
    ensures Falls(c.maxRedelivery, p0, Lossy(c, m), s, t)
  {
    var n := c.maxRedelivery;
    forall j | 0 <= j < |s.copies| ensures Pot(n, s.attempts)(s.copies[j]) == Pot(n, t.attempts)(t.copies[j]) {
      assert GoodCopy(c, m, s, j);
    }
    SumSame(Pot(n, s.attempts), s.copies, Pot(n, t.attempts), t.copies);
    SumAppend(Cost(n, p0), s.attempts, t.attempts[|s.attempts|]);
  }

  // An attempt changes; only the copy it owns, if any, can change its pot.
  lemma PotsShift(c: Config, m: Publishing, s: State, a: nat, t: Attempt, p: Place)
    requires Inv(c, m, s) && a < |s.attempts| && t.copy == s.attempts[a].copy
    ensures var n, k := c.maxRedelivery, t.copy;
            && k < |s.copies|
            && var copies := s.copies[k := s.copies[k].(place := p)];
               Sum(Pot(n, s.attempts[a := t]), copies)
               == Sum(Pot(n, s.attempts), s.copies) - Pot(n, s.attempts)(s.copies[k])
                   + Pot(n, s.attempts[a := t])(copies[k])
  {
    var n, k := c.maxRedelivery, t.copy;
    assert GoodAttempt(c, m, s, a);
    var copies := s.copies[k := s.copies[k].(place := p)];
    forall j | 0 <= j < |copies| && j != k
      ensures Pot(n, s.attempts)(s.copies[j]) == Pot(n, s.attempts[a := t])(copies[j])
    {
      assert GoodCopy(c, m, s, j);
    }
    SumShift(Pot(n, s.attempts), s.copies, Pot(n, s.attempts[a := t]), copies, k);
  }

  lemma HandlerFalls(c: Config, m: Publishing, p0: int, s: State, a: nat, ok: bool, t: State)
    requires Inv(c, m, s) && Next(c, s, HandlerReturns(a, ok)) == Some(t)
    requires Potential(c.maxRedelivery, s.attempts[a].count) <= p0
    ensures Falls(c.maxRedelivery, p0, Lossy(c, m), s, t)
  {
    var n, k := c.maxRedelivery, s.attempts[a].copy;
    assert GoodAttempt(c, m, s, a);
    PotsShift(c, m, s, a, t.attempts[a], s.copies[k].place);
    assert s.copies[k := s.copies[k].(place := s.copies[k].place)] == s.copies;
    SumUpdate(Cost(n, p0), s.attempts, a, t.attempts[a]);
    SumUpdate(FaultOne, s.attempts, a, t.attempts[a]);
  }

  // What an event does to the balance through one attempt and the copy it is made at.
  function Change(n: Int64, p0: int, s: State, t: State, a: nat, k: nat): int
    requires a < |s.attempts| && a < |t.attempts| && k < |s.copies| && k < |t.copies|
  {
    Pot(n, t.attempts)(t.copies[k]) - Pot(n, s.attempts)(s.copies[k]) + Cost(n, p0)(t.attempts[a])
        - Cost(n, p0)(s.attempts[a])
  }

  lemma RepublishChange(c: Config, m: Publishing, p0: int, s: State, a: nat, accepted: bool, confirmed: bool, t: State)
    requires Inv(c, m, s) && Next(c, s, Republish(a, accepted, confirmed)) == Some(t)
    requires Potential(c.maxRedelivery, s.attempts[a].count) <= p0
    ensures s.attempts[a].copy < |s.copies| <= |t.copies|
    ensures var n := c.maxRedelivery;
      var d := Change(n, p0, s, t, a, s.attempts[a].copy)
               + if accepted && c.routed then Pot(n, t.attempts)(t.copies[|s.copies|]) else 0;
      && d <= 0
      && (!Leaky(c, m) && FaultOne(t.attempts[a]) == FaultOne(s.attempts[a]) ==> d == 0)
  {
    RepublishFacts(c, m, s, a, accepted, confirmed, t);
  }

  lemma RepublishFalls(c: Config, m: Publishing, p0: int, s: State, a: nat, accepted: bool, confirmed: bool, t: State)
    requires Inv(c, m, s) && Next(c, s, Republish(a, accepted, confirmed)) == Some(t)
    requires Potential(c.maxRedelivery, s.attempts[a].count) <= p0
    ensures Falls(c.maxRedelivery, p0, Lossy(c, m), s, t)
  {
    RepublishChange(c, m, p0, s, a, accepted, confirmed, t);
    var n, k := c.maxRedelivery, s.attempts[a].copy;
    PotsShift(c, m, s, a, t.attempts[a], s.copies[k].place);
    assert s.copies[k := s.copies[k].(place := s.copies[k].place)] == s.copies;
    SumUpdate(Cost(n, p0), s.attempts, a, t.attempts[a]);
    SumUpdate(FaultOne, s.attempts, a, t.attempts[a]);
    if accepted && c.routed { SumAppend(Pot(n, t.attempts), s.copies, t.copies[|s.copies|]); }
  }

  lemma SettleChange(c: Config, m: Publishing, p0: int, s: State, a: nat, applied: bool, t: State)
    requires Inv(c, m, s) && c.maxRedelivery != 0 && Next(c, s, Settle(a, applied)) == Some(t)
    requires Potential(c.maxRedelivery, s.attempts[a].count) <= p0
    ensures s.attempts[a].copy < |s.copies| == |t.copies|
    ensures var k := s.attempts[a].copy; var d := Change(c.maxRedelivery, p0, s, t, a, k);
      && d <= 0
      && (!Leaky(c, m) && FaultOne(t.attempts[a]) == FaultOne(s.attempts[a])
          && CompletedOne(t.copies[k]) == CompletedOne(s.copies[k])
          ==> d == 0)
  {
    assert GoodAttempt(c, m, s, a);
  }

  lemma SettleFalls(c: Config, m: Publishing, p0: int, s: State, a: nat, applied: bool, t: State)
    requires Inv(c, m, s) && c.maxRedelivery != 0 && Next(c, s, Settle(a, applied)) == Some(t)
    requires Potential(c.maxRedelivery, s.attempts[a].count) <= p0
    ensures Falls(c.maxRedelivery, p0, Lossy(c, m), s, t)
  {
    SettleChange(c, m, p0, s, a, applied, t);
    var n, k := c.maxRedelivery, s.attempts[a].copy;
    PotsShift(c, m, s, a, t.attempts[a], t.copies[k].place);
    assert s.copies[k := s.copies[k].(place := t.copies[k].place)] == t.copies;
    SumUpdate(Cost(n, p0), s.attempts, a, t.attempts[a]);
    SumUpdate(FaultOne, s.attempts, a, t.attempts[a]);
    SumUpdate(CompletedOne, s.copies, k, t.copies[k]);
  }

  lemma LoseFalls(c: Config, m: Publishing, p0: int, s: State, k: nat, t: State)
    requires Inv(c, m, s) && Next(c, s, Lose(k)) == Some(t)
    requires Potential(c.maxRedelivery, RetryCount(s.copies[k].msg.headers)) <= p0
    ensures Falls(c.maxRedelivery, p0, Lossy(c, m), s, t)
  {
    var n, a := c.maxRedelivery, s.copies[k].place.attempt;
    assert GoodCopy(c, m, s, k);
    assert GoodAttempt(c, m, s, a);
    PotsShift(c, m, s, a, t.attempts[a], Ready);
    SumUpdate(Cost(n, p0), s.attempts, a, t.attempts[a]);
    SumUpdate(FaultOne, s.attempts, a, t.attempts[a]);
  }

  lemma SwallowFalls(c: Config, m: Publishing, p0: int, s: State, k: nat, t: State)
    requires Inv(c, m, s) && Next(c, s, Swallow(k)) == Some(t)
    ensures Falls(c.maxRedelivery, p0, Lossy(c, m), s, t)
  {
    SwallowKeeps(c, m, s, k, t);
    SumUpdate(Pot(c.maxRedelivery, s.attempts), s.copies, k, t.copies[k]);
  }

  lemma NoPotentialAboveFirst(c: Config, m: Publishing, s: State, k: nat)
    requires Inv(c, m, s) && k < |s.copies|
    ensures Potential(c.maxRedelivery, RetryCount(s.copies[k].msg.headers))
            <= Potential(c.maxRedelivery, RetryCount(m.headers))
  {
    assert GoodCopy(c, m, s, k);
  }

  lemma StepFalls(c: Config, m: Publishing, s: State, e: Event, t: State)
    requires Inv(c, m, s) && c.maxRedelivery != 0 && Next(c, s, e) == Some(t)
    ensures Falls(c.maxRedelivery, Potential(c.maxRedelivery, RetryCount(m.headers)), Lossy(c, m), s, t)
  {
    var p0 := Potential(c.maxRedelivery, RetryCount(m.headers));
    if e.HandlerReturns? || e.Republish? || e.Settle? {
      assert GoodAttempt(c, m, s, e.a);
      NoPotentialAboveFirst(c, m, s, s.attempts[e.a].copy);
    }
    match e
    case Hand(k) => HandFalls(c, m, p0, s, k, t);
    case HandlerReturns(a, ok) => HandlerFalls(c, m, p0, s, a, ok, t);
    case Republish(a, accepted, confirmed) => RepublishFalls(c, m, p0, s, a, accepted, confirmed, t);
    case Settle(a, applied) => SettleFalls(c, m, p0, s, a, applied, t);
    case Swallow(k) => SwallowFalls(c, m, p0, s, k, t);
    case Lose(k) => NoPotentialAboveFirst(c, m, s, k); LoseFalls(c, m, p0, s, k, t);
  }

  lemma {:induction false} RunFalls(c: Config, m: Publishing, es: seq<Event>, run: seq<State>, i: nat)
    requires IsRun(c, m, es, run) && c.maxRedelivery != 0 && i < |run|
    ensures var p0 := Potential(c.maxRedelivery, RetryCount(m.headers));
            Balance(c.maxRedelivery, p0, run[i]) <= p0
  {
    if i == 0 {
      SumOne(Pot(c.maxRedelivery, []), Copy(m, Ready));
    } else {
      RunFalls(c, m, es, run, i - 1);
      RunKeeps(c, m, es, run, i - 1);
      StepFalls(c, m, run[i - 1], es[i - 1], run[i]);
    }
  }

  lemma {:induction false} CostCoversCalls(n: Int64, p0: int, attempts: seq<Attempt>)
    ensures Sum(Cost(n, p0), attempts) >= Sum(HandledOne, attempts) - p0 * Sum(FaultOne, attempts)
  {
    if attempts != [] {
      CostCoversCalls(n, p0, attempts[1..]);
      var faults, first := Sum(FaultOne, attempts[1..]), FaultOne(attempts[0]);
      assert p0 * (first + faults) == p0 * first + p0 * faults;
    }
  }

  lemma PotsAreNonNegative(c: Config, m: Publishing, s: State)
    requires Inv(c, m, s)
    ensures Sum(Pot(c.maxRedelivery, s.attempts), s.copies) >= 0
  {
    forall k | 0 <= k < |s.copies| ensures Pot(c.maxRedelivery, s.attempts)(s.copies[k]) >= 0 {
      assert GoodCopy(c, m, s, k);
      assert s.copies[k].place.Unacked? ==> GoodAttempt(c, m, s, s.copies[k].place.attempt);
    }
    SumNonNegative(Pot(c.maxRedelivery, s.attempts), s.copies);
  }

  lemma CallsWithinPotential(c: Config, m: Publishing, es: seq<Event>, run: seq<State>, i: nat)
    requires IsRun(c, m, es, run) && c.maxRedelivery != 0 && i < |run|
    ensures Sum(HandledOne, run[i].attempts)
            <= Potential(c.maxRedelivery, RetryCount(m.headers)) * (1 + Sum(FaultOne, run[i].attempts))
  {
    var p0 := Potential(c.maxRedelivery, RetryCount(m.headers));
    RunKeeps(c, m, es, run, i);
    RunFalls(c, m, es, run, i);
    PotsAreNonNegative(c, m, run[i]);
    CostCoversCalls(c.maxRedelivery, p0, run[i].attempts);
  }

  // With N = MaxRedelivery > 0 and a first counter c0, handlers are called on all copies of
  // the message together at most (N - c0 + 1) * (1 + F) times, F being the faulty attempts;
  // with N = -1 at most 1 + F times.  A negative preset counter buys extra retries.
  lemma HandlerCallsAreBounded(c: Config, m: Publishing, es: seq<Event>, run: seq<State>, i: nat)
    requires IsRun(c, m, es, run) && c.maxRedelivery != 0 && i < |run|
    ensures var first := RetryCount(m.headers);
            Sum(HandledOne, run[i].attempts)
            <= (if 0 < c.maxRedelivery && first < c.maxRedelivery then c.maxRedelivery - first + 1 else 1)
               * (1 + Sum(FaultOne, run[i].attempts))
  {
    CallsWithinPotential(c, m, es, run, i);
  }

  // ---------------------------------------------------------------- runs are finite

  function Rank(t: Attempt): int {
    match t.phase
    case AtHandler => 1
    case AtPublish => 2
    case AtSettle(_) => 3
    case Finished => 4
  }

  // A settlement owed by an attempt, or made without one.
  function OwedOne(copy: Copy): int { One(copy.place.Unacked?) - One(copy.place.Swallowed?) }
  function UnhandledOne(t: Attempt): int { One(t.outcome.None?) }

  // Grows with every event, and by at most 5 per attempt.
  function Progress(s: State): int {
    Sum(Rank, s.attempts) + |s.attempts| - Sum(OwedOne, s.copies)
  }

  lemma SettleProgresses(c: Config, m: Publishing, s: State, a: nat, applied: bool, t: State)
    requires Inv(c, m, s) && Next(c, s, Settle(a, applied)) == Some(t)
    ensures Progress(t) > Progress(s)
  {
    assert GoodAttempt(c, m, s, a);
    SumUpdate(Rank, s.attempts, a, t.attempts[a]);
    if applied { SumUpdate(OwedOne, s.copies, s.attempts[a].copy, t.copies[s.attempts[a].copy]); }
  }

  lemma LoseProgresses(c: Config, m: Publishing, s: State, k: nat, t: State)
    requires Inv(c, m, s) && Next(c, s, Lose(k)) == Some(t)
    ensures Progress(t) > Progress(s)
  {
    SumUpdate(Rank, s.attempts, s.copies[k].place.attempt, t.attempts[s.copies[k].place.attempt]);
    SumUpdate(OwedOne, s.copies, k, t.copies[k]);
  }

  lemma StepProgresses(c: Config, m: Publishing, s: State, e: Event, t: State)
    requires Inv(c, m, s) && Next(c, s, e) == Some(t)
    ensures Progress(t) > Progress(s)
  {
    match e
    case Hand(k) =>
      SumUpdate(OwedOne, s.copies, k, t.copies[k]);
      SumAppend(Rank, s.attempts, t.attempts[|s.attempts|]);
    case HandlerReturns(a, _) => SumUpdate(Rank, s.attempts, a, t.attempts[a]);
    case Republish(a, _, _) =>
      SumUpdate(Rank, s.attempts, a, t.attempts[a]);
      if |t.copies| > |s.copies| { SumAppend(OwedOne, s.copies, t.copies[|s.copies|]); }
    case Settle(a, applied) => SettleProgresses(c, m, s, a, applied, t);
    case Swallow(k) => SumUpdate(OwedOne, s.copies, k, t.copies[k]);
    case Lose(k) => LoseProgresses(c, m, s, k, t);
  }

  lemma {:induction false} RunProgresses(c: Config, m: Publishing, es: seq<Event>, run: seq<State>, i: nat)
    requires IsRun(c, m, es, run) && i < |run|
    ensures i <= Progress(run[i])
  {
    if i == 0 {
      SumOne(OwedOne, Copy(m, Ready));
    } else {
      RunProgresses(c, m, es, run, i - 1);
      RunKeeps(c, m, es, run, i - 1);
      StepProgresses(c, m, run[i - 1], es[i - 1], run[i]);
    }
  }

  lemma {:induction false} RanksAreBounded(attempts: seq<Attempt>)
    ensures Sum(Rank, attempts) <= 4 * |attempts|
    ensures |attempts| == Sum(HandledOne, attempts) + Sum(UnhandledOne, attempts)
  {
    if attempts != [] { RanksAreBounded(attempts[1..]); }
  }

  lemma LittleIsOwed(c: Config, m: Publishing, s: State)
    requires Inv(c, m, s) && Books(s)
    ensures Sum(OwedOne, s.copies) >= if Swallows(c, m) then -1 else 0
    ensures Swallows(c, m) ==> s.attempts == []
  {
    if Swallows(c, m) {
      NoAttempts(c, m, s);
      assert |s.copies| == 1 && s.copies == [s.copies[0]];
      SumOne(OwedOne, s.copies[0]);
    } else {
      forall k | 0 <= k < |s.copies| ensures OwedOne(s.copies[k]) >= 0 { assert GoodCopy(c, m, s, k); }
      SumNonNegative(OwedOne, s.copies);
    }
  }

  // Every run is finite once the faulty attempts and the deliveries that never reached a
  // handler are: its length is bounded in their numbers alone.
  lemma RunsAreFinite(c: Config, m: Publishing, es: seq<Event>, run: seq<State>)
    requires IsRun(c, m, es, run) && c.maxRedelivery != 0
    ensures var s := run[|es|];
            |es| <= 5 * (Potential(c.maxRedelivery, RetryCount(m.headers)) * (1 + Sum(FaultOne, s.attempts))
                         + Sum(UnhandledOne, s.attempts))
  {
    var s := run[|es|];
    RunKeeps(c, m, es, run, |es|);
    RunKeepsBooks(c, m, es, run, |es|);
    RunProgresses(c, m, es, run, |es|);
    RanksAreBounded(s.attempts);
    LittleIsOwed(c, m, s);
    CallsWithinPotential(c, m, es, run, |es|);
  }

  // ---------------------------------------------------------------- the exact fault-free run

  lemma {:induction false} FaultsOnlyGrow(c: Config, m: Publishing, es: seq<Event>, run: seq<State>, i: nat, j: nat)
    requires IsRun(c, m, es, run) && i <= j < |run|
    ensures Sum(FaultOne, run[i].attempts) <= Sum(FaultOne, run[j].attempts)
    ensures Sum(CompletedOne, run[i].copies) <= Sum(CompletedOne, run[j].copies)
  {
    if i < j {
      FaultsOnlyGrow(c, m, es, run, i, j - 1);
      RunKeeps(c, m, es, run, j - 1);
      StepOnlyAddsFaults(c, m, run[j - 1], es[j - 1], run[j]);
    }
  }

  lemma StepOnlyAddsFaults(c: Config, m: Publishing, s: State, e: Event, t: State)
    requires Inv(c, m, s) && Next(c, s, e) == Some(t)
    ensures Sum(FaultOne, s.attempts) <= Sum(FaultOne, t.attempts)
    ensures Sum(CompletedOne, s.copies) <= Sum(CompletedOne, t.copies)
  {
    match e
    case Hand(k) =>
      SumAppend(FaultOne, s.attempts, t.attempts[|s.attempts|]);
      SumUpdate(CompletedOne, s.copies, k, t.copies[k]);
    case HandlerReturns(a, _) => SumUpdate(FaultOne, s.attempts, a, t.attempts[a]);
    case Republish(a, _, _) =>
      SumUpdate(FaultOne, s.attempts, a, t.attempts[a]);
      if |t.copies| > |s.copies| { SumAppend(CompletedOne, s.copies, t.copies[|s.copies|]); }
    case Settle(a, applied) =>
      SumUpdate(FaultOne, s.attempts, a, t.attempts[a]);
      if applied { SumUpdate(CompletedOne, s.copies, s.attempts[a].copy, t.copies[s.attempts[a].copy]); }
    case Swallow(k) => SumUpdate(CompletedOne, s.copies, k, t.copies[k]);
    case Lose(k) =>
      SumUpdate(FaultOne, s.attempts, s.copies[k].place.attempt, t.attempts[s.copies[k].place.attempt]);
      SumUpdate(CompletedOne, s.copies, k, t.copies[k]);
  }

  lemma {:induction false} RunBalances(c: Config, m: Publishing, es: seq<Event>, run: seq<State>, i: nat)
    requires IsRun(c, m, es, run) && c.maxRedelivery != 0 && !Lossy(c, m) && i < |run|
    requires Sum(FaultOne, run[i].attempts) == 0 && Sum(CompletedOne, run[i].copies) == 0
    ensures var p0 := Potential(c.maxRedelivery, RetryCount(m.headers));
            Balance(c.maxRedelivery, p0, run[i]) == p0
  {
    if i == 0 {
      SumOne(Pot(c.maxRedelivery, []), Copy(m, Ready));
    } else {
      FaultsOnlyGrow(c, m, es, run, i - 1, i);
      SumNonNegative(FaultOne, run[i - 1].attempts);
      SumNonNegative(CompletedOne, run[i - 1].copies);
      RunBalances(c, m, es, run, i - 1);
      RunKeeps(c, m, es, run, i - 1);
      StepFalls(c, m, run[i - 1], es[i - 1], run[i]);
    }
  }

  // In a run in which every handler call fails and nothing is faulty, once no copy is left
  // the handler was called exactly N - c0 + 1 times (N + 1 times for a new message, once for
  // N = -1) and exactly one copy was rejected; a message taken for a heartbeat was not
  // handled at all.
  lemma FaultFreeFailure(c: Config, m: Publishing, es: seq<Event>, run: seq<State>)
    requires IsRun(c, m, es, run) && c.maxRedelivery != 0 && !Leaky(c, m)
    requires Sum(FaultOne, run[|es|].attempts) == 0 && Sum(CompletedOne, run[|es|].copies) == 0
    requires Sum(LiveOne, run[|es|].copies) == 0
    ensures var first := RetryCount(m.headers);
            Sum(HandledOne, run[|es|].attempts)
            == if Swallows(c, m) then 0
               else if 0 < c.maxRedelivery && first < c.maxRedelivery then c.maxRedelivery - first + 1 else 1
    ensures Sum(RejectedOne, run[|es|].copies) == if Swallows(c, m) then 0 else 1
  {
    RunKeeps(c, m, es, run, |es|);
    if Swallows(c, m) {
      NothingHandled(c, m, run[|es|]);
    } else {
      FaultFreeHandling(c, m, es, run);
    }
  }

  lemma NothingHandled(c: Config, m: Publishing, s: State)
    requires Inv(c, m, s) && Swallows(c, m)
    ensures s.attempts == [] && Sum(RejectedOne, s.copies) == 0
  {
    NoAttempts(c, m, s);
    forall k | 0 <= k < |s.copies| ensures RejectedOne(s.copies[k]) == 0 { assert GoodCopy(c, m, s, k); }
    SumZero(RejectedOne, s.copies);
  }

  lemma FaultFreeHandling(c: Config, m: Publishing, es: seq<Event>, run: seq<State>)
    requires IsRun(c, m, es, run) && c.maxRedelivery != 0 && !Lossy(c, m)
    requires Sum(FaultOne, run[|es|].attempts) == 0 && Sum(CompletedOne, run[|es|].copies) == 0
    requires Sum(LiveOne, run[|es|].copies) == 0
    ensures Sum(HandledOne, run[|es|].attempts) == Potential(c.maxRedelivery, RetryCount(m.headers))
    ensures Sum(RejectedOne, run[|es|].copies) == 1
  {
    var n, s := c.maxRedelivery, run[|es|];
    var p0 := Potential(n, RetryCount(m.headers));
    RunKeeps(c, m, es, run, |es|);
    RunBalances(c, m, es, run, |es|);
    CopiesAreConserved(c, m, es, run, |es|);
    NothingLive(s);
    SumZero(Pot(n, s.attempts), s.copies);
    NothingFaulty(s);
    SumSame(Cost(n, p0), s.attempts, HandledOne, s.attempts);
    forall a | 0 <= a < |s.attempts| ensures ForkOne(s.attempts[a]) == 0 { assert GoodAttempt(c, m, s, a); }
    SumZero(ForkOne, s.attempts);
  }

  lemma NothingLive(s: State)
    requires Sum(LiveOne, s.copies) == 0
    ensures forall k :: 0 <= k < |s.copies| ==> !Live(s.copies[k].place)
  {
    forall k | 0 <= k < |s.copies| ensures !Live(s.copies[k].place) { SumAtLeast(LiveOne, s.copies, k); }
  }

  lemma NothingFaulty(s: State)
    requires Sum(FaultOne, s.attempts) == 0
    ensures forall a :: 0 <= a < |s.attempts| ==> s.attempts[a].outcome.None? || !s.attempts[a].broken
  {
    forall a | 0 <= a < |s.attempts| ensures FaultOne(s.attempts[a]) == 0 { SumAtLeast(FaultOne, s.attempts, a); }
  }

  // Whatever the faults, a rejected copy is the original message with its counter at N, or,
  // when the retries were used up from the start (N = -1 included), the original itself.
  lemma DeadLetterIsTheOriginal(c: Config, m: Publishing, es: seq<Event>, run: seq<State>, i: nat, k: nat)
    requires IsRun(c, m, es, run) && i < |run| && k < |run[i].copies| && run[i].copies[k].place.Rejected?
    ensures var msg := run[i].copies[k].msg;
            if Exhausted(c.maxRedelivery, RetryCount(m.headers)) then msg == m
            else c.maxRedelivery > 0 && msg == WithCounter(m, c.maxRedelivery)
  {
    RunKeeps(c, m, es, run, i);
    assert GoodCopy(c, m, run[i], k);
    if k > 0 && Exhausted(c.maxRedelivery, RetryCount(m.headers)) { OnlyOneCopy(c, m, es, run, i); }
  }

  lemma NoCopyIfExhausted(c: Config, m: Publishing, s: State, e: Event, t: State)
    requires Inv(c, m, s) && Exhausted(c.maxRedelivery, RetryCount(m.headers)) && Next(c, s, e) == Some(t)
    ensures |t.copies| == |s.copies|
  {
    forall a | 0 <= a < |s.attempts| ensures s.attempts[a].phase != AtPublish {
      assert GoodAttempt(c, m, s, a);
      assert GoodCopy(c, m, s, s.attempts[a].copy);
    }
  }

  lemma {:induction false} OnlyOneCopy(c: Config, m: Publishing, es: seq<Event>, run: seq<State>, i: nat)
    requires IsRun(c, m, es, run) && i < |run| && Exhausted(c.maxRedelivery, RetryCount(m.headers))
    ensures |run[i].copies| == 1
  {
    if i > 0 {
      OnlyOneCopy(c, m, es, run, i - 1);
      RunKeeps(c, m, es, run, i - 1);
      NoCopyIfExhausted(c, m, run[i - 1], es[i - 1], run[i]);
    }
  }

  // ---------------------------------------------------------------- new messages

  // A message no SDK has retried yet, and that the queue does not take for a heartbeat.
  predicate IsNew(c: Config, m: Publishing) {
    && "x-huma-redelivery-count" !in m.headers
    && !(c.dummyMessageEnabled && "type" in m.headers && m.headers["type"] == TextValue("heartbeat"))
  }

  // MaxRedelivery = N > 0 means N + 1 handler calls, and MaxRedelivery = -1 means one, when
  // all of them fail and nothing is faulty.  Then one copy is rejected: the message with its
  // counter at N, or as it was.
  lemma NewMessageFails(c: Config, m: Publishing, es: seq<Event>, run: seq<State>)
    requires IsRun(c, m, es, run) && c.maxRedelivery != 0 && IsNew(c, m) && (c.routed || c.maxRedelivery < 0)
    requires Sum(FaultOne, run[|es|].attempts) == 0 && Sum(CompletedOne, run[|es|].copies) == 0
    requires Sum(LiveOne, run[|es|].copies) == 0
    ensures Sum(HandledOne, run[|es|].attempts) == if c.maxRedelivery > 0 then c.maxRedelivery + 1 else 1
    ensures Sum(RejectedOne, run[|es|].copies) == 1
    ensures forall k :: 0 <= k < |run[|es|].copies| && run[|es|].copies[k].place.Rejected? ==>
              run[|es|].copies[k].msg == if c.maxRedelivery < 0 then m
              else m.(headers := m.headers["x-huma-redelivery-count" := Int64Value(c.maxRedelivery)])
  {
    FaultFreeFailure(c, m, es, run);
    forall k | 0 <= k < |run[|es|].copies| && run[|es|].copies[k].place.Rejected?
      ensures run[|es|].copies[k].msg == if c.maxRedelivery < 0 then m else WithCounter(m, c.maxRedelivery)
    {
      DeadLetterIsTheOriginal(c, m, es, run, |es|, k);
    }
  }

  // With faults, every faulty attempt can cost as many calls again.
  lemma NewMessageIsBounded(c: Config, m: Publishing, es: seq<Event>, run: seq<State>, i: nat)
    requires IsRun(c, m, es, run) && c.maxRedelivery != 0 && IsNew(c, m) && i < |run|
    ensures Sum(HandledOne, run[i].attempts)
            <= (if c.maxRedelivery > 0 then c.maxRedelivery + 1 else 1) * (1 + Sum(FaultOne, run[i].attempts))
  {
    HandlerCallsAreBounded(c, m, es, run, i);
  }

  // After j failed attempts in a row, none of them faulty: the last copy waits, and each
  // earlier one was acknowledged for its successor.
  ghost predicate FailedSoFar(c: Config, m: Publishing, j: nat, s: State) {
    && |s.copies| == j + 1 && |s.attempts| == j && s.copies[j].place.Ready?
    && RetryCount(s.copies[j].msg.headers) == RetryCount(m.headers) + j
    && (forall k :: 0 <= k < j ==> s.copies[k].place == Retried(k))
    && (forall a :: 0 <= a < j ==> !s.attempts[a].broken)
  }

  // The run in which the first j attempts fail.
  lemma {:induction false} FailTimes(c: Config, m: Publishing, j: nat) returns (es: seq<Event>, run: seq<State>)
    requires c.routed && !Swallows(c, m)
    requires j == 0 || (0 < c.maxRedelivery && RetryCount(m.headers) + j <= c.maxRedelivery)
    ensures IsRun(c, m, es, run) && FailedSoFar(c, m, j, run[|es|])
  {
    if j == 0 {
      es, run := [], [Initial(m)];
    } else {
      es, run := FailTimes(c, m, j - 1);
      var s0 := run[|es|];
      RunKeeps(c, m, es, run, |es|);
      CopiesAreAlike(c, m, s0, j - 1);
      var s1, s2, s3, s4 := FailOnce(c, m, j - 1, s0);
      OneMore(c, m, es, run, Hand(j - 1), s1);
      es, run := es + [Hand(j - 1)], run + [s1];
      OneMore(c, m, es, run, HandlerReturns(j - 1, false), s2);
      es, run := es + [HandlerReturns(j - 1, false)], run + [s2];
      OneMore(c, m, es, run, Republish(j - 1, true, true), s3);
      es, run := es + [Republish(j - 1, true, true)], run + [s3];
      OneMore(c, m, es, run, Settle(j - 1, true), s4);
      es, run := es + [Settle(j - 1, true)], run + [s4];
    }
  }

  lemma FailOnce(c: Config, m: Publishing, j: nat, s0: State) returns (s1: State, s2: State, s3: State, s4: State)
    requires c.routed && FailedSoFar(c, m, j, s0) && !Swallows(c, s0.copies[j].msg)
    requires 0 < c.maxRedelivery && RetryCount(m.headers) + j < c.maxRedelivery
    ensures Next(c, s0, Hand(j)) == Some(s1) && Next(c, s1, HandlerReturns(j, false)) == Some(s2)
    ensures Next(c, s2, Republish(j, true, true)) == Some(s3) && Next(c, s3, Settle(j, true)) == Some(s4)
    ensures FailedSoFar(c, m, j + 1, s4)
  {
    s1 := Next(c, s0, Hand(j)).value;
    s2 := Next(c, s1, HandlerReturns(j, false)).value;
    s3 := Next(c, s2, Republish(j, true, true)).value;
    s4 := Next(c, s3, Settle(j, true)).value;
  }

  // One last attempt, whose handler call ends the story.
  lemma EndIt(c: Config, m: Publishing, j: nat, ok: bool) returns (es: seq<Event>, run: seq<State>)
    requires c.routed && !Swallows(c, m)
    requires j == 0 || (0 < c.maxRedelivery && RetryCount(m.headers) + j <= c.maxRedelivery)
    requires ok || (Exhausted(c.maxRedelivery, RetryCount(m.headers) + j) && c.maxRedelivery != 0)
    ensures IsRun(c, m, es, run)
    ensures var s := run[|es|];
      && |s.copies| == j + 1 == |s.attempts|
      && (forall k :: 0 <= k < j ==> s.copies[k].place == Retried(k))
      && s.copies[j].place == (if ok then Completed(j) else Rejected(j))
      && (forall a :: 0 <= a <= j ==> !s.attempts[a].broken)
  {
    es, run := FailTimes(c, m, j);
    var s0 := run[|es|];
    RunKeeps(c, m, es, run, |es|);
    CopiesAreAlike(c, m, s0, j);
    var s1 := Next(c, s0, Hand(j)).value;
    var s2 := Next(c, s1, HandlerReturns(j, ok)).value;
    var s3 := Next(c, s2, Settle(j, true)).value;
    OneMore(c, m, es, run, Hand(j), s1);
    es, run := es + [Hand(j)], run + [s1];
    OneMore(c, m, es, run, HandlerReturns(j, ok), s2);
    es, run := es + [HandlerReturns(j, ok)], run + [s2];
    OneMore(c, m, es, run, Settle(j, true), s3);
    es, run := es + [Settle(j, true)], run + [s3];
  }

  // Such ends are reached: a new message can fail for good without any fault, and it can
  // succeed at each of its N + 1 attempts.
  lemma NewMessageCanFail(c: Config, m: Publishing)
    requires c.routed && IsNew(c, m) && c.maxRedelivery != 0
    ensures exists es: seq<Event>, run: seq<State> :: IsRun(c, m, es, run) && Sum(FaultOne, run[|es|].attempts) == 0
              && Sum(CompletedOne, run[|es|].copies) == 0 && Sum(LiveOne, run[|es|].copies) == 0
  {
    var n: nat := if c.maxRedelivery > 0 then c.maxRedelivery else 0;
    var es, run := EndIt(c, m, n, false);
    var s := run[|es|];
    SumZero(FaultOne, s.attempts);
    SumZero(CompletedOne, s.copies);
    SumZero(LiveOne, s.copies);
  }

  lemma NewMessageCanSucceed(c: Config, m: Publishing, n: nat)
    requires c.routed && IsNew(c, m)
    requires if c.maxRedelivery > 0 then n <= c.maxRedelivery else n == 0
    ensures exists es: seq<Event>, run: seq<State> :: IsRun(c, m, es, run) && Sum(FaultOne, run[|es|].attempts) == 0
              && Sum(CompletedOne, run[|es|].copies) == 1 && Sum(LiveOne, run[|es|].copies) == 0
              && |run[|es|].attempts| == n + 1
  {
    var es, run := EndIt(c, m, n, true);
    var s := run[|es|];
    SumZero(FaultOne, s.attempts);
    SumZero(LiveOne, s.copies);
    SumZero(CompletedOne, s.copies[..n]);
    SumAppend(CompletedOne, s.copies[..n], s.copies[n]);
    assert s.copies[..n] + [s.copies[n]] == s.copies;
  }
}
