/**
The worker of rabbitmqsdk.go: the consume loop, processDelivery and handleDeliveryFailure.

Everything outside the SDK (the handler, the publisher, the AMQP channel) is a call that is
logged and whose answer is arbitrary.
*/
module Consumer {
  import opened Retry
  import opened Sums

  // A call that left the SDK, with its answer.
  datatype Call =
    | Handled(tag: nat, ok: bool)                 // ok: nil; otherwise an error or a panic
    | Republished(exchange: string, routingKey: string, msg: Publishing, ok: bool)
    | Settled(tag: nat, how: Settlement, ok: bool)
    | HeartbeatAcked(tag: nat, ok: bool)
    | HeartbeatSent(exchange: string, routingKey: string, msg: Publishing, ok: bool)

  // The calls a worker makes for one delivery when it is at the given phase.
  function CallAt(d: Delivery, phase: Phase, ok: bool): Call
    requires phase != Finished
    requires phase == AtPublish ==> RetryCount(d.headers) < 0x7FFF_FFFF_FFFF_FFFF
  {
    match phase
    case AtHandler => Handled(d.deliveryTag, ok)
    case AtPublish => Republished(d.exchange, d.routingKey, RetryOf(Content(d)), ok)
    case AtSettle(how) => Settled(d.deliveryTag, how, ok)
  }

  // The message a delivery carries.
  function Content(d: Delivery): (m: Publishing)
    ensures Deliver(m, d.exchange, d.routingKey, d.deliveryTag) == d
  {
    Publishing(d.headers, d.contentType, d.contentEncoding, d.deliveryMode, d.priority,
               d.correlationId, d.replyTo, d.expiration, d.messageId, d.timestamp,
               d.kind, d.userId, d.appId, d.body)
  }

  // calls are exactly what the policy of Retry.Advance prescribes from the given phase on
  // to the end, under the answers they got.
  ghost predicate Follows(maxRedelivery: Int64, d: Delivery, phase: Phase, calls: seq<Call>)
    decreases |calls|
  {
    if phase == Finished then calls == []
    else
      && calls != []
      && (phase == AtPublish ==> RetryCount(d.headers) < 0x7FFF_FFFF_FFFF_FFFF)
      && calls[0] == CallAt(d, phase, calls[0].ok)
      && Follows(maxRedelivery, d, Advance(maxRedelivery, RetryCount(d.headers), phase, calls[0].ok), calls[1..])
  }

  // What a pass through the select statement of the consume loop picks.
  datatype Pick = Arrived(d: Delivery) | Ticked | Cancelled | ChannelClosed

  datatype QueueSettings = QueueSettings(name: string, maxRedelivery: Int64, dummyMessageEnabled: bool)

  // The dummy message that keeps a quiet consumer alive (types.go:180-185).
  const HEARTBEAT := Publishing(
    map["type" := TextValue("heartbeat")], "", "", 0, 0, "", "", "", "", 0, "", "", "",
    [0x68, 0x65, 0x61, 0x72, 0x74, 0x62, 0x65, 0x61, 0x74])

  predicate IsOrdinary(q: QueueSettings, d: Delivery) {
    !(q.dummyMessageEnabled && IsHeartbeat(d.headers))
  }

  // What the calls of one pick of the loop look like.
  ghost predicate PartOf(q: QueueSettings, pick: Pick, calls: seq<Call>) {
    match pick
    case Arrived(d) =>
      if IsOrdinary(q, d) then Follows(q.maxRedelivery, d, AtHandler, calls)
      else |calls| == 1 && calls[0] == HeartbeatAcked(d.deliveryTag, calls[0].ok)
    case Ticked =>
      if q.dummyMessageEnabled then |calls| == 1 && calls[0] == HeartbeatSent("", q.name, HEARTBEAT, calls[0].ok)
      else calls == []
    case _ => calls == []
  }

  function Join(parts: seq<seq<Call>>): seq<Call> {
    if parts == [] then [] else Join(parts[..|parts| - 1]) + parts[|parts| - 1]
  }

  lemma JoinAppend(parts: seq<seq<Call>>, part: seq<Call>)
    ensures Join(parts + [part]) == Join(parts) + part
  {
    assert (parts + [part])[..|parts|] == parts;
  }

  // parts are the calls of the first picks, none of which ends the loop.
  ghost predicate PartsOf(q: QueueSettings, picks: seq<Pick>, parts: seq<seq<Call>>) {
    && |parts| <= |picks|
    && forall i :: 0 <= i < |parts| ==> (picks[i].Arrived? || picks[i].Ticked?) && PartOf(q, picks[i], parts[i])
  }

  lemma PartsAppend(q: QueueSettings, picks: seq<Pick>, parts: seq<seq<Call>>, part: seq<Call>)
    requires PartsOf(q, picks, parts) && |parts| < |picks|
    requires (picks[|parts|].Arrived? || picks[|parts|].Ticked?) && PartOf(q, picks[|parts|], part)
    ensures PartsOf(q, picks, parts + [part])
  {
  }

  // The ordinary deliveries among the first n picks.
  function Ordinary(q: QueueSettings, picks: seq<Pick>, n: nat): int
    requires n <= |picks|
  {
    if n == 0 then 0 else Ordinary(q, picks, n - 1) + One(picks[n - 1].Arrived? && IsOrdinary(q, picks[n - 1].d))
  }

  function HandledOne(c: Call): int { One(c.Handled?) }
  function SettledOne(c: Call): int { One(c.Settled?) }
  function RefusedOne(c: Call): int { One(c.Settled? && !c.ok) }

  lemma SettleTail(maxRedelivery: Int64, d: Delivery, how: Settlement, calls: seq<Call>)
    requires Follows(maxRedelivery, d, AtSettle(how), calls)
    ensures |calls| == 1 && calls == [Settled(d.deliveryTag, how, calls[0].ok)]
  {
    assert Follows(maxRedelivery, d, Finished, calls[1..]);
  }

  lemma PublishTail(maxRedelivery: Int64, d: Delivery, calls: seq<Call>)
    requires Follows(maxRedelivery, d, AtPublish, calls)
    ensures |calls| == 2 && RetryCount(d.headers) < 0x7FFF_FFFF_FFFF_FFFF
    ensures calls == [Republished(d.exchange, d.routingKey, RetryOf(Content(d)), calls[0].ok),
                      Settled(d.deliveryTag, if calls[0].ok then AckRetried else NackRequeue, calls[1].ok)]
  {
    SettleTail(maxRedelivery, d, if calls[0].ok then AckRetried else NackRequeue, calls[1..]);
  }

  lemma SettleFollows(maxRedelivery: Int64, d: Delivery, last: Call)
    requires last.Settled? && last.tag == d.deliveryTag
    ensures Follows(maxRedelivery, d, AtSettle(last.how), [last]) && Sum(RefusedOne, [last]) == RefusedOne(last)
  {
    assert [last][1..] == [];
    SumOne(RefusedOne, last);
  }

  lemma PublishFollows(maxRedelivery: Int64, d: Delivery, first: Call, last: Call)
    requires RetryCount(d.headers) < 0x7FFF_FFFF_FFFF_FFFF
    requires first == Republished(d.exchange, d.routingKey, RetryOf(Content(d)), first.ok)
    requires last == Settled(d.deliveryTag, if first.ok then AckRetried else NackRequeue, last.ok)
    ensures Follows(maxRedelivery, d, AtPublish, [first, last]) && Sum(RefusedOne, [first, last]) == RefusedOne(last)
  {
    assert [first, last][1..] == [last];
    SettleFollows(maxRedelivery, d, last);
    SumTwo(RefusedOne, first, last);
  }

  // Whatever the answers, a delivery is handed to the handler once and settled once, last.
  // It is acknowledged as done iff the handler returned nil; it is republished iff retries
  // are wanted and left, and then acknowledged iff that was confirmed, else requeued; with
  // retries used up or unwanted it is rejected, with unlimited ones requeued.
  lemma {:induction false} EveryDeliveryIsSettledOnce(maxRedelivery: Int64, d: Delivery, calls: seq<Call>)
    requires Follows(maxRedelivery, d, AtHandler, calls)
    ensures Sum(HandledOne, calls) == 1 == Sum(SettledOne, calls)
    ensures |calls| >= 2 && calls[0].Handled? && calls[|calls| - 1].Settled?
    ensures calls[|calls| - 1].tag == d.deliveryTag == calls[0].tag
    ensures calls[|calls| - 1].how == AckDone <==> calls[0].ok
    ensures |calls| == 3 <==> !calls[0].ok && 0 < maxRedelivery && RetryCount(d.headers) < maxRedelivery
    ensures |calls| <= 3
    ensures |calls| == 3 ==> RetryCount(d.headers) < 0x7FFF_FFFF_FFFF_FFFF
                             && calls[1] == Republished(d.exchange, d.routingKey, RetryOf(Content(d)), calls[1].ok)
                             && calls[2].how == if calls[1].ok then AckRetried else NackRequeue
    ensures |calls| == 2 && !calls[0].ok ==> calls[1].how == if maxRedelivery == 0 then NackRequeue else NackReject
  {
    var next := Advance(maxRedelivery, RetryCount(d.headers), AtHandler, calls[0].ok);
    if next == AtPublish {
      PublishTail(maxRedelivery, d, calls[1..]);
      assert calls == [calls[0], calls[1], calls[2]];
      SumThree(HandledOne, calls[0], calls[1], calls[2]);
      SumThree(SettledOne, calls[0], calls[1], calls[2]);
    } else {
      SettleTail(maxRedelivery, d, next.how, calls[1..]);
      assert calls == [calls[0], calls[1]];
      SumTwo(HandledOne, calls[0], calls[1]);
      SumTwo(SettledOne, calls[0], calls[1]);
    }
  }

  // The retry of a delivery is what was delivered, with one more retry in its counter.
  lemma RetryOfDelivery(d: Delivery)
    requires RetryCount(d.headers) < 0x7FFF_FFFF_FFFF_FFFF
    ensures Deliver(RetryOf(Content(d)), d.exchange, d.routingKey, d.deliveryTag)
            == d.(headers := d.headers["x-huma-redelivery-count" := Int64Value(RetryCount(d.headers) + 1)])
  {
  }

  // Whatever does not carry the type header of a heartbeat goes to the handler, on every queue.
  lemma {:induction false} WhatIsNoHeartbeatIsHandled(q: QueueSettings, d: Delivery, part: seq<Call>)
    requires "type" !in d.headers || d.headers["type"] != TextValue("heartbeat")
    requires PartOf(q, Arrived(d), part)
    ensures |part| >= 2 && part[0].Handled? && part[0].tag == d.deliveryTag
    ensures Sum(HandledOne, part) == 1 == Sum(SettledOne, part)
  {
    EveryDeliveryIsSettledOnce(q.maxRedelivery, d, part);
  }

  // What carries it goes to the handler on a queue without heartbeats, and only there; on a
  // queue with heartbeats it is acknowledged and nothing else.
  lemma HeartbeatsAreNotHandled(q: QueueSettings, d: Delivery, part: seq<Call>)
    requires "type" in d.headers && d.headers["type"] == TextValue("heartbeat")
    requires PartOf(q, Arrived(d), part)
    ensures part != []
    ensures if q.dummyMessageEnabled then part == [HeartbeatAcked(d.deliveryTag, part[0].ok)]
            else part[0].Handled? && Sum(HandledOne, part) == 1 == Sum(SettledOne, part)
  {
    if q.dummyMessageEnabled {
      assert part == [part[0]];
    } else {
      EveryDeliveryIsSettledOnce(q.maxRedelivery, d, part);
    }
  }

  // A queue with heartbeats sends one to itself at every tick, another queue sends none; and
  // when it comes back it is taken for one.
  lemma OwnHeartbeatsComeBack(q: QueueSettings, sent: seq<Call>, tag: nat, part: seq<Call>)
    requires PartOf(q, Ticked, sent)
    ensures sent != [] <==> q.dummyMessageEnabled
    ensures sent != [] ==>
              && |sent| == 1 && sent[0].HeartbeatSent? && sent[0].exchange == "" && sent[0].routingKey == q.name
              && (PartOf(q, Arrived(Deliver(sent[0].msg, "", q.name, tag)), part) ==>
                    |part| == 1 && part[0] == HeartbeatAcked(tag, part[0].ok))
  {
  }

  class Worker {
    const q: QueueSettings
    var log: seq<Call>
    // metrics
    var received: int
    var acked: int
    var nacked: int

    constructor (q: QueueSettings)
      ensures this.q == q && log == [] && received == acked == nacked == 0
    {
      this.q := q;
      log := [];
      received, acked, nacked := 0, 0, 0;
    }

    // A call to the outside world.
    method Outside(call: Call) returns (ok: bool)
      modifies this`log
      ensures log == old(log) + [call.(ok := ok)]
    {
      ok := *;
      log := log + [call.(ok := ok)];
    }

    // The Ack or Nack that ends a failed delivery, and its metric.
    method GiveBack(d: Delivery, how: Settlement) returns (ghost call: Call)
      modifies this`log, this`nacked
      ensures call == Settled(d.deliveryTag, how, call.ok) && log == old(log) + [call]
      ensures nacked == old(nacked) + 1 - RefusedOne(call)
    {
      var ok := Outside(Settled(d.deliveryTag, how, true));
      call := Settled(d.deliveryTag, how, ok);
      if !ok { return; }
      nacked := nacked + 1;
    }

    method HandleDeliveryFailure(d: Delivery) returns (ghost calls: seq<Call>)
      modifies this`log, this`nacked
      ensures log == old(log) + calls
      ensures Follows(q.maxRedelivery, d, Advance(q.maxRedelivery, RetryCount(d.headers), AtHandler, false), calls)
      ensures nacked == old(nacked) + 1 - Sum(RefusedOne, calls)
    {
      var requeue := q.maxRedelivery == 0;
      ghost var last;
      if q.maxRedelivery > 0 {
        var retryCount := RetryCount(d.headers);
        if retryCount < q.maxRedelivery {
          var publishing := RetryPublishing(d, retryCount);
          var published := Outside(Republished(d.exchange, d.routingKey, publishing, true));
          ghost var first := Republished(d.exchange, d.routingKey, publishing, published);
          last := GiveBack(d, if published then AckRetried else NackRequeue);
          calls := [first, last];
          PublishFollows(q.maxRedelivery, d, first, last);
          return;
        }
      }
      last := GiveBack(d, if requeue then NackRequeue else NackReject);
      calls := [last];
      SettleFollows(q.maxRedelivery, d, last);
    }

    method ProcessDelivery(d: Delivery) returns (ghost calls: seq<Call>)
      modifies this`log, this`acked, this`nacked
      ensures log == old(log) + calls
      ensures Follows(q.maxRedelivery, d, AtHandler, calls) && |calls| > 0
      ensures acked == old(acked) + One(calls[|calls| - 1] == Settled(d.deliveryTag, AckDone, true))
      ensures acked + nacked == old(acked + nacked) + 1 - Sum(RefusedOne, calls)
    {
      var ok := Outside(Handled(d.deliveryTag, true));
      calls := [Handled(d.deliveryTag, ok)];
      ghost var more;
      if !ok {
        // An error and a recovered panic take the same path.
        more := HandleDeliveryFailure(d);
        SumConcat(RefusedOne, calls, more);
        calls := calls + more;
        assert calls[1..] == more;
        EveryDeliveryIsSettledOnce(q.maxRedelivery, d, calls);
        return;
      }
      var acknowledged := Outside(Settled(d.deliveryTag, AckDone, true));
      calls := calls + [Settled(d.deliveryTag, AckDone, acknowledged)];
      assert calls[1..] == [calls[1]] && calls[1..][1..] == [];
      SumTwo(RefusedOne, calls[0], calls[1]);
      if !acknowledged { return; }
      acked := acked + 1;
    }

    // One pass of the consume loop that does not end it.
    method HandlePick(pick: Pick) returns (ghost part: seq<Call>)
      requires pick.Arrived? || pick.Ticked?
      modifies this
      ensures log == old(log) + part && PartOf(q, pick, part)
      ensures received == old(received) + One(pick.Arrived? && IsOrdinary(q, pick.d))
      ensures received - acked - nacked == old(received - acked - nacked) + Sum(RefusedOne, part)
    {
      part := [];
      match pick
      case Arrived(d) =>
        if q.dummyMessageEnabled && IsHeartbeat(d.headers) {
          var ok := Outside(HeartbeatAcked(d.deliveryTag, true));
          part := [HeartbeatAcked(d.deliveryTag, ok)];
          SumOne(RefusedOne, part[0]);
        } else {
          received := received + 1;
          part := ProcessDelivery(d);
        }
      case Ticked =>
        if q.dummyMessageEnabled {
          var ok := Outside(HeartbeatSent("", q.name, HEARTBEAT, true));
          part := [HeartbeatSent("", q.name, HEARTBEAT, ok)];
          SumOne(RefusedOne, part[0]);
        }
    }

    // What has been called and counted for the first picks, given what there was before.
    ghost predicate Accounts(before: seq<Call>, count: int, balance: int, picks: seq<Pick>, parts: seq<seq<Call>>)
      reads this
    {
      && PartsOf(q, picks, parts) && log == before + Join(parts)
      && received == count + Ordinary(q, picks, |parts|)
      && received - acked - nacked == balance + Sum(RefusedOne, Join(parts))
    }

    // One pass of the loop.
    method Pass(picks: seq<Pick>, i: nat, ghost before: seq<Call>, ghost count: int, ghost balance: int,
        ghost parts: seq<seq<Call>>)
      returns (ghost all: seq<seq<Call>>)
      requires i == |parts| < |picks| && (picks[i].Arrived? || picks[i].Ticked?)
      requires Accounts(before, count, balance, picks, parts)
      modifies this
      ensures |all| == i + 1 && Accounts(before, count, balance, picks, all)
    {
      ghost var part := HandlePick(picks[i]);
      PartsAppend(q, picks, parts, part);
      JoinAppend(parts, part);
      SumConcat(RefusedOne, Join(parts), part);
      all := parts + [part];
      assert before + (Join(parts) + part) == before + Join(parts) + part;
    }

    // The consume loop over the picks its select statement makes; parts are the calls made
    // for each of them.
    method Consume(picks: seq<Pick>) returns (ghost parts: seq<seq<Call>>)
      modifies this
      ensures PartsOf(q, picks, parts) && log == old(log) + Join(parts)
      ensures |parts| < |picks| ==> picks[|parts|].Cancelled? || picks[|parts|].ChannelClosed?
      ensures received == old(received) + Ordinary(q, picks, |parts|)
      ensures received - acked - nacked == old(received - acked - nacked) + Sum(RefusedOne, Join(parts))
    {
      ghost var before, count, balance := log, received, received - acked - nacked;
      parts := [];
      var i := 0;
      while i < |picks| && (picks[i].Arrived? || picks[i].Ticked?)
        invariant 0 <= i == |parts| <= |picks| && Accounts(before, count, balance, picks, parts)
      {
        parts := Pass(picks, i, before, count, balance, parts);
        i := i + 1;
      }
    }
  }

  // The settlements of a whole run of the loop: one per ordinary delivery, as many as the
  // handler was called.
  lemma {:induction false} OneSettlementPerDelivery(q: QueueSettings, picks: seq<Pick>, parts: seq<seq<Call>>)
    requires PartsOf(q, picks, parts)
    ensures Sum(SettledOne, Join(parts)) == Ordinary(q, picks, |parts|) == Sum(HandledOne, Join(parts))
  {
    if parts != [] {
      var n := |parts| - 1;
      var front, part := parts[..n], parts[n];
      assert forall i :: 0 <= i < n ==> front[i] == parts[i];
      OneSettlementPerDelivery(q, picks, front);
      SumConcat(SettledOne, Join(front), part);
      SumConcat(HandledOne, Join(front), part);
      assert PartOf(q, picks[n], part);
      if picks[n].Arrived? && IsOrdinary(q, picks[n].d) {
        EveryDeliveryIsSettledOnce(q.maxRedelivery, picks[n].d, part);
      } else if part != [] {
        assert part == [part[0]];
        SumOne(SettledOne, part[0]);
        SumOne(HandledOne, part[0]);
      }
    }
  }

  // The publishing handleDeliveryFailure builds field by field (rabbitmqsdk.go:518-528).
  method RetryPublishing(d: Delivery, retryCount: Int64) returns (p: Publishing)
    requires retryCount == RetryCount(d.headers) < 0x7FFF_FFFF_FFFF_FFFF
    ensures p == RetryOf(Content(d))
  {
    var headers := CopyHeaders(d.headers);
    headers := headers[RETRY_COUNT_HEADER := Int64Value(retryCount + 1)];
    p := Publishing(
      headers, d.contentType, d.contentEncoding, d.deliveryMode, d.priority,
      d.correlationId, d.replyTo, d.expiration, d.messageId, d.timestamp,
      d.kind, d.userId, d.appId, d.body);
  }

  // The header copy loop of handleDeliveryFailure; Go ranges over a map in any order.
  method CopyHeaders(source: Table) returns (copy: Table)
    ensures copy == source
  {
    copy := map[];
    var rest := source.Keys;
    while rest != {}
      invariant rest <= source.Keys && copy.Keys == source.Keys - rest
      invariant forall key :: key in copy ==> copy[key] == source[key]
      decreases rest
    {
      var key :| key in rest;
      copy := copy[key := source[key]];
      rest := rest - {key};
    }
  }
}
