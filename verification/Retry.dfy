/**
The retry policy of rabbitmqsdk.go: what a worker calls for one delivery, in which order,
and what the message it republishes looks like.
*/
module Retry {
  type Int32 = x: int | -0x8000_0000 <= x < 0x8000_0000
  type Int64 = x: int | -0x8000_0000_0000_0000 <= x < 0x8000_0000_0000_0000

  // The header values the SDK looks at; every other kind of value is opaque to it.
  datatype Value = IntValue(i: Int64) | Int32Value(i32: Int32) | Int64Value(i64: Int64) | TextValue(text: string)
                 | OtherValue(id: int)

  type Table = map<string, Value>

  const RETRY_COUNT_HEADER := "x-huma-redelivery-count"

  // A message as it is handed to the broker.
  datatype Publishing = Publishing(
    headers: Table, contentType: string, contentEncoding: string, deliveryMode: nat, priority: nat,
    correlationId: string, replyTo: string, expiration: string, messageId: string, timestamp: int,
    kind: string, userId: string, appId: string, body: seq<bv8>)

  // A message as a consumer receives it.
  datatype Delivery = Delivery(
    headers: Table, contentType: string, contentEncoding: string, deliveryMode: nat, priority: nat,
    correlationId: string, replyTo: string, expiration: string, messageId: string, timestamp: int,
    kind: string, userId: string, appId: string, body: seq<bv8>,
    exchange: string, routingKey: string, deliveryTag: nat)

  // What the broker delivers when m was published to an exchange with a routing key.
  function Deliver(m: Publishing, exchange: string, routingKey: string, tag: nat): Delivery {
    Delivery(m.headers, m.contentType, m.contentEncoding, m.deliveryMode, m.priority,
             m.correlationId, m.replyTo, m.expiration, m.messageId, m.timestamp,
             m.kind, m.userId, m.appId, m.body, exchange, routingKey, tag)
  }

  // deliveryRetryCount: anything that is not one of Go's three integer types counts as 0.
  function RetryCount(headers: Table): Int64 {
    if RETRY_COUNT_HEADER !in headers then 0 else
    match headers[RETRY_COUNT_HEADER]
    case IntValue(i) => i
    case Int32Value(i) => i
    case Int64Value(i) => i
    case _ => 0
  }

  // isHeartbeatDummyMessage: the type header is the one heartbeats carry.
  predicate IsHeartbeat(headers: Table) {
    "type" in headers && headers["type"] == TextValue("heartbeat")
  }

  // A message without the counter counts as new, and every one of the three integer kinds is
  // read as it is; nothing else is a counter.
  lemma CounterIsRead(headers: Table)
    ensures "x-huma-redelivery-count" !in headers ==> RetryCount(headers) == 0
    ensures "x-huma-redelivery-count" in headers ==>
              match headers["x-huma-redelivery-count"]
              case IntValue(i) => RetryCount(headers) == i
              case Int32Value(i) => RetryCount(headers) == i
              case Int64Value(i) => RetryCount(headers) == i
              case TextValue(_) => RetryCount(headers) == 0
              case OtherValue(_) => RetryCount(headers) == 0
  {
  }

  // The message republished for a retry: the same one, with its counter raised.
  function RetryOf(m: Publishing): Publishing
    requires RetryCount(m.headers) < 0x7FFF_FFFF_FFFF_FFFF
  {
    m.(headers := m.headers[RETRY_COUNT_HEADER := Int64Value(RetryCount(m.headers) + 1)])
  }

  // A retry is the same message but for one header, which a worker reads as one more.
  lemma RetryIsTheSameMessage(m: Publishing)
    requires RetryCount(m.headers) < 0x7FFF_FFFF_FFFF_FFFF
    ensures var r := RetryOf(m);
      && r.(headers := m.headers) == m
      && r.headers.Keys == m.headers.Keys + {"x-huma-redelivery-count"}
      && r.headers["x-huma-redelivery-count"] == Int64Value(RetryCount(m.headers) + 1)
      && RetryCount(r.headers) == RetryCount(m.headers) + 1
      && forall key :: key in m.headers && key != "x-huma-redelivery-count" ==> r.headers[key] == m.headers[key]
  {
  }

  // What is delivered is what was published, and says where it was published to.
  lemma DeliveredAsPublished(m: Publishing, exchange: string, routingKey: string, tag: nat)
    ensures var d := Deliver(m, exchange, routingKey, tag);
      && d.exchange == exchange && d.routingKey == routingKey && d.deliveryTag == tag
      && d.headers == m.headers && d.body == m.body && d.contentType == m.contentType
      && d.contentEncoding == m.contentEncoding && d.deliveryMode == m.deliveryMode && d.priority == m.priority
      && d.correlationId == m.correlationId && d.replyTo == m.replyTo && d.expiration == m.expiration
      && d.messageId == m.messageId && d.timestamp == m.timestamp && d.kind == m.kind
      && d.userId == m.userId && d.appId == m.appId
  {
  }

  // The message with its retry counter set to n and nothing else touched.
  function WithCounter(m: Publishing, n: Int64): Publishing {
    m.(headers := m.headers[RETRY_COUNT_HEADER := Int64Value(n)])
  }

  // The retry counter is another header: a retry of a heartbeat is one, and of nothing else.
  lemma HeartbeatStays(m: Publishing, n: Int64)
    ensures IsHeartbeat(WithCounter(m, n).headers) <==> IsHeartbeat(m.headers)
  {
    assert |"type"| != |RETRY_COUNT_HEADER|;
  }

  // A chain of retries of m only ever changes the counter of m, and by one at a time: what
  // is written as an int64 is read back as it was.
  lemma RetryCounts(m: Publishing, r: Publishing)
    requires RetryCount(r.headers) < 0x7FFF_FFFF_FFFF_FFFF
    requires r == m || exists n: Int64 :: r == WithCounter(m, n)
    ensures RetryCount(RetryOf(r).headers) == RetryCount(r.headers) + 1
    ensures RetryOf(r) == WithCounter(m, RetryCount(r.headers) + 1)
  {
    if r != m {
      var n: Int64 :| r == WithCounter(m, n);
      assert r.headers[RETRY_COUNT_HEADER := Int64Value(n + 1)] == m.headers[RETRY_COUNT_HEADER := Int64Value(n + 1)];
    }
  }

  datatype Settlement = AckDone | AckRetried | NackRequeue | NackReject

  // Where a worker is with one delivery: the call it makes next.
  datatype Phase = AtHandler | AtPublish | AtSettle(how: Settlement) | Finished

  // The retries are used up, or were never wanted.
  predicate Exhausted(maxRedelivery: Int64, count: Int64) {
    maxRedelivery < 0 || (maxRedelivery > 0 && count >= maxRedelivery)
  }

  // Where a delivery with the given counter is after the call it is at: ok says whether
  // the handler returned nil, the republish was confirmed, the settlement call succeeded.
  function Advance(maxRedelivery: Int64, count: Int64, phase: Phase, ok: bool): Phase {
    match phase
    case AtHandler =>
      if ok then AtSettle(AckDone)
      else if maxRedelivery == 0 then AtSettle(NackRequeue)
      else if Exhausted(maxRedelivery, count) then AtSettle(NackReject)
      else AtPublish
    case AtPublish => AtSettle(if ok then AckRetried else NackRequeue)
    case AtSettle(_) => Finished
    case Finished => Finished
  }
}
