/**
 Conversion between the messages of the library and AMQP messages. Fields map as in sections 3.2.3 to 3.2.5
 of OASIS AMQP 1.0: message annotations, properties and application properties.
 */
module MessageConversion {
  import opened Common

  /** A payload the conversion passes on without looking at it. */
  datatype Value = Undefined | Payload(content: string)

  /** Message and correlation ids. */
  datatype Id = TextId(text: string) | NumberId(number: int) | BytesId(bytes: seq<bv8>)

  datatype Sendable = Sendable(
    body: Value, userProperties: Option<map<string, Value>>,
    contentType: Option<string>, labelText: Option<string>, to: Option<string>, replyTo: Option<string>,
    sessionId: Option<string>, replyToSessionId: Option<string>,
    messageId: Option<Id>, correlationId: Option<Id>,
    timeToLive: Option<int>,
    partitionKey: Option<string>, viaPartitionKey: Option<string>, scheduledEnqueueTime: Option<int>)

  /** The annotations that the conversion reads or writes; the last five are the broker's. */
  datatype Annotations = Annotations(
    partitionKey: Option<string>, viaPartitionKey: Option<string>, scheduledEnqueueTime: Option<int>,
    deadLetterSource: Option<string>, enqueueSequenceNumber: Option<int>, sequenceNumber: Option<int>,
    enqueuedTime: Option<int>, lockedUntil: Option<int>)

  datatype Amqp = Amqp(
    body: Value, applicationProperties: Option<map<string, Value>>,
    contentType: Option<string>, subject: Option<string>, to: Option<string>, replyTo: Option<string>,
    groupId: Option<string>, replyToGroupId: Option<string>,
    messageId: Option<Id>, correlationId: Option<Id>,
    ttl: Option<int>, creationTime: Option<int>, absoluteExpiryTime: Option<int>,
    deliveryCount: nat, annotations: Annotations)

  /** What a receiver gets. `expiresAt` is None when the date is invalid. */
  datatype Received = Received(
    sendable: Sendable, deliveryCount: nat,
    deadLetterSource: Option<string>, enqueuedSequenceNumber: Option<int>, sequenceNumber: Option<int>,
    enqueuedTime: int, lockedUntil: Option<int>, expiresAt: Option<int>)

  datatype Error = SessionIdTooLong | MessageIdTooLong | PartitionKeyTooLong | ViaPartitionKeyTooLong | NoEnqueuedTime

  datatype Result<T> = Ok(value: T) | Err(error: Error)

  /** The two largest durations and dates are constants of a library that is not part of this model. */
  datatype Limits = Limits(maxDuration: int, maxAbsoluteExpiryTime: int)

  const MAX_LENGTH := 128

  const NO_ANNOTATIONS := Annotations(None, None, None, None, None, None, None, None)

  const EMPTY_AMQP :=
    Amqp(Undefined, None, None, None, None, None, None, None, None, None, None, None, None, 0, NO_ANNOTATIONS)

  const EMPTY_SENDABLE :=
    Sendable(Undefined, None, None, None, None, None, None, None, None, None, None, None, None, None)

  function Min(a: int, b: int): int { if a < b then a else b }

  predicate TooLong(s: Option<string>) { s.Some? && |s.value| > MAX_LENGTH }

  predicate IdTooLong(id: Option<Id>) { id.Some? && id.value.TextId? && |id.value.text| > MAX_LENGTH }

  /** The checks in the order in which the conversion meets them. */
  function Refusal(m: Sendable): Option<Error> {
    if TooLong(m.sessionId) then Some(SessionIdTooLong)
    else if IdTooLong(m.messageId) then Some(MessageIdTooLong)
    else if TooLong(m.partitionKey) then Some(PartitionKeyTooLong)
    else if TooLong(m.viaPartitionKey) then Some(ViaPartitionKeyTooLong)
    else None
  }

  /** A time to live equal to the maximum is not sent. */
  function SentTimeToLive(l: Limits, m: Sendable): Option<int> {
    if m.timeToLive == Some(l.maxDuration) then None else m.timeToLive
  }

  /** The AMQP message that stands for an accepted message. */
  function Encode(l: Limits, m: Sendable, now: int): Amqp {
    var ttl := SentTimeToLive(l, m);
    Amqp(m.body, m.userProperties, m.contentType, m.labelText, m.to, m.replyTo, m.sessionId, m.replyToSessionId,
         m.messageId, m.correlationId,
         ttl, if ttl.Some? then Some(now) else None,
         if ttl.Some? then Some(Min(now + ttl.value, l.maxAbsoluteExpiryTime)) else None, 0,
         NO_ANNOTATIONS.(partitionKey := m.partitionKey, viaPartitionKey := m.viaPartitionKey,
           scheduledEnqueueTime := m.scheduledEnqueueTime))
  }

  /** Each field that is set is copied; the fields of the fresh object appear one after the other. */
  method ToAmqpMessage(l: Limits, m: Sendable, now: int) returns (r: Result<Amqp>)
    ensures r == match Refusal(m) case Some(e) => Err(e) case None => Ok(Encode(l, m, now))
  {
    var amqp := EMPTY_AMQP.(body := m.body, applicationProperties := m.userProperties, contentType := m.contentType);
    if m.sessionId.Some? {
      if |m.sessionId.value| > MAX_LENGTH {
        return Err(SessionIdTooLong);
      }
      amqp := amqp.(groupId := m.sessionId);
    }
    amqp := amqp.(replyTo := m.replyTo, to := m.to, subject := m.labelText);
    if m.messageId.Some? {
      if m.messageId.value.TextId? && |m.messageId.value.text| > MAX_LENGTH {
        return Err(MessageIdTooLong);
      }
      amqp := amqp.(messageId := m.messageId);
    }
    amqp := amqp.(correlationId := m.correlationId, replyToGroupId := m.replyToSessionId);
    if m.timeToLive.Some? && m.timeToLive.value != l.maxDuration {
      var ttl := m.timeToLive.value;
      amqp := amqp.(ttl := Some(ttl), creationTime := Some(now));
      if l.maxAbsoluteExpiryTime - now > ttl {
        amqp := amqp.(absoluteExpiryTime := Some(now + ttl));
      } else {
        amqp := amqp.(absoluteExpiryTime := Some(l.maxAbsoluteExpiryTime));
      }
    }
    if m.partitionKey.Some? {
      if |m.partitionKey.value| > MAX_LENGTH {
        return Err(PartitionKeyTooLong);
      }
      amqp := amqp.(annotations := amqp.annotations.(partitionKey := m.partitionKey));
    }
    if m.viaPartitionKey.Some? {
      if |m.viaPartitionKey.value| > MAX_LENGTH {
        return Err(ViaPartitionKeyTooLong);
      }
      amqp := amqp.(annotations := amqp.annotations.(viaPartitionKey := m.viaPartitionKey));
    }
    amqp := amqp.(annotations := amqp.annotations.(scheduledEnqueueTime := m.scheduledEnqueueTime));
    return Ok(amqp);
  }

  /** The sendable part of an AMQP message. */
  function Decode(a: Amqp): Sendable {
    Sendable(a.body, a.applicationProperties, a.contentType, a.subject, a.to, a.replyTo, a.groupId, a.replyToGroupId,
             a.messageId, a.correlationId, a.ttl,
             a.annotations.partitionKey, a.annotations.viaPartitionKey, a.annotations.scheduledEnqueueTime)
  }

  /** When the message expires; without a time to live the date is invalid. */
  function ExpiresAt(l: Limits, enqueued: int, ttl: Option<int>): Option<int> {
    if ttl.None? then None else Some(Min(enqueued + ttl.value, l.maxDuration))
  }

  /** A message without an enqueue time makes the conversion throw; a missing message counts as an empty one. */
  method FromAmqpMessage(l: Limits, msg: Option<Amqp>) returns (r: Result<Received>)
    ensures var a := if msg.Some? then msg.value else EMPTY_AMQP;
      r == if a.annotations.enqueuedTime.None? then Err(NoEnqueuedTime)
           else Ok(Received(Decode(a), a.deliveryCount, a.annotations.deadLetterSource,
                            a.annotations.enqueueSequenceNumber,
                            a.annotations.sequenceNumber, a.annotations.enqueuedTime.value, a.annotations.lockedUntil,
                            ExpiresAt(l, a.annotations.enqueuedTime.value, a.ttl)))
  {
    var a := EMPTY_AMQP;
    if msg.Some? {
      a := msg.value;
    }
    var s := EMPTY_SENDABLE.(body := a.body, userProperties := a.applicationProperties, contentType := a.contentType);
    s := s.(sessionId := a.groupId, replyTo := a.replyTo, to := a.to, timeToLive := a.ttl, labelText := a.subject);
    s := s.(messageId := a.messageId, correlationId := a.correlationId, replyToSessionId := a.replyToGroupId);
    var n := a.annotations;
    s := s.(partitionKey := n.partitionKey, viaPartitionKey := n.viaPartitionKey,
      scheduledEnqueueTime := n.scheduledEnqueueTime);
    if n.enqueuedTime.None? {
      return Err(NoEnqueuedTime);
    }
    var enqueued := n.enqueuedTime.value;
    var expiresAt: Option<int> := None;
    if a.ttl.Some? && a.ttl.value >= l.maxDuration - enqueued {
      expiresAt := Some(l.maxDuration);
    } else if a.ttl.Some? {
      expiresAt := Some(enqueued + a.ttl.value);
    }
    return Ok(Received(s, a.deliveryCount, n.deadLetterSource, n.enqueueSequenceNumber, n.sequenceNumber, enqueued,
      n.lockedUntil, expiresAt));
  }

  // ---------- the round trip ----------

  /** The broker passes a message on with its own annotations set; it stamps at least the enqueue time. */
  ghost predicate Brokered(a: Amqp, b: Amqp) {
    && b == a.(deliveryCount := b.deliveryCount, annotations := b.annotations)
    && b.annotations.partitionKey == a.annotations.partitionKey
    && b.annotations.viaPartitionKey == a.annotations.viaPartitionKey
    && b.annotations.scheduledEnqueueTime == a.annotations.scheduledEnqueueTime
    && b.annotations.enqueuedTime.Some?
  }

  /** Sending a message through the broker and receiving it, as the two methods do it. */
  method RoundTrip(l: Limits, m: Sendable, now: int, deliveryCount: nat, stamps: Annotations)
    returns (r: Result<Received>)
    requires stamps.enqueuedTime.Some?
    ensures r.Err? <==> Refusal(m).Some?
    ensures r.Ok? ==> r.value.sendable == m.(timeToLive := SentTimeToLive(l, m))
    ensures r.Ok? ==> (r.value.sendable == m <==> m.timeToLive != Some(l.maxDuration))
    ensures r.Ok? ==> (r.value.expiresAt.Some? <==> m.timeToLive.Some? && m.timeToLive != Some(l.maxDuration))
    ensures r.Ok? && r.value.expiresAt.Some? ==>
      r.value.expiresAt.value == Min(stamps.enqueuedTime.value + m.timeToLive.value, l.maxDuration)
  {
    var sent := ToAmqpMessage(l, m, now);
    if sent.Err? {
      return Err(sent.error);
    }
    var a := sent.value;
    var b := a.(deliveryCount := deliveryCount,
                annotations := stamps.(partitionKey := a.annotations.partitionKey,
                                       viaPartitionKey := a.annotations.viaPartitionKey,
                                       scheduledEnqueueTime := a.annotations.scheduledEnqueueTime));
    r := FromAmqpMessage(l, Some(b));
  }

  /** Receiving restores every field that was sent. */
  lemma DecodeEncode(l: Limits, m: Sendable, now: int, b: Amqp)
    requires Brokered(Encode(l, m, now), b)
    ensures Decode(b) == m.(timeToLive := SentTimeToLive(l, m))
  {
  }

  /** A received message is accepted again, and sending it again at the same time sends the same message. */
  lemma SendAgain(l: Limits, m: Sendable, now: int, b: Amqp)
    requires Refusal(m).None? && Brokered(Encode(l, m, now), b)
    ensures Refusal(Decode(b)).None? && Encode(l, Decode(b), now) == Encode(l, m, now)
  {
  }

  /** Two accepted messages look the same on the wire exactly when they differ at most in a time to live
      that one leaves out and the other sets to the maximum. */
  lemma SameOnTheWire(l: Limits, m: Sendable, m': Sendable, now: int)
    ensures Encode(l, m, now) == Encode(l, m', now) <==>
      m.(timeToLive := SentTimeToLive(l, m)) == m'.(timeToLive := SentTimeToLive(l, m'))
  {
  }

  /** With a time to live both expiry times are sums that stop at their maximum, and the time of sending goes
      along; without one, or with the maximal one, the message carries none of these. */
  lemma ExpiryTimesSaturate(l: Limits, m: Sendable, now: int, enqueued: int)
    ensures var a, stops := Encode(l, m, now), (sum: int, limit: int) => if sum < limit then sum else limit;
      if m.timeToLive.None? || m.timeToLive.value == l.maxDuration then
        && a.ttl == None && a.creationTime == None && a.absoluteExpiryTime == None
        && ExpiresAt(l, enqueued, a.ttl) == None
      else
        var ttl := m.timeToLive.value;
        && a.ttl == Some(ttl) && a.creationTime == Some(now)
        && a.absoluteExpiryTime == Some(stops(now + ttl, l.maxAbsoluteExpiryTime))
        && ExpiresAt(l, enqueued, a.ttl) == Some(stops(enqueued + ttl, l.maxDuration))
  {
  }

  /** A message is refused exactly when its session id, message id, partition key or via partition key is a text of
      more than 128 characters; of several that are, the first in this order is named. */
  lemma RefusedExactly(m: Sendable)
    ensures var fits := (s: Option<string>) => s.Some? ==> |s.value| <= 128;
      var idFits := m.messageId.Some? && m.messageId.value.TextId? ==> |m.messageId.value.text| <= 128;
      && (Refusal(m) == None <==> fits(m.sessionId) && idFits && fits(m.partitionKey) && fits(m.viaPartitionKey))
      && (Refusal(m) == Some(SessionIdTooLong) <==> !fits(m.sessionId))
      && (Refusal(m) == Some(MessageIdTooLong) <==> fits(m.sessionId) && !idFits)
      && (Refusal(m) == Some(PartitionKeyTooLong) <==> fits(m.sessionId) && idFits && !fits(m.partitionKey))
      && (Refusal(m) == Some(ViaPartitionKeyTooLong) <==>
            fits(m.sessionId) && idFits && fits(m.partitionKey) && !fits(m.viaPartitionKey))
  {
  }

  /** Where each field travels: the label as subject, the sessions as groups, the keys and the schedule as
      annotations, and the others under their own names. Nothing else is set. */
  lemma WireNames(l: Limits, m: Sendable, now: int)
    ensures var a := Encode(l, m, now);
      && a.subject == m.labelText && a.groupId == m.sessionId && a.replyToGroupId == m.replyToSessionId
      && a.body == m.body && a.applicationProperties == m.userProperties && a.contentType == m.contentType
      && a.to == m.to && a.replyTo == m.replyTo && a.messageId == m.messageId && a.correlationId == m.correlationId
      && a.annotations.partitionKey == m.partitionKey && a.annotations.viaPartitionKey == m.viaPartitionKey
      && a.annotations.scheduledEnqueueTime == m.scheduledEnqueueTime
      && a.annotations == NO_ANNOTATIONS.(partitionKey := a.annotations.partitionKey,
        viaPartitionKey := a.annotations.viaPartitionKey,
        scheduledEnqueueTime := a.annotations.scheduledEnqueueTime)
      && a.deliveryCount == 0
  {
  }
}
