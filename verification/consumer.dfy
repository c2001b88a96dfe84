/** The delivery worker: one message from the main queue is delivered; on
    success the event is marked DELIVERED, audited and acknowledged, and any
    exception on the way sends it through the retry state machine. */
module Consumer {
  import opened Common
  import opened Text
  import opened Events
  import opened Infrastructure
  import opened Delivery

  /** A persistence or broker fault after a successful delivery: the message
      of the exception thrown by the event save, the audit save or the ack. */
  datatype Fault = NoFault | SaveFails(message: string) | AuditFails(message: string) | AckFails(message: string)

  function MarkDelivered(e: Event, now: int): Event {
    e.(status := DELIVERED, updatedAt := now)
  }

  function SentEntry(e: Event, now: int): AuditEntry {
    AuditEntry(e.id, SENT, "Notification sent successfully to " + e.recipient, now)
  }

  /** The event as handleFailure leaves it: the reason and time are recorded;
      below the limit the counter is bumped and a retry is scheduled,
      otherwise the event has failed for good. */
  function AfterFailure(e: Event, reason: string, now: int): (f: Event)
    ensures f.failureReason == Some(reason) && f.updatedAt == now
    ensures e.retryCount < MaxRetries ==> f.retryCount == e.retryCount + 1 && f.status == RETRY_SCHEDULED
    ensures e.retryCount >= MaxRetries ==> f.retryCount == e.retryCount && f.status == FAILED
    ensures InRetryBounds(e) ==> InRetryBounds(f)
    ensures f == e.(failureReason := f.failureReason, updatedAt := f.updatedAt, retryCount := f.retryCount, status := f.status)
  {
    var recorded := e.(failureReason := Some(reason), updatedAt := now);
    if recorded.retryCount < MaxRetries then
      recorded.(retryCount := recorded.retryCount + 1, status := RETRY_SCHEDULED)
    else
      recorded.(status := FAILED)
  }

  function RetryEntry(f: Event, now: int): AuditEntry {
    AuditEntry(f.id, RETRY_SCHEDULED, "Retrying notification, attempt " + IntToString(f.retryCount), now)
  }

  function FailedEntry(f: Event, reason: string, now: int): AuditEntry {
    AuditEntry(f.id, FAILED, "Max retries (3) exceeded: " + reason, now)
  }

  /** The audit entry handleFailure writes. */
  function FailureEntry(e: Event, reason: string, now: int): AuditEntry {
    var f := AfterFailure(e, reason, now);
    if e.retryCount < MaxRetries then RetryEntry(f, now) else FailedEntry(f, reason, now)
  }

  /** Where handleFailure hands the event: back to the main route without a
      priority below the limit, to the dead-letter route at the limit. */
  function Handoff(e: Event, reason: string, now: int): Op {
    var f := AfterFailure(e, reason, now);
    if e.retryCount < MaxRetries then Published(Message(f, None)) else SentToDlq(f)
  }

  /** How handleFailure settles the delivery: a nack without requeue below the
      limit, an ack at the limit. */
  function Settlement(e: Event): Op {
    if e.retryCount < MaxRetries then Nacked(false) else Acked
  }

  /** One pass through handleFailure: save the row, audit it, hand it off if
      the producer works, settle if the channel works. */
  function FailureSteps(f: Event, entry: AuditEntry, handoff: Op, settle: Op, producerOk: bool, settleOk: bool): seq<Op> {
    [Saved(f), Audited(entry)] + (if producerOk then [handoff] else []) + (if settleOk then [settle] else [])
  }

  /** The calls handleFailure makes. `producerOk` says whether the producer's
      publish succeeds (its failures are logged and swallowed), `settleOk`
      whether the nack or ack succeeds (an IOException is logged). */
  function FailureOps(e: Event, reason: string, producerOk: bool, settleOk: bool, now: int): seq<Op> {
    FailureSteps(AfterFailure(e, reason, now), FailureEntry(e, reason, now), Handoff(e, reason, now), Settlement(e), producerOk, settleOk)
  }

  /** The calls consumeNotification makes for message `m`. `attempt` is what
      the transport does on this delivery and `fault` what fails afterwards. */
  function ConsumeOps(m: Message, attempt: Outcome, fault: Fault, producerOk: bool, settleOk: bool, now: int): seq<Op> {
    AfterDeliveryOps(Deliver(m.event, attempt), fault, producerOk, settleOk, now)
  }

  /** The calls made once the delivery service has returned or thrown. */
  function AfterDeliveryOps(d: Delivery, fault: Fault, producerOk: bool, settleOk: bool, now: int): seq<Op> {
    match d.outcome
    case Failed(reason) => FailureOps(d.event, reason, producerOk, settleOk, now)
    case Sent => DeliveredOps(MarkDelivered(d.event, now), fault, producerOk, settleOk, now)
  }

  /** The success block for the DELIVERED row, up to the fault that ends it:
      save the row, then audit it, then ack; a fault in any of the three
      goes to handleFailure with its message. */
  function DeliveredOps(delivered: Event, fault: Fault, producerOk: bool, settleOk: bool, now: int): seq<Op> {
    if fault.SaveFails? then FailureOps(delivered, fault.message, producerOk, settleOk, now)
    else [Saved(delivered)] + AuditStageOps(delivered, fault, producerOk, settleOk, now)
  }

  function AuditStageOps(delivered: Event, fault: Fault, producerOk: bool, settleOk: bool, now: int): seq<Op> {
    if fault.AuditFails? then FailureOps(delivered, fault.message, producerOk, settleOk, now)
    else [Audited(SentEntry(delivered, now))] + AckStageOps(delivered, fault, producerOk, settleOk, now)
  }

  function AckStageOps(delivered: Event, fault: Fault, producerOk: bool, settleOk: bool, now: int): seq<Op> {
    if fault.AckFails? then FailureOps(delivered, fault.message, producerOk, settleOk, now)
    else [Acked]
  }

  /** The exception message that reaches handleFailure, if any. */
  function FailureReason(m: Message, attempt: Outcome, fault: Fault): Option<string> {
    ReasonAfterDelivery(Deliver(m.event, attempt), fault)
  }

  function ReasonAfterDelivery(d: Delivery, fault: Fault): Option<string> {
    if d.outcome.Failed? then Some(d.outcome.reason)
    else if fault.NoFault? then None
    else Some(fault.message)
  }

  /** The effect of one pass through handleFailure on the store. */
  lemma StepsEffect(s: Store, f: Event, entry: AuditEntry, handoff: Op, settle: Op, producerOk: bool, settleOk: bool)
    requires handoff.Published? || handoff.SentToDlq?
    requires settle == Acked || settle.Nacked?
    ensures var t := Run(s, FailureSteps(f, entry, handoff, settle, producerOk, settleOk));
            && t.events == s.events[f.id := f]
            && t.audit == s.audit + [entry]
            && t.mainQueue == s.mainQueue + (if producerOk && handoff.Published? then [handoff.message] else [])
            && t.dlq == s.dlq + (if producerOk && handoff.SentToDlq? then [handoff.event] else [])
  {
    var head := [Saved(f), Audited(entry)];
    var mid := head + (if producerOk then [handoff] else []);
    RunPair(s, Saved(f), Audited(entry));
    if producerOk {
      RunSnoc(s, head, handoff);
    } else {
      assert mid == head;
    }
    if settleOk {
      RunSnoc(s, mid, settle);
    } else {
      assert mid + [] == mid;
    }
  }

  /** The effect of handleFailure on the store: the row is replaced by its
      failed version, one audit entry is appended, and the event goes back
      to the main route (below the limit) or to the dead-letter route. */
  lemma FailureEffect(s: Store, e: Event, reason: string, producerOk: bool, settleOk: bool, now: int)
    ensures var f := AfterFailure(e, reason, now);
            var t := Run(s, FailureOps(e, reason, producerOk, settleOk, now));
            && t.events == s.events[e.id := f]
            && t.audit == s.audit + [if e.retryCount < MaxRetries then RetryEntry(f, now) else FailedEntry(f, reason, now)]
            && t.mainQueue == s.mainQueue + (if e.retryCount < MaxRetries && producerOk then [Message(f, None)] else [])
            && t.dlq == s.dlq + (if e.retryCount >= MaxRetries && producerOk then [f] else [])
  {
    StepsEffect(s, AfterFailure(e, reason, now), FailureEntry(e, reason, now), Handoff(e, reason, now), Settlement(e), producerOk, settleOk);
  }

  /** The optional hand-off and settlement at the end of handleFailure. */
  method HandOff(b: Backend, handoff: Op, settle: Op, producerOk: bool, settleOk: bool)
    requires handoff.Published? || handoff.SentToDlq?
    requires settle == Acked || settle.Nacked?
    modifies b
    ensures b.nextId == old(b.nextId)
    ensures var tail := (if producerOk then [handoff] else []) + (if settleOk then [settle] else []);
            b.trace == old(b.trace) + tail && b.Snapshot() == Run(old(b.Snapshot()), tail)
  {
    ghost var s0 := b.Snapshot();
    if producerOk {
      if handoff.Published? {
        b.Publish(handoff.message);
      } else {
        b.SendToDlq(handoff.event);
      }
    }
    if settleOk {
      b.Settle(settle);
    }
    if producerOk && settleOk {
      RunPair(s0, handoff, settle);
    } else if producerOk {
      RunOne(s0, handoff);
    } else if settleOk {
      RunOne(s0, settle);
    }
  }

  /** One pass through handleFailure once the row is updated. */
  method RecordFailure(b: Backend, f: Event, entry: AuditEntry, handoff: Op, settle: Op, producerOk: bool, settleOk: bool)
    requires handoff.Published? || handoff.SentToDlq?
    requires settle == Acked || settle.Nacked?
    modifies b
    ensures b.nextId == old(b.nextId)
    ensures b.trace == old(b.trace) + FailureSteps(f, entry, handoff, settle, producerOk, settleOk)
    ensures b.Snapshot() == Run(old(b.Snapshot()), FailureSteps(f, entry, handoff, settle, producerOk, settleOk))
  {
    ghost var s0 := b.Snapshot();
    b.Save(f);
    b.AppendAudit(entry);
    HandOff(b, handoff, settle, producerOk, settleOk);
    ghost var head := [Saved(f), Audited(entry)];
    ghost var tail := (if producerOk then [handoff] else []) + (if settleOk then [settle] else []);
    RunPair(s0, Saved(f), Audited(entry));
    RunConcat(s0, head, tail);
    assert FailureSteps(f, entry, handoff, settle, producerOk, settleOk) == head + tail;
  }

  /** handleFailure. */
  method HandleFailure(b: Backend, e: Event, reason: string, producerOk: bool, settleOk: bool, now: int)
    modifies b
    ensures b.nextId == old(b.nextId)
    ensures b.trace == old(b.trace) + FailureOps(e, reason, producerOk, settleOk, now)
    ensures b.Snapshot() == Run(old(b.Snapshot()), FailureOps(e, reason, producerOk, settleOk, now))
  {
    var event := e.(failureReason := Some(reason), updatedAt := now);
    if event.retryCount < MaxRetries {
      event := event.(retryCount := event.retryCount + 1);
      event := event.(status := RETRY_SCHEDULED);
      RecordFailure(b, event, AuditEntry(event.id, RETRY_SCHEDULED, "Retrying notification, attempt " + IntToString(event.retryCount), now),
                    Published(Message(event, None)), Nacked(false), producerOk, settleOk);
    } else {
      event := event.(status := FAILED);
      RecordFailure(b, event, AuditEntry(event.id, FAILED, "Max retries (3) exceeded: " + reason, now),
                    SentToDlq(event), Acked, producerOk, settleOk);
    }
  }

  /** consumeNotification for the message `m` taken from the main queue. */
  method Consume(b: Backend, m: Message, attempt: Outcome, fault: Fault, producerOk: bool, settleOk: bool, now: int)
    requires b.Valid() && m in b.mainQueue
    modifies b
    ensures b.Valid() && b.nextId == old(b.nextId)
    ensures b.trace == old(b.trace) + ConsumeOps(m, attempt, fault, producerOk, settleOk, now)
    ensures b.Snapshot() == Run(old(b.Snapshot()), ConsumeOps(m, attempt, fault, producerOk, settleOk, now))
  {
    ConsumeKeepsWellFormed(b.Snapshot(), b.nextId, m, attempt, fault, producerOk, settleOk, now);
    var d := Deliver(m.event, attempt);
    AfterDelivery(b, d, fault, producerOk, settleOk, now);
  }

  /** The rest of consumeNotification, given what deliver did to the event. */
  method AfterDelivery(b: Backend, d: Delivery, fault: Fault, producerOk: bool, settleOk: bool, now: int)
    modifies b
    ensures b.nextId == old(b.nextId)
    ensures b.trace == old(b.trace) + AfterDeliveryOps(d, fault, producerOk, settleOk, now)
    ensures b.Snapshot() == Run(old(b.Snapshot()), AfterDeliveryOps(d, fault, producerOk, settleOk, now))
  {
    var event := d.event;
    if d.outcome.Failed? {
      HandleFailure(b, event, d.outcome.reason, producerOk, settleOk, now);
      return;
    }
    event := event.(status := DELIVERED);
    event := event.(updatedAt := now);
    Delivered(b, event, fault, producerOk, settleOk, now);
  }

  /** The success block of consumeNotification for the DELIVERED row. */
  method Delivered(b: Backend, event: Event, fault: Fault, producerOk: bool, settleOk: bool, now: int)
    modifies b
    ensures b.nextId == old(b.nextId)
    ensures b.trace == old(b.trace) + DeliveredOps(event, fault, producerOk, settleOk, now)
    ensures b.Snapshot() == Run(old(b.Snapshot()), DeliveredOps(event, fault, producerOk, settleOk, now))
  {
    if fault.SaveFails? {
      HandleFailure(b, event, fault.message, producerOk, settleOk, now);
      return;
    }
    ghost var s0 := b.Snapshot();
    ghost var rest := AuditStageOps(event, fault, producerOk, settleOk, now);
    assert DeliveredOps(event, fault, producerOk, settleOk, now) == [Saved(event)] + rest;
    RunOne(s0, Saved(event));
    RunConcat(s0, [Saved(event)], rest);
    b.Save(event);
    AuditDelivered(b, event, fault, producerOk, settleOk, now);
  }

  method AuditDelivered(b: Backend, event: Event, fault: Fault, producerOk: bool, settleOk: bool, now: int)
    modifies b
    ensures b.nextId == old(b.nextId)
    ensures b.trace == old(b.trace) + AuditStageOps(event, fault, producerOk, settleOk, now)
    ensures b.Snapshot() == Run(old(b.Snapshot()), AuditStageOps(event, fault, producerOk, settleOk, now))
  {
    if fault.AuditFails? {
      HandleFailure(b, event, fault.message, producerOk, settleOk, now);
      return;
    }
    ghost var s0 := b.Snapshot();
    b.AppendAudit(AuditEntry(event.id, SENT, "Notification sent successfully to " + event.recipient, now));
    AckDelivered(b, event, fault, producerOk, settleOk, now);
    RunOne(s0, Audited(SentEntry(event, now)));
    RunConcat(s0, [Audited(SentEntry(event, now))], AckStageOps(event, fault, producerOk, settleOk, now));
  }

  method AckDelivered(b: Backend, event: Event, fault: Fault, producerOk: bool, settleOk: bool, now: int)
    modifies b
    ensures b.nextId == old(b.nextId)
    ensures b.trace == old(b.trace) + AckStageOps(event, fault, producerOk, settleOk, now)
    ensures b.Snapshot() == Run(old(b.Snapshot()), AckStageOps(event, fault, producerOk, settleOk, now))
  {
    if fault.AckFails? {
      HandleFailure(b, event, fault.message, producerOk, settleOk, now);
      return;
    }
    ghost var s0 := b.Snapshot();
    b.Settle(Acked);
    RunOne(s0, Acked);
  }

  /** handleFailure only rewrites the row it was given and publishes it. */
  lemma FailureKeepsWellFormed(s: Store, nextId: int, e: Event, reason: string, producerOk: bool, settleOk: bool, now: int)
    requires WellFormed(s, nextId) && e.id in s.events && InRetryBounds(e)
    ensures WellFormed(Run(s, FailureOps(e, reason, producerOk, settleOk, now)), nextId)
  {
    var ops := FailureOps(e, reason, producerOk, settleOk, now);
    assert forall i :: 0 <= i < |ops| ==> Admissible(s, ops[i]);
    RunKeepsWellFormed(s, nextId, ops);
  }

  /** The acknowledgements among a sequence of calls, in order. */
  function Settlements(ops: seq<Op>): (r: seq<Op>)
    ensures forall op :: op in r <==> op in ops && (op == Acked || op.Nacked?)
  {
    if ops == [] then []
    else (if ops[0] == Acked || ops[0].Nacked? then [ops[0]] else []) + Settlements(ops[1..])
  }

  lemma {:induction false} SettlementsConcat(a: seq<Op>, b: seq<Op>)
    ensures Settlements(a + b) == Settlements(a) + Settlements(b)
    decreases |a|
  {
    if a == [] {
      assert a + b == b;
    } else {
      assert (a + b)[0] == a[0];
      assert (a + b)[1..] == a[1..] + b;
      SettlementsConcat(a[1..], b);
    }
  }

  /** One pass through handleFailure settles at most once, with `settle`. */
  lemma StepsSettleOnce(f: Event, entry: AuditEntry, handoff: Op, settle: Op, producerOk: bool, settleOk: bool)
    requires handoff.Published? || handoff.SentToDlq?
    requires settle == Acked || settle.Nacked?
    ensures Settlements(FailureSteps(f, entry, handoff, settle, producerOk, settleOk)) == (if settleOk then [settle] else [])
  {
    var head := [Saved(f), Audited(entry)];
    var pub := if producerOk then [handoff] else [];
    var tail := if settleOk then [settle] else [];
    SettlementsConcat(head + pub, tail);
    SettlementsConcat(head, pub);
    assert Settlements(head) == [] by {
      assert head[1..] == [Audited(entry)];
      assert [Audited(entry)][1..] == [];
    }
    assert Settlements(pub) == [] by {
      if producerOk { assert pub[1..] == []; }
    }
    assert Settlements(tail) == tail by {
      if settleOk { assert tail[1..] == []; }
    }
  }

  /** handleFailure settles the delivery once, by a nack without requeue
      below the limit and by an ack at the limit, unless the channel fails. */
  lemma FailureSettlesOnce(e: Event, reason: string, producerOk: bool, settleOk: bool, now: int)
    ensures Settlements(FailureOps(e, reason, producerOk, settleOk, now)) ==
              (if settleOk then [if e.retryCount < MaxRetries then Nacked(false) else Acked] else [])
  {
    StepsSettleOnce(AfterFailure(e, reason, now), FailureEntry(e, reason, now), Handoff(e, reason, now), Settlement(e), producerOk, settleOk);
  }

  /** What deliver and the success block stamp on the event (status, time,
      a PUSH prefix on the reason) is overwritten by handleFailure. */
  lemma StampsOverwritten(e: Event, original: Event, reason: string, now: int)
    requires e == original.(status := e.status, failureReason := e.failureReason, updatedAt := e.updatedAt)
    ensures AfterFailure(e, reason, now) == AfterFailure(original, reason, now)
    ensures FailureEntry(e, reason, now) == FailureEntry(original, reason, now)
  {
  }

  /** A successful delivery with no later fault: the row becomes DELIVERED
      with a fresh timestamp and nothing else changes, one SENT entry naming
      the recipient is appended, nothing is published, and the message is
      acked exactly once. */
  lemma SuccessPath(s: Store, m: Message, attempt: Outcome, producerOk: bool, settleOk: bool, now: int)
    requires Deliver(m.event, attempt).outcome.Sent?
    ensures var ops := ConsumeOps(m, attempt, NoFault, producerOk, settleOk, now);
            var t := Run(s, ops);
            var row := m.event.(status := DELIVERED, updatedAt := now);
            && t.events == s.events[m.event.id := row]
            && t.audit == s.audit + [AuditEntry(m.event.id, SENT, "Notification sent successfully to " + m.event.recipient, now)]
            && t.mainQueue == s.mainQueue && t.dlq == s.dlq
            && Settlements(ops) == [Acked]
  {
    var row := MarkDelivered(Deliver(m.event, attempt).event, now);
    var ops := ConsumeOps(m, attempt, NoFault, producerOk, settleOk, now);
    assert ops == [Saved(row), Audited(SentEntry(row, now))] + [Acked];
    RunPair(s, Saved(row), Audited(SentEntry(row, now)));
    RunSnoc(s, [Saved(row), Audited(SentEntry(row, now))], Acked);
    SettlementsConcat([Saved(row), Audited(SentEntry(row, now))], [Acked]);
    assert Settlements([Saved(row), Audited(SentEntry(row, now))]) == [] by {
      assert [Saved(row), Audited(SentEntry(row, now))][1..] == [Audited(SentEntry(row, now))];
      assert [Audited(SentEntry(row, now))][1..] == [];
    }
  }

  /** Any exception on the way (from the sender, the save, the audit save or
      the ack) ends in handleFailure with that exception's message. Below the
      limit the row is RETRY_SCHEDULED with the counter bumped by one, a
      RETRY_SCHEDULED entry naming the new count is appended, the row is
      re-published without priority and the delivery nacked; at the limit the
      row is FAILED with the counter unchanged, a FAILED entry is appended,
      the row goes to the dead-letter route and the delivery is acked.
      Nothing else about the row changes, whatever deliver had stamped. */
  lemma FailurePath(s: Store, m: Message, attempt: Outcome, fault: Fault, producerOk: bool, settleOk: bool, now: int)
    requires FailureReason(m, attempt, fault).Some?
    ensures var reason := FailureReason(m, attempt, fault).value;
            var retry := m.event.retryCount < MaxRetries;
            var row := AfterFailure(m.event, reason, now);
            var ops := ConsumeOps(m, attempt, fault, producerOk, settleOk, now);
            var t := Run(s, ops);
            && row == (if retry then m.event.(retryCount := m.event.retryCount + 1, status := RETRY_SCHEDULED)
                       else m.event.(status := FAILED)).(failureReason := Some(reason), updatedAt := now)
            && t.events == s.events[m.event.id := row]
            && |t.audit| == |s.audit| + (if fault.AckFails? && Deliver(m.event, attempt).outcome.Sent? then 2 else 1)
            && t.audit[..|s.audit|] == s.audit
            && t.audit[|t.audit| - 1] == (if retry then RetryEntry(row, now) else FailedEntry(row, reason, now))
            && t.mainQueue == s.mainQueue + (if retry && producerOk then [Message(row, None)] else [])
            && t.dlq == s.dlq + (if !retry && producerOk then [row] else [])
            && Settlements(ops) == (if settleOk then [if retry then Nacked(false) else Acked] else [])
  {
    FailureAfterDelivery(s, m.event, Deliver(m.event, attempt), fault, producerOk, settleOk, now);
  }

  /** `t` is `s` after handleFailure on `e` with `reason`, preceded by
      `extra` entries the success block had audited: the row is replaced by
      its failed version, the audit trail grows by `extra` and then the
      failure entry, and the event is handed to one route. */
  predicate FailedFrom(s: Store, t: Store, e: Event, reason: string, producerOk: bool, extra: nat, now: int) {
    var f := AfterFailure(e, reason, now);
    && t.events == s.events[e.id := f]
    && |t.audit| == |s.audit| + extra + 1
    && t.audit[..|s.audit|] == s.audit
    && t.audit[|t.audit| - 1] == FailureEntry(e, reason, now)
    && t.mainQueue == s.mainQueue + (if e.retryCount < MaxRetries && producerOk then [Message(f, None)] else [])
    && t.dlq == s.dlq + (if e.retryCount >= MaxRetries && producerOk then [f] else [])
  }

  /** FailedFrom depends on the row only through its id, its counter and its
      failed version. */
  lemma FailedFromSameFailure(s: Store, t: Store, e: Event, original: Event, reason: string, producerOk: bool, extra: nat, now: int)
    requires FailedFrom(s, t, e, reason, producerOk, extra, now)
    requires AfterFailure(e, reason, now) == AfterFailure(original, reason, now)
    requires e.id == original.id && e.retryCount == original.retryCount
    ensures FailedFrom(s, t, original, reason, producerOk, extra, now)
  {
  }

  lemma FailureAfterDelivery(s: Store, original: Event, d: Delivery, fault: Fault, producerOk: bool, settleOk: bool, now: int)
    requires d.event == original.(status := d.event.status, failureReason := d.event.failureReason)
    requires ReasonAfterDelivery(d, fault).Some?
    ensures var reason := ReasonAfterDelivery(d, fault).value;
            var ops := AfterDeliveryOps(d, fault, producerOk, settleOk, now);
            && FailedFrom(s, Run(s, ops), original, reason, producerOk, if fault.AckFails? && d.outcome.Sent? then 1 else 0, now)
            && Settlements(ops) == (if settleOk then [Settlement(original)] else [])
  {
    var reason := ReasonAfterDelivery(d, fault).value;
    var ops := AfterDeliveryOps(d, fault, producerOk, settleOk, now);
    var e := if d.outcome.Failed? then d.event else MarkDelivered(d.event, now);
    StampsOverwritten(e, original, reason, now);
    var fops := FailureOps(e, reason, producerOk, settleOk, now);
    FailureSettlesOnce(e, reason, producerOk, settleOk, now);
    var extra: nat := 0;
    if d.outcome.Failed? || fault.SaveFails? {
      assert ops == fops;
      FailureIsFailedFrom(s, e, reason, producerOk, settleOk, now);
    } else if fault.AuditFails? {
      assert ops == [Saved(e)] + fops;
      FailureAfterSave(s, e, reason, producerOk, settleOk, now);
    } else {
      assert ops == [Saved(e), Audited(SentEntry(e, now))] + fops;
      FailureAfterAudit(s, e, SentEntry(e, now), reason, producerOk, settleOk, now);
      extra := 1;
    }
    FailedFromSameFailure(s, Run(s, ops), e, original, reason, producerOk, extra, now);
  }

  lemma FailureIsFailedFrom(s: Store, e: Event, reason: string, producerOk: bool, settleOk: bool, now: int)
    ensures FailedFrom(s, Run(s, FailureOps(e, reason, producerOk, settleOk, now)), e, reason, producerOk, 0, now)
  {
    FailureEffect(s, e, reason, producerOk, settleOk, now);
    var t := Run(s, FailureOps(e, reason, producerOk, settleOk, now));
    assert t.audit[..|s.audit|] == s.audit;
  }

  /** handleFailure after the success block saved the row. */
  lemma FailureAfterSave(s: Store, e: Event, reason: string, producerOk: bool, settleOk: bool, now: int)
    ensures var fops := FailureOps(e, reason, producerOk, settleOk, now);
            && FailedFrom(s, Run(s, [Saved(e)] + fops), e, reason, producerOk, 0, now)
            && Settlements([Saved(e)] + fops) == Settlements(fops)
  {
    var fops := FailureOps(e, reason, producerOk, settleOk, now);
    RunConcat(s, [Saved(e)], fops);
    RunOne(s, Saved(e));
    var mid := Apply(s, Saved(e));
    FailureIsFailedFrom(mid, e, reason, producerOk, settleOk, now);
    assert mid.events[e.id := AfterFailure(e, reason, now)] == s.events[e.id := AfterFailure(e, reason, now)];
    SettlementsConcat([Saved(e)], fops);
    assert [Saved(e)][1..] == [];
  }

  /** handleFailure after the success block saved the row and audited it. */
  lemma FailureAfterAudit(s: Store, e: Event, entry: AuditEntry, reason: string, producerOk: bool, settleOk: bool, now: int)
    ensures var fops := FailureOps(e, reason, producerOk, settleOk, now);
            && FailedFrom(s, Run(s, [Saved(e), Audited(entry)] + fops), e, reason, producerOk, 1, now)
            && Settlements([Saved(e), Audited(entry)] + fops) == Settlements(fops)
  {
    var fops := FailureOps(e, reason, producerOk, settleOk, now);
    RunConcat(s, [Saved(e), Audited(entry)], fops);
    RunPair(s, Saved(e), Audited(entry));
    var mid := Apply(Apply(s, Saved(e)), Audited(entry));
    FailureIsFailedFrom(mid, e, reason, producerOk, settleOk, now);
    assert mid.events[e.id := AfterFailure(e, reason, now)] == s.events[e.id := AfterFailure(e, reason, now)];
    var t := Run(mid, fops);
    assert t.audit[..|mid.audit|][..|s.audit|] == t.audit[..|s.audit|];
    SettlementsConcat([Saved(e), Audited(entry)], fops);
    assert [Saved(e), Audited(entry)][1..] == [Audited(entry)];
    assert [Audited(entry)][1..] == [];
  }

  /** The event after n consecutive failures, each re-delivered from the
      re-published row. */
  function FailTimes(e: Event, n: nat, reason: string, now: int): Event
    decreases n
  {
    if n == 0 then e else AfterFailure(FailTimes(e, n - 1, reason, now), reason, now)
  }

  /** The counter climbs by one per failure up to the limit and stays there;
      the row is RETRY_SCHEDULED while the limit had not been reached before
      the failure, and FAILED from then on. */
  lemma {:induction false} FailTimesCount(e: Event, n: nat, reason: string, now: int)
    requires InRetryBounds(e)
    ensures var f := FailTimes(e, n, reason, now);
            && f.retryCount == (if e.retryCount + n <= MaxRetries then e.retryCount + n else MaxRetries)
            && InRetryBounds(f)
            && (n > 0 ==> (f.status == FAILED <==> e.retryCount + n > MaxRetries))
            && (n > 0 ==> (f.status == RETRY_SCHEDULED <==> e.retryCount + n <= MaxRetries))
    decreases n
  {
    if n > 0 {
      FailTimesCount(e, n - 1, reason, now);
    }
  }

  /** From a fresh event, the first three failures schedule retries 1, 2 and
      3, and only the fourth fails the event and hands it to the dead-letter
      route. */
  lemma FourthFailureIsFinal(e: Event, reason: string, now: int)
    requires e.retryCount == 0
    ensures forall n: nat :: 1 <= n <= 3 ==>
              FailTimes(e, n, reason, now).status == RETRY_SCHEDULED && FailTimes(e, n, reason, now).retryCount == n
    ensures forall n: nat :: n < 3 ==> FailTimes(e, n, reason, now).retryCount < MaxRetries
    ensures FailTimes(e, 3, reason, now).retryCount == MaxRetries
    ensures FailTimes(e, 4, reason, now).status == FAILED && FailTimes(e, 4, reason, now).retryCount == MaxRetries
  {
    forall n: nat | n <= 4
      ensures FailTimes(e, n, reason, now).retryCount == (if n <= 3 then n else 3)
      ensures n > 0 ==> (FailTimes(e, n, reason, now).status == FAILED <==> n > 3)
      ensures n > 0 ==> (FailTimes(e, n, reason, now).status == RETRY_SCHEDULED <==> n <= 3)
    {
      FailTimesCount(e, n, reason, now);
    }
  }

  /** Every call handleFailure makes on a stored row within the limit is
      admissible. */
  lemma FailureAdmissible(s: Store, e: Event, reason: string, producerOk: bool, settleOk: bool, now: int)
    requires e.id in s.events && InRetryBounds(e)
    ensures var ops := FailureOps(e, reason, producerOk, settleOk, now);
            forall i :: 0 <= i < |ops| ==> Admissible(s, ops[i])
  {
  }

  /** Prefixing an admissible call keeps a sequence admissible. */
  lemma ConsAdmissible(s: Store, op: Op, rest: seq<Op>)
    requires Admissible(s, op)
    requires forall i :: 0 <= i < |rest| ==> Admissible(s, rest[i])
    ensures forall i :: 0 <= i < |[op] + rest| ==> Admissible(s, ([op] + rest)[i])
  {
    forall i | 0 < i < |[op] + rest| ensures Admissible(s, ([op] + rest)[i]) {
      assert ([op] + rest)[i] == rest[i - 1];
    }
  }

  /** Every call of the success block on a stored row within the limit is
      admissible. */
  lemma DeliveredAdmissible(s: Store, e: Event, fault: Fault, producerOk: bool, settleOk: bool, now: int)
    requires e.id in s.events && InRetryBounds(e)
    ensures var ops := DeliveredOps(e, fault, producerOk, settleOk, now);
            forall i :: 0 <= i < |ops| ==> Admissible(s, ops[i])
  {
    if !fault.NoFault? {
      FailureAdmissible(s, e, fault.message, producerOk, settleOk, now);
    }
    var ack := AckStageOps(e, fault, producerOk, settleOk, now);
    if !fault.AuditFails? && !fault.SaveFails? {
      ConsAdmissible(s, Audited(SentEntry(e, now)), ack);
    }
    if !fault.SaveFails? {
      ConsAdmissible(s, Saved(e), AuditStageOps(e, fault, producerOk, settleOk, now));
    }
  }

  /** A message whose counter is within the limit, taken from the main queue
      of a well-formed store, leaves it well formed: the counter never
      exceeds 3. */
  lemma ConsumeKeepsWellFormed(s: Store, nextId: int, m: Message, attempt: Outcome, fault: Fault, producerOk: bool, settleOk: bool, now: int)
    requires WellFormed(s, nextId) && m in s.mainQueue
    ensures WellFormed(Run(s, ConsumeOps(m, attempt, fault, producerOk, settleOk, now)), nextId)
    ensures Run(s, ConsumeOps(m, attempt, fault, producerOk, settleOk, now)).events.Keys == s.events.Keys
  {
    var d := Deliver(m.event, attempt);
    assert d.event.id == m.event.id && InRetryBounds(d.event);
    if d.outcome.Failed? {
      FailureAdmissible(s, d.event, d.outcome.reason, producerOk, settleOk, now);
    } else {
      DeliveredAdmissible(s, MarkDelivered(d.event, now), fault, producerOk, settleOk, now);
    }
    RunKeepsWellFormed(s, nextId, ConsumeOps(m, attempt, fault, producerOk, settleOk, now));
  }
}
