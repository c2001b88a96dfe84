/** The dead-letter handler: every event arriving on the dead-letter route is
    marked DEAD_LETTERED and audited, whatever its status was. */
module DeadLetter {
  import opened Common
  import opened Events
  import opened Infrastructure

  /** Which repository call throws, if any; either exception is logged and
      swallowed. */
  datatype Fault = NoFault | SaveThrows | AuditThrows

  const DeadLetterDetails := "Message moved to DLQ after max retries"

  /** The calls processDLQ makes for the received event `e`. */
  function DeadLetterOps(e: Event, fault: Fault, now: int): seq<Op> {
    var dead := e.(status := DEAD_LETTERED, updatedAt := now);
    match fault
    case NoFault => [Saved(dead), Audited(AuditEntry(e.id, DEAD_LETTERED, DeadLetterDetails, now))]
    case SaveThrows => []
    case AuditThrows => [Saved(dead)]
  }

  /** processDLQ for an event taken from the dead-letter route. */
  method ProcessDlq(b: Backend, e: Event, fault: Fault, now: int)
    requires b.Valid() && e in b.dlq
    modifies b
    ensures b.Valid() && b.nextId == old(b.nextId)
    ensures b.trace == old(b.trace) + DeadLetterOps(e, fault, now)
    ensures b.Snapshot() == Run(old(b.Snapshot()), DeadLetterOps(e, fault, now))
  {
    ghost var s0 := b.Snapshot();
    DeadLetterKeepsWellFormed(s0, b.nextId, e, fault, now);
    var event := e.(status := DEAD_LETTERED);
    event := event.(updatedAt := now);
    if fault.SaveThrows? {
      return;
    }
    b.Save(event);
    if fault.AuditThrows? {
      RunOne(s0, Saved(event));
      return;
    }
    b.AppendAudit(AuditEntry(event.id, DEAD_LETTERED, DeadLetterDetails, now));
    RunPair(s0, Saved(event), Audited(AuditEntry(event.id, DEAD_LETTERED, DeadLetterDetails, now)));
  }

  /** Without a fault: only the status and the update time of the row change,
      the retry counter and failure reason stay as received, exactly one
      DEAD_LETTERED entry is appended and nothing is published. */
  lemma DeadLetterEffect(s: Store, e: Event, now: int)
    ensures var t := Run(s, DeadLetterOps(e, NoFault, now));
            && e.id in t.events
            && t.events[e.id].status == DEAD_LETTERED && t.events[e.id].updatedAt == now
            && t.events[e.id] == e.(status := t.events[e.id].status, updatedAt := t.events[e.id].updatedAt)
            && (forall id :: id != e.id && id in s.events ==> id in t.events && t.events[id] == s.events[id])
            && t.audit == s.audit + [AuditEntry(e.id, DEAD_LETTERED, DeadLetterDetails, now)]
            && t.mainQueue == s.mainQueue && t.dlq == s.dlq
  {
    var dead := e.(status := DEAD_LETTERED, updatedAt := now);
    RunPair(s, Saved(dead), Audited(AuditEntry(e.id, DEAD_LETTERED, DeadLetterDetails, now)));
  }

  /** The swallowed faults: a failed save changes nothing, a failed audit save
      leaves the row dead-lettered without an entry. */
  lemma DeadLetterFaults(s: Store, e: Event, now: int)
    ensures Run(s, DeadLetterOps(e, SaveThrows, now)) == s
    ensures var t := Run(s, DeadLetterOps(e, AuditThrows, now));
            t.events == s.events[e.id := e.(status := DEAD_LETTERED, updatedAt := now)]
            && t.audit == s.audit && t.mainQueue == s.mainQueue && t.dlq == s.dlq
  {
    RunOne(s, Saved(e.(status := DEAD_LETTERED, updatedAt := now)));
  }

  /** Processing the same event twice leaves the same row status and appends
      a second DEAD_LETTERED entry. */
  lemma ProcessTwice(s: Store, e: Event, now1: int, now2: int)
    ensures var once := Run(s, DeadLetterOps(e, NoFault, now1));
            var twice := Run(once, DeadLetterOps(e, NoFault, now2));
            && e.id in once.events && e.id in twice.events
            && twice.events[e.id].status == once.events[e.id].status == DEAD_LETTERED
            && twice.audit == s.audit + [AuditEntry(e.id, DEAD_LETTERED, DeadLetterDetails, now1),
                                         AuditEntry(e.id, DEAD_LETTERED, DeadLetterDetails, now2)]
  {
    var once := Run(s, DeadLetterOps(e, NoFault, now1));
    DeadLetterEffect(s, e, now1);
    DeadLetterEffect(once, e, now2);
  }

  /** The handler rewrites only the row it was sent. */
  lemma DeadLetterKeepsWellFormed(s: Store, nextId: int, e: Event, fault: Fault, now: int)
    requires WellFormed(s, nextId) && e in s.dlq
    ensures WellFormed(Run(s, DeadLetterOps(e, fault, now)), nextId)
  {
    var ops := DeadLetterOps(e, fault, now);
    assert forall i :: 0 <= i < |ops| ==> Admissible(s, ops[i]);
    RunKeepsWellFormed(s, nextId, ops);
  }
}
