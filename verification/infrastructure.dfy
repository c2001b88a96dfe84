/** The collaborators every service shares: the event repository, the audit
    repository and the broker's two routes. The database is a map from event
    id to row, the audit table an append-only sequence, and each broker route
    the sequence of messages published to it. */
module Infrastructure {
  import opened Common
  import opened Events

  /** The persistent state at one instant. */
  datatype Store = Store(
    events: map<int, Event>,
    audit: seq<AuditEntry>,
    mainQueue: seq<Message>,
    dlq: seq<Event>)

  /** One call a service makes on a collaborator, in the order made. */
  datatype Op =
    | Saved(event: Event)              // eventRepository.save (insert or update by id)
    | Audited(entry: AuditEntry)       // auditLogRepository.save
    | Published(message: Message)      // publish on the main route
    | SentToDlq(event: Event)          // publish on the dead-letter route
    | Acked                            // basicAck of the delivery being handled
    | Nacked(requeue: bool)            // basicNack of the delivery being handled
    | RolledBack(to: Store)            // a transaction rollback

  /** The effect of one call on the persistent state. Acknowledgements only
      settle the delivery at the broker and change nothing stored here. */
  function Apply(s: Store, op: Op): Store {
    match op
    case Saved(e) => s.(events := s.events[e.id := e])
    case Audited(a) => s.(audit := s.audit + [a])
    case Published(m) => s.(mainQueue := s.mainQueue + [m])
    case SentToDlq(e) => s.(dlq := s.dlq + [e])
    case Acked => s
    case Nacked(_) => s
    case RolledBack(t) => t
  }

  /** The effect of a sequence of calls. */
  function Run(s: Store, ops: seq<Op>): Store
    decreases |ops|
  {
    if ops == [] then s else Run(Apply(s, ops[0]), ops[1..])
  }

  lemma RunOne(s: Store, op: Op)
    ensures Run(s, [op]) == Apply(s, op)
  {
    assert [op][1..] == [];
  }

  lemma RunPair(s: Store, a: Op, b: Op)
    ensures Run(s, [a, b]) == Apply(Apply(s, a), b)
  {
    assert [a, b][1..] == [b];
    RunOne(Apply(s, a), b);
  }

  lemma RunSnoc(s: Store, ops: seq<Op>, op: Op)
    ensures Run(s, ops + [op]) == Apply(Run(s, ops), op)
  {
    RunConcat(s, ops, [op]);
    RunOne(Run(s, ops), op);
  }

  lemma {:induction false} RunConcat(s: Store, a: seq<Op>, b: seq<Op>)
    ensures Run(s, a + b) == Run(Run(s, a), b)
    decreases |a|
  {
    if a == [] {
      assert a + b == b;
    } else {
      assert (a + b)[0] == a[0];
      assert (a + b)[1..] == a[1..] + b;
      RunConcat(Apply(s, a[0]), a[1..], b);
    }
  }

  /** Every stored row sits under its own id, ids are below the next id to be
      assigned, and every row and every queued message respects the retry
      limit and refers to a stored event. */
  predicate WellFormed(s: Store, nextId: int) {
    && 0 < nextId
    && (forall id :: id in s.events ==> 0 < id < nextId && s.events[id].id == id && InRetryBounds(s.events[id]))
    && (forall m :: m in s.mainQueue ==> m.event.id in s.events && InRetryBounds(m.event))
    && (forall e :: e in s.dlq ==> e.id in s.events && InRetryBounds(e))
  }

  /** A call that updates an existing row or publishes a stored event, and
      keeps the retry limit. */
  predicate Admissible(s: Store, op: Op) {
    match op
    case Saved(e) => e.id in s.events && InRetryBounds(e)
    case Audited(_) => true
    case Published(m) => m.event.id in s.events && InRetryBounds(m.event)
    case SentToDlq(e) => e.id in s.events && InRetryBounds(e)
    case Acked => true
    case Nacked(_) => true
    case RolledBack(_) => false
  }

  /** Calls that are admissible in a well-formed state keep it well formed and
      keep the set of stored ids. */
  lemma {:induction false} RunKeepsWellFormed(s: Store, nextId: int, ops: seq<Op>)
    requires WellFormed(s, nextId)
    requires forall i :: 0 <= i < |ops| ==> Admissible(s, ops[i])
    ensures WellFormed(Run(s, ops), nextId)
    ensures Run(s, ops).events.Keys == s.events.Keys
    decreases |ops|
  {
    if ops != [] {
      var s' := Apply(s, ops[0]);
      assert s'.events.Keys == s.events.Keys;
      assert forall i :: 0 <= i < |ops[1..]| ==> Admissible(s', ops[1..][i]) by {
        forall i | 0 <= i < |ops[1..]|
          ensures Admissible(s', ops[1..][i])
        {
          assert ops[1..][i] == ops[i + 1];
          assert Admissible(s, ops[i + 1]);
        }
      }
      RunKeepsWellFormed(s', nextId, ops[1..]);
    }
  }

  /** The repositories and the broker as one object whose fields the services
      update; `trace` records every call in order. */
  class Backend {
    var events: map<int, Event>
    var audit: seq<AuditEntry>
    var mainQueue: seq<Message>
    var dlq: seq<Event>
    var nextId: int
    ghost var trace: seq<Op>

    function Snapshot(): Store
      reads this
    {
      Store(events, audit, mainQueue, dlq)
    }

    ghost predicate Valid()
      reads this
    {
      WellFormed(Snapshot(), nextId)
    }

    constructor ()
      ensures Valid()
      ensures Snapshot() == Store(map[], [], [], []) && nextId == 1 && trace == []
    {
      events, audit, mainQueue, dlq := map[], [], [], [];
      nextId := 1;
      trace := [];
    }

    /** Saving a new entity: the database assigns the next identity value. */
    method Insert(e: Event) returns (saved: Event)
      modifies this
      ensures saved == e.(id := old(nextId)) && nextId == old(nextId) + 1
      ensures Snapshot() == Apply(old(Snapshot()), Saved(saved))
      ensures trace == old(trace) + [Saved(saved)]
    {
      saved := e.(id := nextId);
      nextId := nextId + 1;
      events := events[saved.id := saved];
      trace := trace + [Saved(saved)];
    }

    /** Saving an entity that carries an id: the row with that id is replaced. */
    method Save(e: Event)
      modifies this
      ensures nextId == old(nextId)
      ensures Snapshot() == Apply(old(Snapshot()), Saved(e))
      ensures trace == old(trace) + [Saved(e)]
    {
      events := events[e.id := e];
      trace := trace + [Saved(e)];
    }

    method AppendAudit(entry: AuditEntry)
      modifies this
      ensures nextId == old(nextId)
      ensures Snapshot() == Apply(old(Snapshot()), Audited(entry))
      ensures trace == old(trace) + [Audited(entry)]
    {
      audit := audit + [entry];
      trace := trace + [Audited(entry)];
    }

    method Publish(m: Message)
      modifies this
      ensures nextId == old(nextId)
      ensures Snapshot() == Apply(old(Snapshot()), Published(m))
      ensures trace == old(trace) + [Published(m)]
    {
      mainQueue := mainQueue + [m];
      trace := trace + [Published(m)];
    }

    method SendToDlq(e: Event)
      modifies this
      ensures nextId == old(nextId)
      ensures Snapshot() == Apply(old(Snapshot()), SentToDlq(e))
      ensures trace == old(trace) + [SentToDlq(e)]
    {
      dlq := dlq + [e];
      trace := trace + [SentToDlq(e)];
    }

    /** basicAck / basicNack: recorded, nothing stored changes. */
    method Settle(op: Op)
      requires op == Acked || op.Nacked?
      modifies this
      ensures nextId == old(nextId)
      ensures Snapshot() == Apply(old(Snapshot()), op)
      ensures trace == old(trace) + [op]
    {
      trace := trace + [op];
    }

    /** A transaction rollback restores the tables; the identity counter is
        not transactional and keeps its value. */
    method Rollback(to: Store)
      modifies this
      ensures nextId == old(nextId)
      ensures Snapshot() == Apply(old(Snapshot()), RolledBack(to))
      ensures trace == old(trace) + [RolledBack(to)]
    {
      events, audit, mainQueue, dlq := to.events, to.audit, to.mainQueue, to.dlq;
      trace := trace + [RolledBack(to)];
    }
  }
}
