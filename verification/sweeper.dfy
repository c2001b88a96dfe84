/** The scheduled sweep: every due SCHEDULED event is published with the
    priority of its type's rule and then saved as QUEUED. */
module Sweeper {
  import opened Common
  import opened Events
  import opened Infrastructure
  import opened Repository
  import Dispatch

  /** The broker priority the sweep uses: 5 unless a rule exists for the
      event's type, then the rule's priority mapped as by the dispatcher. The
      event's own priority plays no part. `rules` maps a notification type
      to its rule's priority. */
  function RulePriority(rules: map<string, string>, notificationType: Option<string>): (p: int)
    ensures 1 <= p <= 10
    ensures notificationType.None? || notificationType.value !in rules ==> p == 5
    ensures notificationType.Some? && notificationType.value in rules ==> p == Dispatch.MapPriority(rules[notificationType.value])
  {
    if notificationType.Some? && notificationType.value in rules then Dispatch.MapPriority(rules[notificationType.value])
    else 5
  }

  /** The message the sweep publishes for `e`: the event as read, with its
      rule priority. */
  function Announce(e: Event, rules: map<string, string>): Message {
    Message(e, Some(RulePriority(rules, e.notificationType)))
  }

  function Promote(e: Event, now: int): Event {
    e.(status := QUEUED, updatedAt := now)
  }

  /** The due rows of the table at `now`, in table order. */
  function Due(events: map<int, Event>, nextId: int, now: int): seq<Event> {
    FindByStatusAndScheduledAtBefore(Table(events, nextId), SCHEDULED, now)
  }

  /** The calls of one turn of the loop: publish, then save as QUEUED. */
  function StepOps(e: Event, rules: map<string, string>, now: int): seq<Op> {
    [Published(Announce(e, rules)), Saved(Promote(e, now))]
  }

  /** The calls the loop makes for `es`, one turn per event in list order. */
  function SweepOps(es: seq<Event>, rules: map<string, string>, now: int): seq<Op>
    decreases |es|
  {
    if es == [] then [] else StepOps(es[0], rules, now) + SweepOps(es[1..], rules, now)
  }

  /** The effect of one turn: the row becomes QUEUED and the event joins the
      main route. */
  lemma StepEffect(s: Store, e: Event, rules: map<string, string>, now: int)
    ensures var t := Run(s, StepOps(e, rules, now));
            && t.events == s.events[e.id := Promote(e, now)]
            && t.mainQueue == s.mainQueue + [Announce(e, rules)]
            && t.audit == s.audit && t.dlq == s.dlq
  {
    RunPair(s, Published(Announce(e, rules)), Saved(Promote(e, now)));
  }

  /** The first turn of a sweep, then the rest. */
  lemma SweepUnfold(s: Store, es: seq<Event>, rules: map<string, string>, now: int)
    requires es != []
    ensures Run(s, SweepOps(es, rules, now)) == Run(Run(s, StepOps(es[0], rules, now)), SweepOps(es[1..], rules, now))
  {
    RunConcat(s, StepOps(es[0], rules, now), SweepOps(es[1..], rules, now));
  }

  /** Each event is published once and then saved, in list order. */
  lemma {:induction false} SweepOpsShape(es: seq<Event>, rules: map<string, string>, now: int)
    ensures |SweepOps(es, rules, now)| == 2 * |es|
    ensures forall j :: 0 <= j < |es| ==>
              && SweepOps(es, rules, now)[2 * j] == Published(Announce(es[j], rules))
              && SweepOps(es, rules, now)[2 * j + 1] == Saved(Promote(es[j], now))
    decreases |es|
  {
    if es != [] {
      SweepOpsShape(es[1..], rules, now);
      var ops := SweepOps(es, rules, now);
      forall j | 0 < j < |es|
        ensures ops[2 * j] == Published(Announce(es[j], rules))
        ensures ops[2 * j + 1] == Saved(Promote(es[j], now))
      {
        assert es[1..][j - 1] == es[j];
      }
    }
  }

  lemma {:induction false} SweepOpsSnoc(es: seq<Event>, e: Event, rules: map<string, string>, now: int)
    ensures SweepOps(es + [e], rules, now) == SweepOps(es, rules, now) + StepOps(e, rules, now)
    decreases |es|
  {
    if es == [] {
      assert es + [e] == [e];
      assert [e][1..] == [];
    } else {
      assert (es + [e])[0] == es[0];
      assert (es + [e])[1..] == es[1..] + [e];
      SweepOpsSnoc(es[1..], e, rules, now);
    }
  }

  /** The messages the sweep publishes for `es`, in order. */
  function Messages(es: seq<Event>, rules: map<string, string>): seq<Message>
    decreases |es|
  {
    if es == [] then [] else [Announce(es[0], rules)] + Messages(es[1..], rules)
  }

  /** The ids of `es`. */
  function Ids(es: seq<Event>): (ids: set<int>)
    ensures forall j :: 0 <= j < |es| ==> es[j].id in ids
    ensures forall id :: id in ids ==> exists j :: 0 <= j < |es| && es[j].id == id
    decreases |es|
  {
    if es == [] then {} else {es[0].id} + Ids(es[1..])
  }

  predicate DistinctIds(es: seq<Event>) {
    forall i, j :: 0 <= i < j < |es| ==> es[i].id != es[j].id
  }

  lemma DistinctTail(es: seq<Event>)
    requires es != [] && DistinctIds(es)
    ensures DistinctIds(es[1..]) && es[0].id !in Ids(es[1..])
  {
    forall i, j | 0 <= i < j < |es[1..]| ensures es[1..][i].id != es[1..][j].id {
      assert es[1..][i] == es[i + 1] && es[1..][j] == es[j + 1];
    }
    forall j | 0 <= j < |es[1..]| ensures es[1..][j].id != es[0].id {
      assert es[1..][j] == es[j + 1];
    }
  }

  /** The sweep's effect on the routes and the audit trail: each event is
      appended to the main route with its rule priority, in order, and
      nothing is audited or dead-lettered. */
  lemma {:induction false} SweepQueues(s: Store, es: seq<Event>, rules: map<string, string>, now: int)
    ensures var t := Run(s, SweepOps(es, rules, now));
            t.mainQueue == s.mainQueue + Messages(es, rules) && t.audit == s.audit && t.dlq == s.dlq
    decreases |es|
  {
    if es == [] {
      assert Messages(es, rules) == [];
    } else {
      var s1 := Run(s, StepOps(es[0], rules, now));
      StepEffect(s, es[0], rules, now);
      SweepUnfold(s, es, rules, now);
      SweepQueues(s1, es[1..], rules, now);
      var head := [Announce(es[0], rules)];
      assert Messages(es, rules) == head + Messages(es[1..], rules);
      assert (s.mainQueue + head) + Messages(es[1..], rules) == s.mainQueue + (head + Messages(es[1..], rules));
    }
  }

  /** The sweep's effect on the table, for distinct events: each listed row
      becomes its QUEUED version, every other row is untouched, and the
      stored ids are the old ones plus the listed ones. */
  lemma {:induction false} SweepRows(s: Store, es: seq<Event>, rules: map<string, string>, now: int)
    requires DistinctIds(es)
    ensures var t := Run(s, SweepOps(es, rules, now));
            && (forall j :: 0 <= j < |es| ==> es[j].id in t.events && t.events[es[j].id] == Promote(es[j], now))
            && (forall id :: id in s.events && id !in Ids(es) ==> id in t.events && t.events[id] == s.events[id])
            && t.events.Keys == s.events.Keys + Ids(es)
    decreases |es|
  {
    if es != [] {
      var rest := es[1..];
      var s1 := Run(s, StepOps(es[0], rules, now));
      StepEffect(s, es[0], rules, now);
      SweepUnfold(s, es, rules, now);
      DistinctTail(es);
      SweepRows(s1, rest, rules, now);
      var t := Run(s1, SweepOps(rest, rules, now));
      forall j | 0 < j < |es|
        ensures es[j].id in t.events && t.events[es[j].id] == Promote(es[j], now)
      {
        assert rest[j - 1] == es[j];
      }
    }
  }

  /** The due list holds distinct stored rows. */
  lemma DueListing(events: map<int, Event>, nextId: int, now: int)
    requires forall id :: id in events ==> events[id].id == id && 0 < id < nextId
    ensures Listing(Due(events, nextId, now), events)
    ensures DistinctIds(Due(events, nextId, now))
  {
    TableIsListing(events, nextId);
    SelectListing(Table(events, nextId), e => DueAt(e, SCHEDULED, now), events);
  }

  /** The due list holds exactly the stored rows that are due. */
  lemma DueMembers(events: map<int, Event>, nextId: int, now: int)
    requires forall id :: id in events ==> events[id].id == id && 0 < id < nextId
    ensures forall e :: e in Due(events, nextId, now) <==> e.id in events && events[e.id] == e && DueAt(e, SCHEDULED, now)
  {
    TableIsListing(events, nextId);
  }

  /** A prefix of a listing is a listing. */
  lemma ListingPrefix(rows: seq<Event>, events: map<int, Event>, k: nat)
    requires Listing(rows, events) && k <= |rows|
    ensures Listing(rows[..k], events)
  {
    forall i | 0 <= i < k ensures rows[..k][i] == rows[i] {
    }
  }

  /** A listing names each event once. */
  lemma ListingDistinct(rows: seq<Event>, events: map<int, Event>)
    requires Listing(rows, events)
    ensures DistinctIds(rows)
  {
  }

  /** Sweeping stored events keeps the store well formed and keeps its ids. */
  lemma SweepKeepsWellFormed(s: Store, nextId: int, es: seq<Event>, rules: map<string, string>, now: int)
    requires WellFormed(s, nextId) && Listing(es, s.events)
    ensures WellFormed(Run(s, SweepOps(es, rules, now)), nextId)
    ensures Run(s, SweepOps(es, rules, now)).events.Keys == s.events.Keys
  {
    var ops := SweepOps(es, rules, now);
    SweepOpsShape(es, rules, now);
    forall i | 0 <= i < |ops| ensures Admissible(s, ops[i]) {
      var j := i / 2;
      assert InRetryBounds(s.events[es[j].id]);
      if i == 2 * j {
        assert ops[i] == Published(Announce(es[j], rules));
      } else {
        assert ops[i] == Saved(Promote(es[j], now));
      }
    }
    RunKeepsWellFormed(s, nextId, ops);
  }

  /** One turn of the loop: the calls for a prefix one longer. */
  lemma SweepStep(s: Store, due: seq<Event>, i: nat, rules: map<string, string>, now: int)
    requires i < |due|
    ensures SweepOps(due[..i + 1], rules, now) == SweepOps(due[..i], rules, now) + [Published(Announce(due[i], rules))] + [Saved(Promote(due[i], now))]
    ensures Run(s, SweepOps(due[..i + 1], rules, now))
            == Apply(Apply(Run(s, SweepOps(due[..i], rules, now)), Published(Announce(due[i], rules))), Saved(Promote(due[i], now)))
  {
    var ops := SweepOps(due[..i], rules, now);
    assert due[..i + 1] == due[..i] + [due[i]];
    SweepOpsSnoc(due[..i], due[i], rules, now);
    RunSnoc(s, ops, Published(Announce(due[i], rules)));
    RunSnoc(s, ops + [Published(Announce(due[i], rules))], Saved(Promote(due[i], now)));
  }

  /** The loop of processScheduledNotifications over the due list `due`:
      publish each event with its rule priority, then save it as QUEUED,
      until the publish at position `failAt` throws. */
  method PublishDue(b: Backend, due: seq<Event>, rules: map<string, string>, now: int, failAt: nat) returns (published: nat)
    modifies b
    ensures published == (if failAt < |due| then failAt else |due|)
    ensures b.nextId == old(b.nextId)
    ensures b.trace == old(b.trace) + SweepOps(due[..published], rules, now)
    ensures b.Snapshot() == Run(old(b.Snapshot()), SweepOps(due[..published], rules, now))
  {
    ghost var s0 := b.Snapshot();
    ghost var t0 := b.trace;
    var i := 0;
    while i < |due| && i != failAt
      invariant 0 <= i <= |due| && i <= failAt
      invariant b.nextId == old(b.nextId)
      invariant b.trace == t0 + SweepOps(due[..i], rules, now)
      invariant b.Snapshot() == Run(s0, SweepOps(due[..i], rules, now))
    {
      ghost var done := SweepOps(due[..i], rules, now);
      var event := due[i];
      var priority := RulePriority(rules, event.notificationType);
      b.Publish(Message(event, Some(priority)));
      event := event.(status := QUEUED, updatedAt := now);
      b.Save(event);
      SweepStep(s0, due, i, rules, now);
      assert b.trace == t0 + (done + [Published(Announce(due[i], rules))] + [Saved(event)]);
      i := i + 1;
    }
    published := i;
  }

  /** processScheduledNotifications: the SCHEDULED rows due before `now`, in
      table order, go through the loop; `failAt` is the position of the first
      publish that throws (none when it is past the end), after which the
      exception escapes with the earlier events published and saved. Returns
      how many events were. */
  method Sweep(b: Backend, rules: map<string, string>, now: int, failAt: nat) returns (published: nat)
    requires b.Valid()
    modifies b
    ensures b.Valid() && b.nextId == old(b.nextId)
    ensures var due := Due(old(b.events), old(b.nextId), now);
            && published == (if failAt < |due| then failAt else |due|)
            && b.trace == old(b.trace) + SweepOps(due[..published], rules, now)
            && b.Snapshot() == Run(old(b.Snapshot()), SweepOps(due[..published], rules, now))
  {
    ghost var s0 := b.Snapshot();
    var due := Due(b.events, b.nextId, now);
    if |due| == 0 {
      assert due[..0] == [];
      return 0;
    }
    published := PublishDue(b, due, rules, now, failAt);
    DueListing(s0.events, b.nextId, now);
    ListingPrefix(due, s0.events, published);
    SweepKeepsWellFormed(s0, b.nextId, due[..published], rules, now);
  }

  /** A complete sweep leaves nothing due at the same time: every due row is
      now QUEUED and no other row was due. */
  lemma {:induction false} SweepDrainsDue(s: Store, nextId: int, rules: map<string, string>, now: int)
    requires WellFormed(s, nextId)
    ensures var t := Run(s, SweepOps(Due(s.events, nextId, now), rules, now));
            forall id :: id in t.events ==> !DueAt(t.events[id], SCHEDULED, now)
  {
    var due := Due(s.events, nextId, now);
    DueListing(s.events, nextId, now);
    ListingDistinct(due, s.events);
    DueMembers(s.events, nextId, now);
    SweepRows(s, due, rules, now);
    SweepKeepsWellFormed(s, nextId, due, rules, now);
    var t := Run(s, SweepOps(due, rules, now));
    forall id | id in t.events ensures !DueAt(t.events[id], SCHEDULED, now) {
      if id in Ids(due) {
        var j :| 0 <= j < |due| && due[j].id == id;
        assert t.events[id] == Promote(due[j], now);
      } else {
        assert s.events[id] !in due;
      }
    }
  }

  /** A second sweep at the same time finds nothing due, so it publishes and
      saves nothing. */
  lemma SecondSweepIsEmpty(s: Store, nextId: int, rules: map<string, string>, now: int)
    requires WellFormed(s, nextId)
    ensures var t := Run(s, SweepOps(Due(s.events, nextId, now), rules, now));
            && Due(t.events, nextId, now) == []
            && SweepOps(Due(t.events, nextId, now), rules, now) == []
  {
    var due := Due(s.events, nextId, now);
    SweepDrainsDue(s, nextId, rules, now);
    DueListing(s.events, nextId, now);
    SweepKeepsWellFormed(s, nextId, due, rules, now);
    var t := Run(s, SweepOps(due, rules, now));
    NothingDue(t.events, nextId, now);
  }

  /** With no stored row due, the due list is empty. */
  lemma NothingDue(events: map<int, Event>, nextId: int, now: int)
    requires forall id :: id in events ==> events[id].id == id && 0 < id < nextId
    requires forall id :: id in events ==> !DueAt(events[id], SCHEDULED, now)
    ensures Due(events, nextId, now) == []
  {
    var rows := Table(events, nextId);
    TableIsListing(events, nextId);
    NoneDue(rows, SCHEDULED, now);
  }

  /** A stored row that is due is in the due list. */
  lemma StoredDueIsListed(events: map<int, Event>, nextId: int, now: int, e: Event)
    requires forall id :: id in events ==> events[id].id == id && 0 < id < nextId
    requires e.id in events && events[e.id] == e && DueAt(e, SCHEDULED, now)
    ensures e in Due(events, nextId, now)
  {
    DueMembers(events, nextId, now);
  }

  /** When the publish at position `k` throws, every event from `k` on is
      still stored unchanged, so it is still due and the next run sends it. */
  lemma AbortLeavesRestDue(s: Store, nextId: int, rules: map<string, string>, now: int, k: nat)
    requires WellFormed(s, nextId)
    requires k <= |Due(s.events, nextId, now)|
    ensures var due := Due(s.events, nextId, now);
            var t := Run(s, SweepOps(due[..k], rules, now));
            forall j :: k <= j < |due| ==> due[j] in Due(t.events, nextId, now)
  {
    forall j | k <= j < |Due(s.events, nextId, now)|
      ensures Due(s.events, nextId, now)[j] in Due(Run(s, SweepOps(Due(s.events, nextId, now)[..k], rules, now)).events, nextId, now)
    {
      RestStillDue(s, nextId, rules, now, k, j);
    }
  }

  /** One event past the abort point is still due after the aborted sweep. */
  lemma RestStillDue(s: Store, nextId: int, rules: map<string, string>, now: int, k: nat, j: nat)
    requires WellFormed(s, nextId)
    requires k <= j < |Due(s.events, nextId, now)|
    ensures var due := Due(s.events, nextId, now);
            due[j] in Due(Run(s, SweepOps(due[..k], rules, now)).events, nextId, now)
  {
    var due := Due(s.events, nextId, now);
    var done := due[..k];
    DueListing(s.events, nextId, now);
    ListingPrefix(due, s.events, k);
    ListingDistinct(done, s.events);
    NotYetSwept(due, s.events, k, j);
    SweepRows(s, done, rules, now);
    SweepKeepsWellFormed(s, nextId, done, rules, now);
    var t := Run(s, SweepOps(done, rules, now));
    assert due[j] in due;
    StoredDueIsListed(t.events, nextId, now, due[j]);
  }

  /** In a listing, no row past position `k` shares an id with the first `k`. */
  lemma NotYetSwept(rows: seq<Event>, events: map<int, Event>, k: nat, j: nat)
    requires Listing(rows, events) && k <= j < |rows|
    ensures rows[j].id !in Ids(rows[..k])
  {
    forall i | 0 <= i < k ensures rows[..k][i].id != rows[j].id {
      assert rows[..k][i] == rows[i];
    }
  }

  /** The sweep publishes with the rule's priority, not the event's: a
      CRITICAL event whose type has no rule goes out at 5, where the
      dispatcher would have sent it at 10. */
  lemma SweepIgnoresEventPriority(e: Event, rules: map<string, string>, now: int)
    requires e.priority == "CRITICAL"
    requires e.notificationType.None? || e.notificationType.value !in rules
    ensures SweepOps([e], rules, now)[0] == Published(Message(e, Some(5)))
    ensures Dispatch.MapPriority(e.priority) == 10
  {
    SweepOpsShape([e], rules, now);
  }
}
