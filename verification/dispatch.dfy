/** The dispatcher: validation and normalisation of a submission, the initial
    status, the first save, the CREATED audit entry and, for an immediate
    notification, the QUEUED save and the prioritised publish; with the pure
    helpers beside it. */
module Dispatch {
  import opened Common
  import opened Text
  import opened Events
  import opened Infrastructure

  predicate IsValidChannel(channel: string) {
    channel == "EMAIL" || channel == "SMS" || channel == "PUSH"
  }

  predicate IsValidPriority(priority: string) {
    priority == "LOW" || priority == "MEDIUM" || priority == "HIGH" || priority == "CRITICAL"
  }

  /** mapPriority: the broker priority of a rule or request priority, in any
      case. Exactly the four known priorities escape the default 3. */
  function MapPriority(priority: string): (r: int)
    ensures 1 <= r <= 10
    ensures r == 3 <==> !IsValidPriority(ToUpper(priority))
    ensures ToUpper(priority) == "CRITICAL" ==> r == 10
    ensures ToUpper(priority) == "HIGH" ==> r == 7
    ensures ToUpper(priority) == "MEDIUM" ==> r == 5
    ensures ToUpper(priority) == "LOW" ==> r == 1
  {
    var p := ToUpper(priority);
    if p == "CRITICAL" then 10
    else if p == "HIGH" then 7
    else if p == "MEDIUM" then 5
    else if p == "LOW" then 1
    else 3
  }

  /** The mapping ignores case. */
  lemma MapPriorityIgnoresCase(priority: string)
    ensures MapPriority(priority) == MapPriority(ToUpper(priority))
  {
    ToUpperIdempotent(priority);
  }

  /** The mapping is strictly increasing in urgency. */
  lemma MapPriorityOrdered(low: string, medium: string, high: string, critical: string)
    requires ToUpper(low) == "LOW" && ToUpper(medium) == "MEDIUM"
    requires ToUpper(high) == "HIGH" && ToUpper(critical) == "CRITICAL"
    ensures MapPriority(low) < MapPriority(medium) < MapPriority(high) < MapPriority(critical)
  {
  }

  /** A field that is present and not only trimmable characters
      (the negation of `x == null || x.trim().isEmpty()`). */
  predicate Present(field: Option<string>) {
    field.Some? && Trim(field.value) != []
  }

  /** The channel as normalised before validation: upper-cased, not trimmed. */
  function ChannelOf(channel: Option<string>): string {
    if Present(channel) then ToUpper(channel.value) else "EMAIL"
  }

  /** The priority as normalised before validation: upper-cased, not trimmed. */
  function PriorityOf(priority: Option<string>): string {
    if Present(priority) then ToUpper(priority.value) else "MEDIUM"
  }

  /** Every character is an upper-case ASCII letter. */
  predicate UpperWord(w: string) {
    forall i :: 0 <= i < |w| ==> 'A' <= w[i] <= 'Z'
  }

  lemma ValidNamesAreWords(w: string)
    requires IsValidChannel(w) || IsValidPriority(w)
    ensures UpperWord(w)
  {
  }

  lemma UpperCharLetter(c: char)
    requires 'A' <= UpperChar(c) <= 'Z'
    ensures !IsTrimmable(c)
  {
  }

  /** No character of the string is one that trim would remove. */
  predicate Unpadded(w: string) {
    forall i :: 0 <= i < |w| ==> !IsTrimmable(w[i])
  }

  /** Upper-casing produces an upper-case letter only from a letter. */
  lemma UpperOfLettersOnly(s: string)
    requires UpperWord(ToUpper(s))
    ensures Unpadded(s)
  {
    var u := ToUpper(s);
    assert |u| == |s|;
    forall i | 0 <= i < |s|
      ensures !IsTrimmable(s[i])
    {
      assert 'A' <= u[i] <= 'Z';
      assert u[i] == UpperChar(s[i]);
      UpperCharLetter(s[i]);
    }
  }

  /** A given channel is accepted only if it carries no padding at all:
      trimming happens in the presence test, not in the normalisation. */
  lemma AcceptedChannelIsUnpadded(channel: Option<string>)
    requires Present(channel) && IsValidChannel(ChannelOf(channel))
    ensures Unpadded(channel.value)
  {
    ValidNamesAreWords(ToUpper(channel.value));
    UpperOfLettersOnly(channel.value);
  }

  /** The same holds for a given priority. */
  lemma AcceptedPriorityIsUnpadded(priority: Option<string>)
    requires Present(priority) && IsValidPriority(PriorityOf(priority))
    ensures Unpadded(priority.value)
  {
    ValidNamesAreWords(ToUpper(priority.value));
    UpperOfLettersOnly(priority.value);
  }

  /** A missing or blank channel is EMAIL, which is valid. */
  lemma ChannelDefaultsToEmail(channel: Option<string>)
    requires !Present(channel)
    ensures ChannelOf(channel) == "EMAIL" && IsValidChannel(ChannelOf(channel))
  {
  }

  /** A name in any case that upper-cases to a valid channel passes the
      presence test, is upper-cased and accepted. */
  lemma NamedChannelAccepted(name: string)
    requires IsValidChannel(ToUpper(name))
    ensures Present(Some(name)) && ChannelOf(Some(name)) == ToUpper(name)
    ensures IsValidChannel(ChannelOf(Some(name)))
  {
    var u := ToUpper(name);
    ValidNamesAreWords(u);
    assert u != [] && |u| == |name|;
    UpperOfLettersOnly(name);
    UnpaddedIsPresent(name);
  }

  /** A non-empty string without padding passes the presence test. */
  lemma UnpaddedIsPresent(w: string)
    requires w != [] && Unpadded(w)
    ensures Present(Some(w))
  {
    assert !IsTrimmable(w[0]);
  }

  /** The scheduled time: parsed only when given and not blank; a value the
      parser rejects is an error. */
  function ParseSchedule(scheduledTime: Option<string>, parse: string -> Option<int>): (r: Result<Option<int>>)
    ensures r.Err? <==> scheduledTime.Some? && !IsBlank(scheduledTime.value) && parse(scheduledTime.value).None?
    ensures r.Err? ==> r.failure == IllegalArgument("❌ Invalid scheduledTime format. Use ISO-8601: 2026-01-06T15:30:00")
    ensures r.Ok? && r.value.Some? ==> scheduledTime.Some? && parse(scheduledTime.value) == r.value
    ensures r.Ok? && r.value.None? ==> scheduledTime.None? || IsBlank(scheduledTime.value)
  {
    if scheduledTime.Some? && !IsBlank(scheduledTime.value) then
      match parse(scheduledTime.value)
      case None => Err(IllegalArgument("❌ Invalid scheduledTime format. Use ISO-8601: 2026-01-06T15:30:00"))
      case Some(t) => Ok(Some(t))
    else Ok(None)
  }

  /** A notification is deferred exactly when its time is strictly after now. */
  predicate IsFuture(scheduledAt: Option<int>, now: int) {
    scheduledAt.Some? && scheduledAt.value > now
  }

  /** The validated, normalised event of a submission (id not yet assigned),
      or the IllegalArgumentException the validation raises, in the order the
      checks are made. */
  function BuildEvent(req: Request, now: int, parse: string -> Option<int>): (r: Result<Event>)
    ensures r.Ok? <==>
              && Present(req.recipient) && Present(req.message)
              && IsValidChannel(ChannelOf(req.channel)) && IsValidPriority(PriorityOf(req.priority))
              && ParseSchedule(req.scheduledTime, parse).Ok?
    ensures r.Err? ==> r.failure.IllegalArgument?
    ensures !Present(req.recipient) ==> r == Err(IllegalArgument("❌ Recipient is required"))
    ensures Present(req.recipient) && !Present(req.message) ==> r == Err(IllegalArgument("❌ Message is required"))
    ensures Present(req.recipient) && Present(req.message) && !IsValidChannel(ChannelOf(req.channel)) ==>
              r == Err(IllegalArgument("❌ Invalid channel: " + ChannelOf(req.channel) + ". Allowed: EMAIL, SMS, PUSH"))
    ensures Present(req.recipient) && Present(req.message) && IsValidChannel(ChannelOf(req.channel))
            && !IsValidPriority(PriorityOf(req.priority)) ==>
              r == Err(IllegalArgument("❌ Invalid priority: " + PriorityOf(req.priority) + ". Allowed: LOW, MEDIUM, HIGH, CRITICAL"))
    ensures Present(req.recipient) && Present(req.message) && IsValidChannel(ChannelOf(req.channel))
            && IsValidPriority(PriorityOf(req.priority)) && ParseSchedule(req.scheduledTime, parse).Err? ==>
              r == Err(ParseSchedule(req.scheduledTime, parse).failure)
    ensures r.Ok? ==>
              var e := r.value;
              && e.recipient == Trim(req.recipient.value) && e.recipient != []
              && e.message == Trim(req.message.value) && e.message != []
              && IsValidChannel(e.channel) && IsValidPriority(e.priority)
              && e.subject == Some(if req.subject.Some? then req.subject.value else "Notification")
              && e.notificationType == req.notificationType
              && e.retryCount == 0 && e.failureReason == None
              && e.scheduledAt == ParseSchedule(req.scheduledTime, parse).value
              && (e.status == SCHEDULED <==> IsFuture(e.scheduledAt, now))
              && (e.status == SCHEDULED || e.status == QUEUED)
              && e.createdAt == now && e.updatedAt == now
  {
    if !Present(req.recipient) then Err(IllegalArgument("❌ Recipient is required"))
    else if !Present(req.message) then Err(IllegalArgument("❌ Message is required"))
    else
      var channel := ChannelOf(req.channel);
      if !IsValidChannel(channel) then
        Err(IllegalArgument("❌ Invalid channel: " + channel + ". Allowed: EMAIL, SMS, PUSH"))
      else
        var priority := PriorityOf(req.priority);
        if !IsValidPriority(priority) then
          Err(IllegalArgument("❌ Invalid priority: " + priority + ". Allowed: LOW, MEDIUM, HIGH, CRITICAL"))
        else
          match ParseSchedule(req.scheduledTime, parse)
          case Err(f) => Err(f)
          case Ok(scheduledAt) =>
            Ok(Event(
              id := 0,
              recipient := Trim(req.recipient.value),
              message := Trim(req.message.value),
              subject := Some(if req.subject.Some? then req.subject.value else "Notification"),
              channel := channel,
              priority := priority,
              notificationType := req.notificationType,
              status := if IsFuture(scheduledAt, now) then SCHEDULED else QUEUED,
              retryCount := 0,
              failureReason := None,
              scheduledAt := scheduledAt,
              createdAt := now,
              updatedAt := now))
  }

  /** A validated priority is already upper case, so it never falls to the
      default broker priority. */
  lemma ValidPriorityIsMapped(priority: string)
    requires IsValidPriority(priority)
    ensures MapPriority(priority) != 3
  {
    if priority == "LOW" {
      assert ToUpper(priority) == "LOW";
    } else if priority == "MEDIUM" {
      assert ToUpper(priority) == "MEDIUM";
    } else if priority == "HIGH" {
      assert ToUpper(priority) == "HIGH";
    } else {
      assert ToUpper(priority) == "CRITICAL";
    }
  }

  /** The details of the CREATED audit entry. */
  function CreatedDetails(e: Event, now: int): string {
    if IsFuture(e.scheduledAt, now) then "Notification scheduled for " + IntToString(e.scheduledAt.value)
    else "Notification created and queued by user"
  }

  const PublishFailure := Runtime("Failed to send notification: Failed to publish to queue")

  /** The calls sendNotification makes, given the id the database assigns,
      the state when the transaction began and whether the broker accepts the
      publish. */
  function DispatchOps(built: Result<Event>, now: int, publishOk: bool, id: int, begin: Store): seq<Op> {
    match built
    case Err(_) => []
    case Ok(e) =>
      if IsFuture(e.scheduledAt, now) then CreatedOps(e, now, id)
      else CreatedOps(e, now, id) + QueueOps(e.(id := id).(status := QUEUED), e.priority, publishOk, begin)
  }

  /** The insert of the new row and its CREATED entry. */
  function CreatedOps(e: Event, now: int, id: int): seq<Op> {
    [Saved(e.(id := id)), Audited(AuditEntry(id, CREATED, CreatedDetails(e, now), now))]
  }

  /** The immediate path: the QUEUED row is saved, then published, or the
      transaction is rolled back to `begin` when the publish throws. */
  function QueueOps(queued: Event, priority: string, publishOk: bool, begin: Store): seq<Op> {
    [Saved(queued)] + (if publishOk then [Published(Message(queued, Some(MapPriority(priority))))] else [RolledBack(begin)])
  }

  /** What sendNotification returns or throws. */
  function DispatchResult(built: Result<Event>, now: int, publishOk: bool, id: int): Result<Response> {
    match built
    case Err(f) => Err(f)
    case Ok(e) =>
      if IsFuture(e.scheduledAt, now) then Ok(Response(id, SCHEDULED, "✅ Notification scheduled successfully"))
      else if publishOk then Ok(Response(id, QUEUED, "✅ Notification queued successfully"))
      else Err(PublishFailure)
  }

  /** sendNotification. `parse` is LocalDateTime.parse, `now` the clock and
      `publishOk` whether the broker accepts the message. */
  method SendNotification(b: Backend, req: Request, now: int, parse: string -> Option<int>, publishOk: bool)
    returns (r: Result<Response>)
    requires b.Valid()
    modifies b
    ensures b.Valid()
    ensures b.nextId == old(b.nextId) + (if BuildEvent(req, now, parse).Ok? then 1 else 0)
    ensures r == DispatchResult(BuildEvent(req, now, parse), now, publishOk, old(b.nextId))
    ensures b.trace == old(b.trace) + DispatchOps(BuildEvent(req, now, parse), now, publishOk, old(b.nextId), old(b.Snapshot()))
    ensures b.Snapshot() == Run(old(b.Snapshot()), DispatchOps(BuildEvent(req, now, parse), now, publishOk, old(b.nextId), old(b.Snapshot())))
  {
    var built := BuildEvent(req, now, parse);
    r := Record(b, built, now, publishOk);
  }

  /** The part of sendNotification after validation: saves, audits and
      publishes the built event inside one transaction. */
  method Record(b: Backend, built: Result<Event>, now: int, publishOk: bool) returns (r: Result<Response>)
    requires b.Valid()
    requires built.Ok? ==> InRetryBounds(built.value)
    modifies b
    ensures b.Valid()
    ensures b.nextId == old(b.nextId) + (if built.Ok? then 1 else 0)
    ensures r == DispatchResult(built, now, publishOk, old(b.nextId))
    ensures b.trace == old(b.trace) + DispatchOps(built, now, publishOk, old(b.nextId), old(b.Snapshot()))
    ensures b.Snapshot() == Run(old(b.Snapshot()), DispatchOps(built, now, publishOk, old(b.nextId), old(b.Snapshot())))
  {
    DispatchKeepsWellFormed(b.Snapshot(), b.nextId, built, now, publishOk);
    if built.Err? {
      return Err(built.failure);
    }
    r := Persist(b, built.value, now, publishOk);
  }

  /** The transaction of sendNotification for a valid event. */
  method Persist(b: Backend, e: Event, now: int, publishOk: bool) returns (r: Result<Response>)
    modifies b
    ensures b.nextId == old(b.nextId) + 1
    ensures r == DispatchResult(Ok(e), now, publishOk, old(b.nextId))
    ensures b.trace == old(b.trace) + DispatchOps(Ok(e), now, publishOk, old(b.nextId), old(b.Snapshot()))
    ensures b.Snapshot() == Run(old(b.Snapshot()), DispatchOps(Ok(e), now, publishOk, old(b.nextId), old(b.Snapshot())))
  {
    var begin := b.Snapshot();
    ghost var id := b.nextId;
    var saved := b.Insert(e);
    var deferred := IsFuture(e.scheduledAt, now);
    b.AppendAudit(AuditEntry(saved.id, CREATED, CreatedDetails(e, now), now));
    ghost var created := CreatedOps(e, now, id);
    RunPair(begin, created[0], created[1]);
    if deferred {
      return Ok(Response(saved.id, SCHEDULED, "✅ Notification scheduled successfully"));
    }
    var queued := saved.(status := QUEUED);
    r := Enqueue(b, queued, e.priority, publishOk, begin);
    RunConcat(begin, created, QueueOps(queued, e.priority, publishOk, begin));
  }

  /** The immediate path of sendNotification: save the QUEUED row and publish
      it with its mapped priority; a failed publish rolls the transaction back
      to `begin` and surfaces as PublishFailure. */
  method Enqueue(b: Backend, queued: Event, priority: string, publishOk: bool, begin: Store) returns (r: Result<Response>)
    modifies b
    ensures b.nextId == old(b.nextId)
    ensures r == if publishOk then Ok(Response(queued.id, QUEUED, "✅ Notification queued successfully")) else Err(PublishFailure)
    ensures b.trace == old(b.trace) + QueueOps(queued, priority, publishOk, begin)
    ensures b.Snapshot() == Run(old(b.Snapshot()), QueueOps(queued, priority, publishOk, begin))
  {
    ghost var s0 := b.Snapshot();
    b.Save(queued);
    var last: Op;
    if publishOk {
      last := Published(Message(queued, Some(MapPriority(priority))));
      b.Publish(Message(queued, Some(MapPriority(priority))));
      r := Ok(Response(queued.id, QUEUED, "✅ Notification queued successfully"));
    } else {
      last := RolledBack(begin);
      b.Rollback(begin);
      r := Err(PublishFailure);
    }
    RunPair(s0, Saved(queued), last);
  }

  /** Raising the id counter keeps a store well formed. */
  lemma WellFormedUpTo(s: Store, id: int, id': int)
    requires WellFormed(s, id) && id <= id'
    ensures WellFormed(s, id')
  {
  }

  /** Dispatch keeps the store well formed once the id counter has moved past
      the new row. */
  lemma DispatchKeepsWellFormed(s: Store, id: int, built: Result<Event>, now: int, publishOk: bool)
    requires WellFormed(s, id)
    requires built.Ok? ==> InRetryBounds(built.value)
    ensures WellFormed(Run(s, DispatchOps(built, now, publishOk, id, s)), id + (if built.Ok? then 1 else 0))
  {
    if built.Ok? {
      var e := built.value;
      var created := CreatedOps(e, now, id);
      CreatedKeepsWellFormed(s, id, e, now);
      if !IsFuture(e.scheduledAt, now) {
        var queue := QueueOps(e.(id := id).(status := QUEUED), e.priority, publishOk, s);
        RunConcat(s, created, queue);
        WellFormedUpTo(s, id, id + 1);
        QueueKeepsWellFormed(Run(s, created), id + 1, e.(id := id).(status := QUEUED), e.priority, publishOk, s);
      }
    }
  }

  /** Inserting a row under the current counter and auditing it keeps the
      store well formed once the counter moves on. */
  lemma CreatedKeepsWellFormed(s: Store, id: int, e: Event, now: int)
    requires WellFormed(s, id) && InRetryBounds(e)
    ensures WellFormed(Run(s, CreatedOps(e, now, id)), id + 1)
    ensures id in Run(s, CreatedOps(e, now, id)).events
  {
    var created := CreatedOps(e, now, id);
    RunPair(s, created[0], created[1]);
    assert WellFormed(Apply(s, created[0]), id + 1);
  }

  /** The immediate path keeps a well-formed store well formed, provided the
      rollback target is well formed too. */
  lemma QueueKeepsWellFormed(s: Store, id: int, queued: Event, priority: string, publishOk: bool, begin: Store)
    requires WellFormed(s, id) && WellFormed(begin, id)
    requires queued.id in s.events && InRetryBounds(queued)
    ensures WellFormed(Run(s, QueueOps(queued, priority, publishOk, begin)), id)
  {
    var queue := QueueOps(queued, priority, publishOk, begin);
    if publishOk {
      assert Admissible(s, queue[0]) && Admissible(s, queue[1]);
      RunKeepsWellFormed(s, id, queue);
    } else {
      RunPair(s, queue[0], queue[1]);
    }
  }

  /** An invalid submission changes nothing and raises the validation error. */
  lemma RejectedChangesNothing(s: Store, id: int, req: Request, now: int, parse: string -> Option<int>, publishOk: bool)
    requires !Present(req.recipient) || !Present(req.message)
    ensures Run(s, DispatchOps(BuildEvent(req, now, parse), now, publishOk, id, s)) == s
    ensures DispatchResult(BuildEvent(req, now, parse), now, publishOk, id) ==
              Err(IllegalArgument(if !Present(req.recipient) then "❌ Recipient is required" else "❌ Message is required"))
  {
  }

  /** A deferred notification is stored as SCHEDULED with one CREATED entry
      naming its time, and nothing is published. */
  lemma DeferredIsNotPublished(s: Store, id: int, built: Result<Event>, now: int, publishOk: bool)
    requires built.Ok? && IsFuture(built.value.scheduledAt, now)
    requires built.value.status == SCHEDULED
    ensures var t := Run(s, DispatchOps(built, now, publishOk, id, s));
            && t.events == s.events[id := built.value.(id := id)]
            && t.events[id].status == SCHEDULED
            && t.audit == s.audit + [AuditEntry(id, CREATED, "Notification scheduled for " + IntToString(built.value.scheduledAt.value), now)]
            && t.mainQueue == s.mainQueue && t.dlq == s.dlq
    ensures DispatchResult(built, now, publishOk, id) == Ok(Response(id, SCHEDULED, "✅ Notification scheduled successfully"))
  {
    var e := built.value;
    RunPair(s, Saved(e.(id := id)), Audited(AuditEntry(id, CREATED, CreatedDetails(e, now), now)));
  }

  /** An immediate notification is stored as QUEUED with one CREATED entry,
      and exactly that stored row is published once, at its mapped priority,
      right after the save that marks it QUEUED. */
  lemma ImmediateIsPublishedAfterSave(s: Store, id: int, built: Result<Event>, now: int)
    requires built.Ok? && !IsFuture(built.value.scheduledAt, now)
    requires IsValidPriority(built.value.priority)
    ensures var ops := DispatchOps(built, now, true, id, s);
            && |ops| == 4
            && ops[3] == Published(Message(built.value.(id := id, status := QUEUED), Some(MapPriority(built.value.priority))))
            && ops[2] == Saved(ops[3].message.event)
    ensures var t := Run(s, DispatchOps(built, now, true, id, s));
            && t.events == s.events[id := built.value.(id := id, status := QUEUED)]
            && t.audit == s.audit + [AuditEntry(id, CREATED, "Notification created and queued by user", now)]
            && t.mainQueue == s.mainQueue + [Message(t.events[id], Some(MapPriority(built.value.priority)))]
            && t.dlq == s.dlq
            && MapPriority(built.value.priority) != 3
    ensures DispatchResult(built, now, true, id) == Ok(Response(id, QUEUED, "✅ Notification queued successfully"))
  {
    var e := built.value;
    var created := [Saved(e.(id := id)), Audited(AuditEntry(id, CREATED, CreatedDetails(e, now), now))];
    var queued := e.(id := id, status := QUEUED);
    var m := Message(queued, Some(MapPriority(e.priority)));
    assert DispatchOps(built, now, true, id, s) == created + [Saved(queued), Published(m)];
    RunPair(s, created[0], created[1]);
    RunConcat(s, created, [Saved(queued), Published(m)]);
    RunPair(Run(s, created), Saved(queued), Published(m));
    assert s.events[id := e.(id := id)][id := queued] == s.events[id := queued];
    ValidPriorityIsMapped(e.priority);
  }

  /** When the publish fails the transaction is rolled back: the tables are
      as before, nothing is queued, and the failure is wrapped. */
  lemma PublishFailureRollsBack(s: Store, id: int, built: Result<Event>, now: int)
    requires built.Ok? && !IsFuture(built.value.scheduledAt, now)
    ensures Run(s, DispatchOps(built, now, false, id, s)) == s
    ensures DispatchResult(built, now, false, id) == Err(PublishFailure)
  {
    var ops := DispatchOps(built, now, false, id, s);
    RunConcat(s, ops[..3], [ops[3]]);
    assert ops == ops[..3] + [ops[3]];
    RunOne(Run(s, ops[..3]), ops[3]);
  }

  /** getEventStatus: the stored event, or an IllegalArgumentException. */
  function GetEventStatus(events: map<int, Event>, id: int): (r: Result<Event>)
    ensures r.Ok? <==> id in events
    ensures r.Ok? ==> r.value == events[id]
    ensures r.Err? ==> r.failure == IllegalArgument("Event not found: " + IntToString(id))
  {
    if id in events then Ok(events[id]) else Err(IllegalArgument("Event not found: " + IntToString(id)))
  }

  /** The status a successful dispatch reports is the one stored under the
      reported id. */
  lemma ResponseMatchesStore(s: Store, id: int, built: Result<Event>, now: int, publishOk: bool)
    requires built.Ok? && (built.value.status == SCHEDULED <==> IsFuture(built.value.scheduledAt, now))
    requires IsValidPriority(built.value.priority)
    requires DispatchResult(built, now, publishOk, id).Ok?
    ensures var resp := DispatchResult(built, now, publishOk, id).value;
            var t := Run(s, DispatchOps(built, now, publishOk, id, s));
            && resp.eventId == id
            && GetEventStatus(t.events, resp.eventId).Ok?
            && GetEventStatus(t.events, resp.eventId).value.status == resp.status
  {
    if IsFuture(built.value.scheduledAt, now) {
      DeferredIsNotPublished(s, id, built, now, publishOk);
    } else {
      ImmediateIsPublishedAfterSave(s, id, built, now);
    }
  }

  /** A range other than these keywords is no bound. */
  predicate AllTime(range: string) {
    EqualsIgnoreCase(range, "all") || EqualsIgnoreCase(range, "all time") || EqualsIgnoreCase(range, "alltime")
  }

  /** The length in seconds of a named trailing window, keyed by the
      lower-cased, trimmed range. */
  function WindowSeconds(key: string): (w: Option<int>)
    ensures w.Some? ==> w.value == 86400 || w.value == 604800 || w.value == 2592000
    ensures w.Some? ==> key != [] && '0' <= key[0] <= '9'
    ensures w == Some(86400) <==> key == "24h" || key == "24hr"
    ensures w == Some(604800) <==> key == "7d" || key == "7day" || key == "7days"
    ensures w == Some(2592000) <==> key == "30d" || key == "30day" || key == "30days"
  {
    if key == "24h" || key == "24hr" then Some(24 * 3600)
    else if key == "7d" || key == "7day" || key == "7days" then Some(7 * 86400)
    else if key == "30d" || key == "30day" || key == "30days" then Some(30 * 86400)
    else None
  }

  /** getDateRangeStart: the start of a trailing window of 24 hours, 7 days
      or 30 days before now, or no bound. */
  function DateRangeStart(range: Option<string>, now: int): (r: Option<int>)
    ensures r.Some? ==> range.Some? && Trim(range.value) != [] && !AllTime(range.value)
    ensures r.Some? ==> r.value < now && (now - r.value == 86400 || now - r.value == 604800 || now - r.value == 2592000)
  {
    if range.None? then None
    else WindowStart(Trim(range.value) == [] || AllTime(range.value), Trim(ToLower(range.value)), now)
  }

  /** The bound once the range has been classified. */
  function WindowStart(unbounded: bool, key: string, now: int): (r: Option<int>)
    ensures r.Some? ==> !unbounded && WindowSeconds(key) == Some(now - r.value)
  {
    if unbounded then None
    else
      match WindowSeconds(key)
      case None => None
      case Some(w) => Some(now - w)
  }

  lemma AllTimeIgnoresCase(range: string)
    ensures AllTime(ToLower(range)) == AllTime(range)
  {
    ToUpperOfLower(range);
  }

  /** The window is chosen regardless of the case of the range. */
  lemma DateRangeIgnoresCase(range: string, now: int)
    ensures DateRangeStart(Some(range), now) == DateRangeStart(Some(ToLower(range)), now)
  {
    var lower := ToLower(range);
    ToLowerKeepsTrimEmpty(range);
    AllTimeIgnoresCase(range);
    ToLowerIdempotent(range);
    var unbounded := Trim(range) == [] || AllTime(range);
    assert DateRangeStart(Some(range), now) == WindowStart(unbounded, Trim(lower), now);
  }

  /** A window name in any case and with any padding selects that window:
      the "all" keywords, compared untrimmed, can never shadow one. */
  lemma WindowNameIsBound(range: string, now: int)
    requires WindowSeconds(Trim(ToLower(range))).Some?
    ensures DateRangeStart(Some(range), now) == Some(now - WindowSeconds(Trim(ToLower(range))).value)
  {
    ToLowerKeepsTrimEmpty(range);
    if AllTime(range) {
      AllKeywordKey(range);
      assert false;
    }
  }

  /** The "all" keywords begin with a letter a in either case. */
  lemma AllKeywordStartsWithA(range: string)
    requires AllTime(range)
    ensures range != [] && (range[0] == 'a' || range[0] == 'A')
  {
    var u := ToUpper(range);
    assert u[0] == 'A';
    assert u[0] == UpperChar(range[0]);
  }

  /** The key of an "all" keyword begins with the letter a, so it is no window. */
  lemma AllKeywordKey(range: string)
    requires AllTime(range)
    ensures Trim(ToLower(range)) != [] && Trim(ToLower(range))[0] == 'a'
  {
    AllKeywordStartsWithA(range);
    var lower := ToLower(range);
    assert lower[0] == LowerChar(range[0]) == 'a';
    var t := TrimStart(lower);
    assert t == lower;
    assert Trim(lower) == TrimEnd(t);
  }
}
