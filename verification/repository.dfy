/** The queries of the notification-event repository, as pure functions over
    the table's rows. */
module Repository {
  import opened Common
  import opened Text
  import opened Events

  /** The stored ids in [lo, hi), ascending. */
  function IdsIn(events: map<int, Event>, lo: int, hi: int): (ids: seq<int>)
    decreases hi - lo
    ensures forall i :: 0 <= i < |ids| ==> ids[i] in events && lo <= ids[i] < hi
    ensures forall i, j :: 0 <= i < j < |ids| ==> ids[i] < ids[j]
    ensures forall id :: id in events && lo <= id < hi ==> id in ids
  {
    if lo >= hi then [] else (if lo in events then [lo] else []) + IdsIn(events, lo + 1, hi)
  }

  /** The rows of the table, in primary-key order. */
  function Table(events: map<int, Event>, nextId: int): seq<Event> {
    var ids := IdsIn(events, 1, nextId);
    seq(|ids|, i requires 0 <= i < |ids| => events[ids[i]])
  }

  /** `rows` lists stored events, each under its own id, ids strictly increasing. */
  predicate Listing(rows: seq<Event>, events: map<int, Event>) {
    && (forall i :: 0 <= i < |rows| ==> rows[i].id in events && events[rows[i].id] == rows[i])
    && (forall i, j :: 0 <= i < j < |rows| ==> rows[i].id < rows[j].id)
  }

  /** The table lists every stored event exactly once. */
  lemma TableIsListing(events: map<int, Event>, nextId: int)
    requires forall id :: id in events ==> events[id].id == id && 0 < id < nextId
    ensures Listing(Table(events, nextId), events)
    ensures forall id :: id in events ==> events[id] in Table(events, nextId)
  {
    var ids := IdsIn(events, 1, nextId);
    var rows := Table(events, nextId);
    forall id | id in events
      ensures events[id] in rows
    {
      var i :| 0 <= i < |ids| && ids[i] == id;
      assert rows[i] == events[id];
    }
  }

  /** The rows for which `keep` holds, in their original order. */
  function Select(rows: seq<Event>, keep: Event -> bool): (r: seq<Event>)
    ensures forall e :: e in r <==> e in rows && keep(e)
    ensures |r| <= |rows|
  {
    if rows == [] then []
    else (if keep(rows[0]) then [rows[0]] else []) + Select(rows[1..], keep)
  }

  /** Filtering keeps a listing a listing. */
  lemma {:induction false} SelectListing(rows: seq<Event>, keep: Event -> bool, events: map<int, Event>)
    requires Listing(rows, events)
    ensures Listing(Select(rows, keep), events)
    decreases |rows|
  {
    if rows != [] {
      assert Listing(rows[1..], events) by {
        forall i, j | 0 <= i < j < |rows[1..]|
          ensures rows[1..][i].id < rows[1..][j].id
        {
          assert rows[1..][i] == rows[i + 1] && rows[1..][j] == rows[j + 1];
        }
      }
      SelectListing(rows[1..], keep, events);
      var tail := Select(rows[1..], keep);
      forall k | 0 <= k < |tail|
        ensures rows[0].id < tail[k].id
      {
        assert tail[k] in rows[1..];
        var j :| 0 <= j < |rows[1..]| && rows[1..][j] == tail[k];
        assert rows[j + 1] == tail[k];
      }
    }
  }

  /** Two filters that agree on every row select the same rows. */
  lemma {:induction false} SelectAgrees(rows: seq<Event>, p: Event -> bool, q: Event -> bool)
    requires forall e :: e in rows ==> p(e) == q(e)
    ensures Select(rows, p) == Select(rows, q)
    decreases |rows|
  {
    if rows != [] {
      assert forall e :: e in rows[1..] ==> e in rows;
      SelectAgrees(rows[1..], p, q);
    }
  }

  /** The due predicate of findByStatusAndScheduledAtBefore: exact status
      equality and a strictly earlier scheduled time; a null time never
      matches. */
  predicate DueAt(e: Event, status: string, time: int) {
    e.status == status && e.scheduledAt.Some? && e.scheduledAt.value < time
  }

  function FindByStatusAndScheduledAtBefore(rows: seq<Event>, status: string, time: int): (r: seq<Event>)
    ensures forall e :: e in r <==> e in rows && DueAt(e, status, time)
  {
    Select(rows, e => DueAt(e, status, time))
  }

  /** A filter that keeps no row selects nothing. */
  lemma {:induction false} SelectNone(rows: seq<Event>, keep: Event -> bool)
    requires forall i :: 0 <= i < |rows| ==> !keep(rows[i])
    ensures Select(rows, keep) == []
    decreases |rows|
  {
    if rows != [] {
      assert forall i :: 0 <= i < |rows[1..]| ==> rows[1..][i] == rows[i + 1];
      SelectNone(rows[1..], keep);
    }
  }

  /** With no row due, the due lookup is empty. */
  lemma NoneDue(rows: seq<Event>, status: string, time: int)
    requires forall i :: 0 <= i < |rows| ==> !DueAt(rows[i], status, time)
    ensures FindByStatusAndScheduledAtBefore(rows, status, time) == []
  {
    SelectNone(rows, e => DueAt(e, status, time));
  }

  /** The columns the `*IgnoreCase` finders compare. */
  datatype Column = Status | Priority | Channel

  function ColumnValue(e: Event, c: Column): string {
    match c
    case Status => e.status
    case Priority => e.priority
    case Channel => e.channel
  }

  /** findByStatusIgnoreCase, findByPriorityIgnoreCase, findByChannelIgnoreCase. */
  function FindIgnoreCase(rows: seq<Event>, column: Column, value: string): (r: seq<Event>)
    ensures forall e :: e in r <==> e in rows && EqualsIgnoreCase(ColumnValue(e, column), value)
  {
    Select(rows, e => EqualsIgnoreCase(ColumnValue(e, column), value))
  }

  /** The parameters of findByFilters; a null parameter means "any". */
  datatype Filter = Filter(status: Option<string>, priority: Option<string>, channel: Option<string>, startDate: Option<int>)

  predicate Matches(e: Event, f: Filter) {
    && (f.status.None? || EqualsIgnoreCase(e.status, f.status.value))
    && (f.priority.None? || EqualsIgnoreCase(e.priority, f.priority.value))
    && (f.channel.None? || EqualsIgnoreCase(e.channel, f.channel.value))
    && (f.startDate.None? || e.createdAt >= f.startDate.value)
  }

  function Matching(rows: seq<Event>, f: Filter): (r: seq<Event>)
    ensures forall e :: e in r <==> e in rows && Matches(e, f)
  {
    Select(rows, e => Matches(e, f))
  }

  predicate SortedByCreatedDesc(s: seq<Event>) {
    forall i, j :: 0 <= i < j < |s| ==> s[i].createdAt >= s[j].createdAt
  }

  function InsertByCreated(e: Event, s: seq<Event>): (r: seq<Event>)
    requires SortedByCreatedDesc(s)
    ensures SortedByCreatedDesc(r)
    ensures multiset(r) == multiset(s) + multiset{e}
  {
    if s == [] || e.createdAt >= s[0].createdAt then
      assert SortedByCreatedDesc([e] + s) by {
        forall i, j | 0 <= i < j < |[e] + s|
          ensures ([e] + s)[i].createdAt >= ([e] + s)[j].createdAt
        {
          if i > 0 { assert ([e] + s)[i] == s[i - 1] && ([e] + s)[j] == s[j - 1]; }
        }
      }
      [e] + s
    else
      var rest := InsertByCreated(e, s[1..]);
      InsertHead(e, s, rest);
      [s[0]] + rest
  }

  lemma InsertHead(e: Event, s: seq<Event>, rest: seq<Event>)
    requires s != [] && e.createdAt < s[0].createdAt && SortedByCreatedDesc(s)
    requires SortedByCreatedDesc(rest) && multiset(rest) == multiset(s[1..]) + multiset{e}
    ensures SortedByCreatedDesc([s[0]] + rest)
    ensures multiset([s[0]] + rest) == multiset(s) + multiset{e}
  {
    forall k | 0 <= k < |rest|
      ensures s[0].createdAt >= rest[k].createdAt
    {
      assert rest[k] in multiset(rest);
      if rest[k] != e {
        assert rest[k] in multiset(s[1..]);
        var j :| 0 <= j < |s[1..]| && s[1..][j] == rest[k];
        assert s[j + 1] == rest[k];
      }
    }
    var r := [s[0]] + rest;
    forall i, j | 0 <= i < j < |r|
      ensures r[i].createdAt >= r[j].createdAt
    {
      assert r[j] == rest[j - 1];
      if i > 0 { assert r[i] == rest[i - 1]; }
    }
    assert s == [s[0]] + s[1..];
  }

  /** ORDER BY createdAt DESC. */
  function SortByCreatedDesc(s: seq<Event>): (r: seq<Event>)
    ensures SortedByCreatedDesc(r)
    ensures multiset(r) == multiset(s)
  {
    if s == [] then []
    else
      assert s == [s[0]] + s[1..];
      InsertByCreated(s[0], SortByCreatedDesc(s[1..]))
  }

  /** findByFilters: exactly the rows meeting every non-null constraint, each
      as often as it is stored, newest first. */
  function FindByFilters(rows: seq<Event>, f: Filter): (r: seq<Event>)
    ensures SortedByCreatedDesc(r)
    ensures multiset(r) == multiset(Matching(rows, f))
    ensures forall e :: e in r <==> e in rows && Matches(e, f)
  {
    var r := SortByCreatedDesc(Matching(rows, f));
    assert forall e :: e in r <==> e in multiset(Matching(rows, f));
    r
  }

  /** With only one column constrained, findByFilters returns the rows of the
      matching `*IgnoreCase` finder, reordered newest first. */
  lemma FiltersAgreeWithFinder(rows: seq<Event>, column: Column, value: string)
    ensures var f := match column
                     case Status => Filter(Some(value), None, None, None)
                     case Priority => Filter(None, Some(value), None, None)
                     case Channel => Filter(None, None, Some(value), None);
            multiset(FindByFilters(rows, f)) == multiset(FindIgnoreCase(rows, column, value))
  {
    var f := match column
             case Status => Filter(Some(value), None, None, None)
             case Priority => Filter(None, Some(value), None, None)
             case Channel => Filter(None, None, Some(value), None);
    SelectAgrees(rows, e => Matches(e, f), e => EqualsIgnoreCase(ColumnValue(e, column), value));
  }

  /** With no constraint at all, findByFilters returns the whole table. */
  lemma {:induction false} NoFilterSelectsAll(rows: seq<Event>)
    ensures multiset(FindByFilters(rows, Filter(None, None, None, None))) == multiset(rows)
  {
    SelectAgrees(rows, e => Matches(e, Filter(None, None, None, None)), e => true);
    SelectAll(rows);
  }

  lemma {:induction false} SelectAll(rows: seq<Event>)
    ensures Select(rows, e => true) == rows
    decreases |rows|
  {
    if rows != [] {
      SelectAll(rows[1..]);
      assert rows == [rows[0]] + rows[1..];
    }
  }
}
