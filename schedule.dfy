/** The schedule page: it fetches the user's events of the selected period and derives
    the events of the selected day, the upcoming events, the synced and pending counts
    and the calendar's highlighted dates. Times are whole seconds and days are
    numbered, day `d` covering the seconds `d * 86400 .. d * 86400 + 86399`. */
module Schedule {
  import opened Common
  import Auth

  const SecondsPerDay: int := 86400

  /** A row of the `agendamento` table. */
  datatype Event = Event(id: string, userId: string, title: string, description: Option<string>,
                         start: int, end: int, googleEventId: Option<string>, reminderSent: bool)

  /** The day a time falls on (`isSameDay` compares these). */
  function DayOf(t: int): int {
    t / SecondsPerDay
  }

  /** `startDate` as a time: midnight of day `d`. */
  function DayStart(d: int): int {
    d * SecondsPerDay
  }

  /** `endDate + "T23:59:59"` as a time: the last second of day `d`. */
  function DayEnd(d: int): int {
    d * SecondsPerDay + SecondsPerDay - 1
  }

  /** The two range filters of the query: `gte("start_time", startDate)` and
      `lte("start_time", endDate + "T23:59:59")`. */
  predicate InWindow(t: int, from: int, to: int) {
    DayStart(from) <= t <= DayEnd(to)
  }

  /** The window is inclusive at both ends and covers exactly the days from `from` to
      `to`. */
  lemma {:induction false} WindowIsWholeDays(t: int, from: int, to: int)
    ensures InWindow(t, from, to) <==> from <= DayOf(t) <= to
  {
    var d := DayOf(t);
    assert DayStart(d) <= t <= DayEnd(d);
    if from <= d {
      assert DayStart(from) <= DayStart(d);
    } else {
      assert DayStart(from) >= DayStart(d + 1) > t;
    }
    if d <= to {
      assert DayEnd(d) <= DayEnd(to);
    } else {
      assert DayEnd(to) <= DayStart(d) - 1 < t;
    }
  }

  /** All the filters of the `agendamento` query. */
  predicate Requested(e: Event, userId: string, from: int, to: int) {
    e.userId == userId && InWindow(e.start, from, to)
  }

  function RequestedBy(userId: string, from: int, to: int): Event -> bool {
    (e: Event) => Requested(e, userId, from, to)
  }

  /** The events the page asks for, from a table already in ascending start order. */
  function Query(table: seq<Event>, userId: string, from: int, to: int): seq<Event> {
    Filter(table, RequestedBy(userId, from, to))
  }

  /** The reply holds exactly the user's events that start on a day of the period. */
  lemma QueryIsPeriod(table: seq<Event>, userId: string, from: int, to: int)
    ensures forall k :: 0 <= k < |Query(table, userId, from, to)| ==>
              var e := Query(table, userId, from, to)[k];
              e in table && e.userId == userId && from <= DayOf(e.start) <= to
    ensures forall k :: 0 <= k < |table| && table[k].userId == userId && from <= DayOf(table[k].start) <= to ==>
              table[k] in Query(table, userId, from, to)
  {
    var q := Query(table, userId, from, to);
    forall k | 0 <= k < |q|
      ensures q[k] in table && q[k].userId == userId && from <= DayOf(q[k].start) <= to
    {
      assert RequestedBy(userId, from, to)(q[k]);
      WindowIsWholeDays(q[k].start, from, to);
    }
    forall k | 0 <= k < |table| && table[k].userId == userId && from <= DayOf(table[k].start) <= to
      ensures table[k] in q
    {
      WindowIsWholeDays(table[k].start, from, to);
      assert RequestedBy(userId, from, to)(table[k]);
    }
  }

  /** `order("start_time", { ascending: true })`: read from a table already in start
      order, the reply keeps that order. */
  lemma QueryAscending(table: seq<Event>, userId: string, from: int, to: int)
    requires forall i, j :: 0 <= i < j < |table| ==> table[i].start <= table[j].start
    ensures forall i, j :: 0 <= i < j < |Query(table, userId, from, to)| ==>
              Query(table, userId, from, to)[i].start <= Query(table, userId, from, to)[j].start
  {
    FilterKeepsSorted(table, RequestedBy(userId, from, to), StartOf);
  }

  function StartOf(e: Event): int {
    e.start
  }

  // ---------------------------------------------------------------------------
  // Derived views

  function OnDay(day: int): Event -> bool {
    (e: Event) => DayOf(e.start) == day
  }

  function StartsFrom(now: int): Event -> bool {
    (e: Event) => e.start >= now
  }

  /** An event is synced when its `google_event_id` is truthy. */
  predicate IsSynced(e: Event) {
    Truthy(e.googleEventId)
  }

  predicate IsPending(e: Event) {
    !IsSynced(e)
  }

  /** `filteredEvents`: the events starting on the selected day. */
  function FilteredEvents(events: seq<Event>, selectedDay: int): seq<Event> {
    Filter(events, OnDay(selectedDay))
  }

  /** `upcomingEvents`: the events starting at or after now. */
  function UpcomingEvents(events: seq<Event>, now: int): seq<Event> {
    Filter(events, StartsFrom(now))
  }

  function SyncedCount(events: seq<Event>): nat {
    |Filter(events, IsSynced)|
  }

  function PendingCount(events: seq<Event>): nat {
    |Filter(events, IsPending)|
  }

  /** `eventDates`: the start of every event, in the same order. */
  function EventDates(events: seq<Event>): (dates: seq<int>)
    ensures |dates| == |events|
    ensures forall i :: 0 <= i < |events| ==> dates[i] == events[i].start
  {
    seq(|events|, i requires 0 <= i < |events| => events[i].start)
  }

  /** `filteredEvents` is the order-preserving subsequence of the events on the day. */
  lemma FilteredEventsPick(events: seq<Event>, selectedDay: int) returns (idx: seq<nat>)
    ensures PicksExactly(FilteredEvents(events, selectedDay), events, OnDay(selectedDay), idx)
    ensures forall i :: 0 <= i < |events| ==> (DayOf(events[i].start) == selectedDay <==> i in idx)
  {
    idx := FilterPicks(events, OnDay(selectedDay));
    assert forall i :: 0 <= i < |events| ==> (OnDay(selectedDay)(events[i]) <==> DayOf(events[i].start) == selectedDay);
  }

  /** `upcomingEvents` is the order-preserving subsequence of the events starting at or
      after now. */
  lemma UpcomingEventsPick(events: seq<Event>, now: int) returns (idx: seq<nat>)
    ensures PicksExactly(UpcomingEvents(events, now), events, StartsFrom(now), idx)
    ensures forall i :: 0 <= i < |events| ==> (events[i].start >= now <==> i in idx)
  {
    idx := FilterPicks(events, StartsFrom(now));
    assert forall i :: 0 <= i < |events| ==> (StartsFrom(now)(events[i]) <==> events[i].start >= now);
  }

  /** Synced and pending split the events: the counts add up to the number of events,
      and a null or empty `google_event_id` counts as pending. */
  lemma SyncedPendingPartition(events: seq<Event>)
    ensures SyncedCount(events) + PendingCount(events) == |events|
    ensures forall e: Event :: e.googleEventId == None || e.googleEventId == Some("") ==> IsPending(e)
  {
    FilterPartition(events, IsSynced, IsPending);
  }

  // ---------------------------------------------------------------------------
  // The page state

  class SchedulePage {
    var events: seq<Event>
    var loading: bool

    constructor ()
      ensures events == [] && loading
    {
      events := [];
      loading := true;
    }

    /** `fetchEvents` with the store's reply: without a user nothing changes; otherwise
        `events` is replaced by a non-null reply, kept otherwise, and `loading` ends
        false. */
    method FetchEvents(user: Option<Auth.User>, reply: Fetched<Event>)
      modifies this
      ensures user.None? ==> events == old(events) && loading == old(loading)
      ensures user.Some? ==> !loading
      ensures user.Some? ==> events == if reply.Rows? then reply.rows else old(events)
    {
      if user.None? {
        return;
      }
      if reply.Rows? {
        events := reply.rows;
      }
      loading := false;
    }
  }
}
