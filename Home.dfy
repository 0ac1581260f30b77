/**
 * The home page's figures (app/page.tsx): the church and sermon totals, the
 * next upcoming event, the featured sermons and the church snapshot.
 */
module Home {
  import opened Wrappers
  import opened Sequences
  import EventsList

  type Event = EventsList.Event

  datatype Sermon = Sermon(id: string, title: string)
  datatype ChurchSummary = ChurchSummary(id: string, slug: Option<string>, name: string)

  /** `Array.isArray(xs) ? xs.length : 0`, a non-array being None. */
  function Total<T>(xs: Option<seq<T>>): (r: nat)
    ensures xs.None? ==> r == 0
    ensures xs.Some? ==> r == |xs.value|
  {
    if xs.Some? then |xs.value| else 0
  }

  /** `new Date(e.startsAt) > new Date()`: an unreadable date is never in
      the future. */
  predicate IsFuture(e: Event, now: int) {
    e.startsAt.Some? && e.startsAt.value > now
  }

  /** The next upcoming event: the future events sorted by start, first one;
      with none in the future, the list's first event, past or not. */
  function Upcoming(events: Option<seq<Event>>, now: int): (r: Option<Event>)
    ensures var list := events.GetOr([]);
      (exists e :: e in list && IsFuture(e, now)) ==>
        && r.Some? && r.value in list && IsFuture(r.value, now)
        && (forall e :: e in list && IsFuture(e, now) ==> r.value.startsAt.value <= e.startsAt.value)
    ensures var list := events.GetOr([]);
      !(exists e :: e in list && IsFuture(e, now)) ==>
        r == if list != [] then Some(list[0]) else None
    ensures r.None? <==> events.GetOr([]) == []
  {
    var list := events.GetOr([]);
    var future := Filter(list, e => IsFuture(e, now));
    var sorted := SortBy(future, EventsList.StartLe);
    FirstIsEarliest(list, now, future, sorted);
    if sorted != [] then Some(sorted[0])
    else if list != [] then Some(list[0])
    else None
  }

  /** The head of the sorted future events comes from the list, is in the
      future and starts no later than any future event. */
  lemma FirstIsEarliest(list: seq<Event>, now: int, future: seq<Event>, sorted: seq<Event>)
    requires future == Filter(list, e => IsFuture(e, now))
    requires sorted == SortBy(future, EventsList.StartLe)
    ensures (exists e :: e in list && IsFuture(e, now)) <==> sorted != []
    ensures sorted != [] ==> sorted[0] in list && IsFuture(sorted[0], now)
    ensures sorted != [] ==>
      forall e :: e in list && IsFuture(e, now) ==> sorted[0].startsAt.value <= e.startsAt.value
  {
    EventsList.StartLeIsTotalPreorder();
    FilterMembers(list, e => IsFuture(e, now));
    SortMembers(future, EventsList.StartLe);
    if sorted != [] {
      SortedHeadIsLeast(sorted, EventsList.StartLe);
      assert sorted[0] in sorted;
    }
  }

  /** The three featured sermons: the first three, in order. */
  function Featured(sermons: Option<seq<Sermon>>): (r: seq<Sermon>)
    ensures |r| == Min(3, Total(sermons))
    ensures r == sermons.GetOr([])[..|r|]
  {
    Take(sermons.GetOr([]), 3)
  }

  /** The church snapshot: the first six churches, in order. */
  function Snapshot(churches: Option<seq<ChurchSummary>>): (r: seq<ChurchSummary>)
    ensures |r| == Min(6, Total(churches))
    ensures r == churches.GetOr([])[..|r|]
  {
    Take(churches.GetOr([]), 6)
  }

  /** `/churches/${c.slug ?? c.id}`: the slug when present, even if empty. */
  function ChurchLink(c: ChurchSummary): (r: string)
    ensures c.slug.Some? ==> r == "/churches/" + c.slug.value
    ensures c.slug.None? ==> r == "/churches/" + c.id
  {
    "/churches/" + c.slug.GetOr(c.id)
  }
}
