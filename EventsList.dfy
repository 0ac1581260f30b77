/**
 * The events list (components/EventsList.tsx): tag choices gathered by
 * nested loops into a set, search, tag and upcoming filters, ordering by
 * start time, and the page state.
 */
module EventsList {
  import opened Wrappers
  import opened Text
  import opened Sequences
  import opened Paging

  /** An event as the list receives it. The start is a millisecond timestamp;
      `None` stands for a missing (or empty) `startsAt`. */
  datatype Event = Event(
    id: string,
    title: string,
    host: Option<string>,
    description: Option<string>,
    tags: Option<seq<string>>,
    startsAt: Option<int>)

  /** `Array.isArray(initialEvents) ? initialEvents : []`, with `None` for a
      value that is not an array. */
  function EventsOf(initialEvents: Option<seq<Event>>): seq<Event> {
    initialEvents.GetOr([])
  }

  /** A truthy tag: JavaScript's `if (t)` on a string. */
  predicate NonEmpty(t: string) {
    t != ""
  }

  /** The tags of one event the loop adds to the set. */
  function TruthyTags(e: Event): seq<string> {
    Filter(e.tags.GetOr([]), NonEmpty)
  }

  function AllTags(events: seq<Event>): seq<string> {
    Flatten(seq(|events|, k requires 0 <= k < |events| => TruthyTags(events[k])))
  }

  lemma AllTagsSnoc(events: seq<Event>, i: nat)
    requires i < |events|
    ensures AllTags(events[..i + 1]) == AllTags(events[..i]) + TruthyTags(events[i])
  {
    var front := seq(i, k requires 0 <= k < i => TruthyTags(events[..i][k]));
    var whole := seq(i + 1, k requires 0 <= k < i + 1 => TruthyTags(events[..i + 1][k]));
    assert whole == front + [TruthyTags(events[i])];
    FlattenSnoc(front, TruthyTags(events[i]));
  }

  /** One step of the inner loop: a non-empty tag joins the set unless it is
      already there. */
  lemma TagStep(prefix: seq<string>, ts: seq<string>, j: nat)
    requires j < |ts|
    ensures var before := Distinct(prefix + Filter(ts[..j], NonEmpty));
      Distinct(prefix + Filter(ts[..j + 1], NonEmpty))
        == if ts[j] != "" && ts[j] !in before then before + [ts[j]] else before
  {
    assert ts[..j + 1] == ts[..j] + [ts[j]];
    FilterSnoc(ts[..j], ts[j], NonEmpty);
    if ts[j] != "" {
      assert prefix + Filter(ts[..j + 1], NonEmpty) == (prefix + Filter(ts[..j], NonEmpty)) + [ts[j]];
      DistinctSnoc(prefix + Filter(ts[..j], NonEmpty), ts[j]);
    } else {
      assert prefix + Filter(ts[..j + 1], NonEmpty) == prefix + Filter(ts[..j], NonEmpty);
    }
  }

  /** The set after one event: its truthy tags, in order. */
  lemma EventStep(events: seq<Event>, i: nat)
    requires i < |events|
    ensures events[i].tags.None? ==> AllTags(events[..i + 1]) == AllTags(events[..i])
    ensures events[i].tags.Some? ==>
      AllTags(events[..i + 1]) == AllTags(events[..i]) + Filter(events[i].tags.value[..|events[i].tags.value|], NonEmpty)
  {
    AllTagsSnoc(events, i);
    if events[i].tags.Some? {
      var ts := events[i].tags.value;
      assert ts[..|ts|] == ts;
    } else {
      assert AllTags(events[..i]) + [] == AllTags(events[..i]);
    }
  }

  /** `tags`: `all`, then every non-empty tag of an event whose tags are an
      array, once each, in order of first appearance. */
  method TagOptions(events: seq<Event>) returns (tags: seq<string>)
    ensures tags == ["all"] + Distinct(AllTags(events))
    ensures NoDuplicates(tags[1..])
    ensures forall t :: t in tags[1..] <==>
      t != "" && exists k :: 0 <= k < |events| && t in events[k].tags.GetOr([])
    ensures InFirstSeenOrder(tags[1..], AllTags(events))
  {
    var seen: seq<string> := [];
    var i := 0;
    while i < |events|
      invariant 0 <= i <= |events|
      invariant seen == Distinct(AllTags(events[..i]))
    {
      EventStep(events, i);
      if events[i].tags.Some? {
        var ts := events[i].tags.value;
        var j := 0;
        assert AllTags(events[..i]) + Filter(ts[..0], NonEmpty) == AllTags(events[..i]);
        while j < |ts|
          invariant 0 <= j <= |ts|
          invariant seen == Distinct(AllTags(events[..i]) + Filter(ts[..j], NonEmpty))
        {
          TagStep(AllTags(events[..i]), ts, j);
          if ts[j] != "" && ts[j] !in seen {
            seen := seen + [ts[j]];
          }
          j := j + 1;
        }
      }
      i := i + 1;
    }
    assert events[..|events|] == events;
    tags := ["all"] + seen;
    TagListMeaning(events, tags);
  }

  lemma TagListMeaning(events: seq<Event>, tags: seq<string>)
    requires tags == ["all"] + Distinct(AllTags(events))
    ensures NoDuplicates(tags[1..])
    ensures forall t :: t in tags[1..] <==>
      t != "" && exists k :: 0 <= k < |events| && t in events[k].tags.GetOr([])
    ensures InFirstSeenOrder(tags[1..], AllTags(events))
  {
    assert tags[1..] == Distinct(AllTags(events));
    AllTagsMembers(events);
    DistinctOrder(AllTags(events));
  }

  /** A tag is collected exactly when it is non-empty and in some event's
      tags array. */
  lemma AllTagsMembers(events: seq<Event>)
    ensures forall t :: t in AllTags(events) <==>
      t != "" && exists k :: 0 <= k < |events| && t in events[k].tags.GetOr([])
  {
    var parts := seq(|events|, k requires 0 <= k < |events| => TruthyTags(events[k]));
    assert forall k :: 0 <= k < |events| ==> parts[k] == TruthyTags(events[k]);
    forall k | 0 <= k < |events|
      ensures forall t :: t in TruthyTags(events[k]) <==> t != "" && t in events[k].tags.GetOr([])
    {
      FilterMembers(events[k].tags.GetOr([]), NonEmpty);
    }
  }

  /** The search: the lower-cased title, host or description contains `q`. */
  predicate MatchesQuery(e: Event, q: string) {
    || Includes(Lower(e.title), q)
    || Includes(Lower(e.host.GetOr("")), q)
    || Includes(Lower(e.description.GetOr("")), q)
  }

  /** The tag filter: the event's tags are an array containing `tag`. */
  predicate HasTag(e: Event, tag: string) {
    e.tags.Some? && tag in e.tags.value
  }

  /** The upcoming filter: no start, or a start no earlier than `now`. */
  predicate IsUpcoming(e: Event, now: int) {
    e.startsAt.None? || e.startsAt.value >= now
  }

  /** The sort key: the start time, or 0 without one. */
  function StartKey(e: Event): int {
    e.startsAt.GetOr(0)
  }

  /** The comparator `A - B` on start keys. */
  predicate StartLe(a: Event, b: Event) {
    StartKey(a) <= StartKey(b)
  }

  lemma StartLeIsTotalPreorder()
    ensures IsTotalPreorder(StartLe)
  {
  }

  predicate Keeps(query: string, tag: string, upcomingOnly: bool, now: int, e: Event) {
    && (Trim(query) == [] || MatchesQuery(e, Lower(query)))
    && (tag == "all" || HasTag(e, tag))
    && (!upcomingOnly || IsUpcoming(e, now))
  }

  /** The three filters in the component's order: search, tag, upcoming. */
  function ThreeFilters(events: seq<Event>, query: string, tag: string, upcomingOnly: bool, now: int): seq<Event> {
    var searched := if Trim(query) != [] then Filter(events, e => MatchesQuery(e, Lower(query))) else events;
    var tagged := if tag != "all" then Filter(searched, e => HasTag(e, tag)) else searched;
    if upcomingOnly then Filter(tagged, e => IsUpcoming(e, now)) else tagged
  }

  /** The three filters together keep an event exactly when `Keeps` accepts
      it, as often as the input holds it. */
  lemma ThreeFiltersMeaning(events: seq<Event>, query: string, tag: string, upcomingOnly: bool, now: int)
    ensures var r := ThreeFilters(events, query, tag, upcomingOnly, now);
      forall e :: multiset(r)[e] == if Keeps(query, tag, upcomingOnly, now, e) then multiset(events)[e] else 0
  {
    var search := (e: Event) => MatchesQuery(e, Lower(query));
    var byTag := (e: Event) => HasTag(e, tag);
    var upcoming := (e: Event) => IsUpcoming(e, now);
    var searched := if Trim(query) != [] then Filter(events, search) else events;
    var tagged := if tag != "all" then Filter(searched, byTag) else searched;
    FilterMultiset(events, search);
    FilterMultiset(searched, byTag);
    FilterMultiset(tagged, upcoming);
  }

  /** `filtered`: the events all three filters keep, ascending by start time
      (a missing start counts as 0). */
  function Filtered(events: seq<Event>, query: string, tag: string, upcomingOnly: bool, now: int): (r: seq<Event>)
    ensures SortedBy(r, StartLe)
  {
    StartLeIsTotalPreorder();
    SortBy(ThreeFilters(events, query, tag, upcomingOnly, now), StartLe)
  }

  /** The shown events are exactly those all three filters keep, each as often
      as in the input. */
  lemma FilteredMeaning(events: seq<Event>, query: string, tag: string, upcomingOnly: bool, now: int)
    ensures var r := Filtered(events, query, tag, upcomingOnly, now);
      && (forall e :: multiset(r)[e] == if Keeps(query, tag, upcomingOnly, now, e) then multiset(events)[e] else 0)
      && (forall k :: 0 <= k < |r| ==> Keeps(query, tag, upcomingOnly, now, r[k]))
  {
    var kept := ThreeFilters(events, query, tag, upcomingOnly, now);
    ThreeFiltersMeaning(events, query, tag, upcomingOnly, now);
    var r := Filtered(events, query, tag, upcomingOnly, now);
    assert multiset(r) == multiset(kept);
    forall k | 0 <= k < |r| ensures Keeps(query, tag, upcomingOnly, now, r[k]) {
      assert r[k] in multiset(r);
    }
  }

  /** The component's state. `now` is `Date.now()` as read when `filtered`
      was last computed. */
  class EventsView {
    var initialEvents: Option<seq<Event>>
    var query: string
    var tag: string
    var upcomingOnly: bool
    var now: int
    var page: nat

    function Results(): seq<Event>
      reads this
    {
      Filtered(EventsOf(initialEvents), query, tag, upcomingOnly, now)
    }

    function PageCount(): nat
      reads this
    {
      TotalPages(|Results()|)
    }

    function Visible(): seq<Event>
      reads this
      requires Valid()
    {
      PageItems(Results(), page)
    }

    ghost predicate Valid()
      reads this
    {
      page >= 1
    }

    predicate InRange()
      reads this
    {
      page <= PageCount()
    }

    constructor(initial: Option<seq<Event>>, clock: int)
      ensures Valid() && InRange()
      ensures initialEvents == initial && now == clock
      ensures query == "" && tag == "all" && upcomingOnly && page == 1
    {
      initialEvents, query, tag, upcomingOnly, now, page := initial, "", "all", true, clock, 1;
    }

    method SetQuery(q: string, clock: int)
      requires Valid()
      modifies this
      ensures Valid() && InRange()
      ensures query == q && now == clock && page == 1
      ensures initialEvents == old(initialEvents) && tag == old(tag) && upcomingOnly == old(upcomingOnly)
    {
      query, now, page := q, clock, 1;
    }

    method SetTag(t: string, clock: int)
      requires Valid()
      modifies this
      ensures Valid() && InRange()
      ensures tag == t && now == clock && page == 1
      ensures initialEvents == old(initialEvents) && query == old(query) && upcomingOnly == old(upcomingOnly)
    {
      tag, now, page := t, clock, 1;
    }

    /** The checkbox does not touch the page; the effect below repairs it. */
    method SetUpcomingOnly(b: bool, clock: int)
      requires Valid()
      modifies this
      ensures Valid()
      ensures upcomingOnly == b && now == clock && page == old(page)
      ensures initialEvents == old(initialEvents) && query == old(query) && tag == old(tag)
    {
      upcomingOnly, now := b, clock;
    }

    /** A new `initialEvents` prop from the parent: the list is filtered
        again at the current time, and the page is left as it was. */
    method Receive(newEvents: Option<seq<Event>>, clock: int)
      requires Valid()
      modifies this
      ensures Valid()
      ensures initialEvents == newEvents && now == clock && page == old(page)
      ensures query == old(query) && tag == old(tag) && upcomingOnly == old(upcomingOnly)
    {
      initialEvents, now := newEvents, clock;
    }

    method ResetPageIfBeyond()
      requires Valid()
      modifies this`page
      ensures Valid() && InRange()
      ensures page == if old(page) > PageCount() then 1 else old(page)
    {
      if page > PageCount() {
        page := 1;
      }
    }

    method Prev()
      requires Valid()
      modifies this`page
      ensures Valid()
      ensures page == PrevPage(old(page))
      ensures old(InRange()) ==> InRange()
    {
      page := PrevPage(page);
    }

    method Next()
      requires Valid()
      modifies this`page
      ensures Valid() && InRange()
      ensures page == NextPage(old(page), PageCount())
    {
      page := NextPage(page, PageCount());
    }
  }
}
