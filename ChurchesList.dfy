/**
 * The churches directory (components/ChurchesList.tsx): the tag choices,
 * search, tag filter and sort over the church list, and the page state
 * that the search box, the tag select and the Prev/Next buttons update.
 */
module ChurchesList {
  import opened Wrappers
  import opened Text
  import opened Sequences
  import opened Paging

  datatype Church = Church(
    id: string,
    name: string,
    address: Option<string>,
    pastor: Option<string>,
    tags: Option<seq<string>>)

  datatype SortKey = ByName | Recent

  /** `c.tags || []`. */
  function TagsOf(c: Church): seq<string> {
    c.tags.GetOr([])
  }

  /** Every church's tags, church after church. */
  function AllTags(churches: seq<Church>): seq<string> {
    Flatten(seq(|churches|, k requires 0 <= k < |churches| => TagsOf(churches[k])))
  }

  /** The tag select's options: `all`, then each tag some church carries, once,
      in order of first appearance. A church tag spelled `all` is listed again. */
  function TagOptions(churches: seq<Church>): (r: seq<string>)
    ensures |r| >= 1 && r[0] == "all"
    ensures NoDuplicates(r[1..])
    ensures forall t :: t in r[1..] <==> exists k :: 0 <= k < |churches| && t in TagsOf(churches[k])
    ensures InFirstSeenOrder(r[1..], AllTags(churches))
  {
    var parts := seq(|churches|, k requires 0 <= k < |churches| => TagsOf(churches[k]));
    var r := ["all"] + Distinct(AllTags(churches));
    assert r[1..] == Distinct(AllTags(churches));
    DistinctOrder(AllTags(churches));
    assert forall k :: 0 <= k < |churches| ==> parts[k] == TagsOf(churches[k]);
    r
  }

  /** The search: the lower-cased name, address or pastor contains `q`. */
  predicate MatchesQuery(c: Church, q: string) {
    || Includes(Lower(c.name), q)
    || Includes(Lower(c.address.GetOr("")), q)
    || Includes(Lower(c.pastor.GetOr("")), q)
  }

  /** Whether a church survives both the search and the tag filter. */
  predicate Keeps(query: string, tag: string, c: Church) {
    && (Trim(query) == [] || MatchesQuery(c, Lower(query)))
    && (tag == "all" || tag in TagsOf(c))
  }

  /** The comparator for `sort === 'name'`. */
  predicate NameLe(a: Church, b: Church) {
    LexLe(a.name, b.name)
  }

  lemma NameLeIsTotalPreorder()
    ensures IsTotalPreorder(NameLe)
  {
    forall a: Church, b: Church ensures NameLe(a, b) || NameLe(b, a) {
      LexLeTotal(a.name, b.name);
    }
    forall a: Church, b: Church, c: Church | NameLe(a, b) && NameLe(b, c) ensures NameLe(a, c) {
      LexLeTransitive(a.name, b.name, c.name);
    }
  }

  /** The search, then the tag filter, in the order the component applies them. */
  function SearchThenTag(churches: seq<Church>, query: string, tag: string): seq<Church> {
    var searched :=
      if Trim(query) != [] then Filter(churches, c => MatchesQuery(c, Lower(query))) else churches;
    if tag != "all" then Filter(searched, c => tag in TagsOf(c)) else searched
  }

  /** The two filters in a row keep exactly the churches `Keeps` accepts, in
      their original order. */
  lemma SearchThenTagKeepsOrder(churches: seq<Church>, query: string, tag: string)
    ensures SearchThenTag(churches, query, tag) == Filter(churches, c => Keeps(query, tag, c))
  {
    var search := (c: Church) => MatchesQuery(c, Lower(query));
    var byTag := (c: Church) => tag in TagsOf(c);
    var both := (c: Church) => Keeps(query, tag, c);
    if Trim(query) != [] && tag != "all" {
      FilterCompose(churches, search, byTag, both);
    } else if Trim(query) != [] {
      FilterExt(churches, search, both);
    } else if tag != "all" {
      FilterExt(churches, byTag, both);
    } else {
      FilterAll(churches, both);
    }
  }

  /** `filtered`: the search and tag filter, then the sort; `recent` keeps
      the input order. */
  function Filtered(churches: seq<Church>, query: string, tag: string, sort: SortKey): (r: seq<Church>)
    ensures sort == ByName ==> SortedBy(r, NameLe)
    ensures sort == Recent ==> r == Filter(churches, c => Keeps(query, tag, c))
  {
    var kept := SearchThenTag(churches, query, tag);
    SearchThenTagKeepsOrder(churches, query, tag);
    NameLeIsTotalPreorder();
    if sort == ByName then SortBy(kept, NameLe) else kept
  }

  /** Whatever the sort, the result holds every church the filters keep, as
      often as the input does, and nothing else. */
  lemma FilteredMeaning(churches: seq<Church>, query: string, tag: string, sort: SortKey)
    ensures var r := Filtered(churches, query, tag, sort);
      && (forall c :: multiset(r)[c] == if Keeps(query, tag, c) then multiset(churches)[c] else 0)
      && multiset(r) <= multiset(churches)
      && (forall k :: 0 <= k < |r| ==> Keeps(query, tag, r[k]))
  {
    var keep := (c: Church) => Keeps(query, tag, c);
    var kept := Filter(churches, keep);
    SearchThenTagKeepsOrder(churches, query, tag);
    FilterMultiset(churches, keep);
    FilterSubMultiset(churches, keep);
    var r := Filtered(churches, query, tag, sort);
    assert multiset(r) == multiset(kept);
    forall k | 0 <= k < |r| ensures Keeps(query, tag, r[k]) {
      assert r[k] in multiset(r);
    }
  }

  /** Sorting never changes how many churches are found. */
  lemma SortKeepsCount(churches: seq<Church>, query: string, tag: string, a: SortKey, b: SortKey)
    ensures |Filtered(churches, query, tag, a)| == |Filtered(churches, query, tag, b)|
  {
    FilteredMeaning(churches, query, tag, a);
    FilteredMeaning(churches, query, tag, b);
    var x, y := Filtered(churches, query, tag, a), Filtered(churches, query, tag, b);
    assert multiset(x) == multiset(y);
    assert |multiset(x)| == |x| && |multiset(y)| == |y|;
  }

  /** An empty search with the `all` tag and the `recent` sort shows every church
      in its original order. */
  lemma NoFilterShowsAll(churches: seq<Church>)
    ensures Filtered(churches, "", "all", Recent) == churches
  {
    FilterAll(churches, c => Keeps("", "all", c));
  }

  /** The component's state: the inputs it holds and the current page. */
  class ChurchesView {
    var churches: seq<Church>
    var query: string
    var tag: string
    var sort: SortKey
    var page: nat

    function Results(): seq<Church>
      reads this
    {
      Filtered(churches, query, tag, sort)
    }

    function PageCount(): nat
      reads this
    {
      TotalPages(|Results()|)
    }

    /** The cards on the current page. */
    function Visible(): seq<Church>
      reads this
      requires Valid()
    {
      PageItems(Results(), page)
    }

    ghost predicate Valid()
      reads this
    {
      page >= 1
    }

    /** The current page exists. */
    predicate InRange()
      reads this
    {
      page <= PageCount()
    }

    constructor(initialChurches: seq<Church>)
      ensures Valid() && InRange()
      ensures churches == initialChurches && query == "" && tag == "all" && sort == ByName && page == 1
    {
      churches, query, tag, sort, page := initialChurches, "", "all", ByName, 1;
    }

    /** Typing in the search box also goes back to page 1. */
    method SetQuery(q: string)
      requires Valid()
      modifies this
      ensures Valid() && InRange()
      ensures query == q && page == 1
      ensures churches == old(churches) && tag == old(tag) && sort == old(sort)
    {
      query, page := q, 1;
    }

    /** Choosing a tag also goes back to page 1. */
    method SetTag(t: string)
      requires Valid()
      modifies this
      ensures Valid() && InRange()
      ensures tag == t && page == 1
      ensures churches == old(churches) && query == old(query) && sort == old(sort)
    {
      tag, page := t, 1;
    }

    /** Changing the sort keeps the page; the page count cannot change. */
    method SetSort(k: SortKey)
      requires Valid()
      modifies this
      ensures Valid()
      ensures sort == k && page == old(page) && PageCount() == old(PageCount())
      ensures churches == old(churches) && query == old(query) && tag == old(tag)
    {
      SortKeepsCount(churches, query, tag, sort, k);
      sort := k;
    }

    /** A new church list from the parent; the page is left as it was. */
    method Receive(newChurches: seq<Church>)
      requires Valid()
      modifies this
      ensures Valid()
      ensures churches == newChurches && page == old(page)
      ensures query == old(query) && tag == old(tag) && sort == old(sort)
    {
      churches := newChurches;
    }

    /** The effect on `totalPages`: a page past the last one goes back to 1. */
    method ResetPageIfBeyond()
      requires Valid()
      modifies this`page
      ensures Valid() && InRange()
      ensures page == if old(page) > PageCount() then 1 else old(page)
    {
      if page > PageCount() {
        page := 1;
      }
    }

    method Prev()
      requires Valid()
      modifies this`page
      ensures Valid()
      ensures page == PrevPage(old(page))
      ensures old(InRange()) ==> InRange()
    {
      page := PrevPage(page);
    }

    method Next()
      requires Valid()
      modifies this`page
      ensures Valid() && InRange()
      ensures page == NextPage(old(page), PageCount())
    {
      page := NextPage(page, PageCount());
    }
  }
}
