/**
 * The leadership grid (components/LeaderGrid.tsx): `chunk` cuts the leaders
 * into pages, and a zero-based page index moves between them.
 */
module LeaderGrid {
  import opened Wrappers
  import opened Sequences

  datatype Leader = Leader(id: string, name: string)

  /** `chunk(arr, size)`: consecutive slices of `size` elements, the last one
      possibly shorter. A size of 0 or less never advances the loop
      (`ChunkStallsWithoutPositiveSize`), so the size here is positive. */
  method Chunk<T(!new)>(arr: seq<T>, size: nat) returns (out: seq<seq<T>>)
    requires size > 0
    ensures Flatten(out) == arr
    ensures forall k :: 0 <= k < |out| ==> 0 < |out[k]| <= size
    ensures forall k :: 0 <= k < |out| - 1 ==> |out[k]| == size
    ensures |out| == (|arr| + size - 1) / size
  {
    out := [];
    var i := 0;
    while i < |arr|
      invariant i == Times(|out|, size)
      invariant |out| > 0 ==> i - size < |arr|
      invariant Flatten(out) == arr[..Min(i, |arr|)]
      invariant forall k :: 0 <= k < |out| ==> 0 < |out[k]| <= size
      invariant forall k :: 0 <= k < |out| ==> k < |out| - 1 || i <= |arr| ==> |out[k]| == size
      decreases |arr| - i
    {
      var piece := Slice(arr, i, i + size);
      ChunkStep(arr, out, size, i);
      out := out + [piece];
      i := i + size;
    }
    ChunkCount(|arr|, size, |out|);
  }

  /** `n` steps of `size`, added one at a time as the loop does. */
  function Times(n: nat, size: nat): nat {
    if n == 0 then 0 else Times(n - 1, size) + size
  }

  /** `i` after `n` turns of `i += size` in the loop as written, for any
      numeric `size`. */
  function IndexAfter(n: nat, size: int): int {
    if n == 0 then 0 else IndexAfter(n - 1, size) + size
  }

  /** As written, `chunk` with a size of 0 or less never leaves its loop on a
      non-empty array: however many turns it takes, `i < arr.length` holds. */
  lemma {:induction false} ChunkStallsWithoutPositiveSize(len: nat, size: int, n: nat)
    requires size <= 0 && len > 0
    ensures IndexAfter(n, size) <= 0 < len
  {
    if n > 0 {
      ChunkStallsWithoutPositiveSize(len, size, n - 1);
    }
  }

  /** The loop stops after the rounded-up quotient of steps. */
  lemma ChunkCount(len: nat, size: nat, n: nat)
    requires size > 0 && len <= Times(n, size)
    requires n > 0 ==> Times(n, size) - size < len
    ensures n == (len + size - 1) / size
  {
    TimesIsProduct(n, size);
    if n > 0 {
      TimesIsProduct(n - 1, size);
    }
    CeilingCount(len, size, n);
  }

  lemma {:induction false} TimesIsProduct(n: nat, size: nat)
    ensures Times(n, size) == n * size
  {
    if n > 0 {
      TimesIsProduct(n - 1, size);
      assert (n - 1) * size + size == n * size;
    }
  }

  /** One turn of `chunk`'s loop: the next slice extends the pages by the
      next `size` elements, or by the rest when fewer remain. */
  lemma ChunkStep<T(!new)>(arr: seq<T>, out: seq<seq<T>>, size: nat, i: nat)
    requires size > 0 && i < |arr|
    requires Flatten(out) == arr[..i]
    ensures Flatten(out + [Slice(arr, i, i + size)]) == arr[..Min(i + size, |arr|)]
    ensures 0 < |Slice(arr, i, i + size)| <= size
    ensures i + size <= |arr| ==> |Slice(arr, i, i + size)| == size
  {
    var piece := Slice(arr, i, i + size);
    assert piece == arr[i..Min(i + size, |arr|)];
    FlattenSnoc(out, piece);
    assert arr[..i] + arr[i..Min(i + size, |arr|)] == arr[..Min(i + size, |arr|)];
  }

  /** A count n with (n-1)*size < len <= n*size (or n = 0 = len) is the
      rounded-up quotient. */
  lemma CeilingCount(len: nat, size: nat, n: nat)
    requires size > 0
    requires len <= n * size
    requires n > 0 ==> (n - 1) * size < len
    requires n == 0 ==> len == 0
    ensures n == (len + size - 1) / size
  {
    if n > 0 {
      assert (n - 1) * size + size == n * size;
    }
    assert (n + 1) * size == n * size + size;
    QuotientUnique(len + size - 1, size, n);
  }

  /** The quotient is the one n with n*d <= x < (n+1)*d. */
  lemma QuotientUnique(x: nat, d: nat, n: nat)
    requires d > 0
    requires n * d <= x < (n + 1) * d
    ensures x / d == n
  {
    var q := x / d;
    assert x == q * d + x % d;
    assert (q + 1) * d == q * d + d;
    MulStrict(q, n + 1, d);
    MulStrict(n, q + 1, d);
  }

  lemma MulStrict(a: int, b: int, c: nat)
    requires c > 0
    ensures a * c < b * c ==> a < b
  {
    if a >= b {
      assert a * c - b * c == (a - b) * c;
    }
  }

  /** With two or more non-empty parts, the whole is longer than the first. */
  lemma {:induction false} FlattenLongerThanHead<T(!new)>(parts: seq<seq<T>>)
    requires |parts| >= 2
    requires forall k :: 0 <= k < |parts| ==> |parts[k]| > 0
    ensures |Flatten(parts)| > |parts[0]|
  {
    var init := parts[..|parts| - 1];
    assert Flatten(parts) == Flatten(init) + parts[|parts| - 1];
    if |parts| == 2 {
      assert init[..0] == [];
      assert Flatten(init) == init[0];
    } else {
      FlattenLongerThanHead(init);
    }
  }

  /** The leaders, or `[]` when the prop is not an array. */
  function LeadersOf(initialLeadership: Option<seq<Leader>>): seq<Leader> {
    initialLeadership.GetOr([])
  }

  /** The label beside the buttons: `shown of total`. */
  datatype PageLabel = PageLabel(shown: nat, total: nat)

  /** The grid's state: the props, the pages chunked from them, and the page
      index, which new props leave as it was. */
  class LeaderGridView {
    var leaders: seq<Leader>
    var perPage: nat
    var pages: seq<seq<Leader>>
    var page: nat

    ghost predicate Valid()
      reads this
    {
      && perPage > 0
      && Flatten(pages) == leaders
      && (forall k :: 0 <= k < |pages| ==> 0 < |pages[k]| <= perPage)
      && (forall k :: 0 <= k < |pages| - 1 ==> |pages[k]| == perPage)
    }

    /** The index names one of the `totalPages` pages. */
    predicate InRange()
      reads this
    {
      page < TotalPages()
    }

    /** `Math.max(1, pages.length)`. */
    function TotalPages(): (r: nat)
      reads this
      ensures r >= 1 && r >= |pages|
      ensures pages == [] ==> r == 1
      ensures pages != [] ==> r == |pages|
    {
      Max(1, |pages|)
    }

    /** `pages[page] ?? []`. */
    function Current(): (r: seq<Leader>)
      reads this
      ensures page < |pages| ==> r == pages[page]
      ensures page >= |pages| ==> r == []
    {
      if page < |pages| then pages[page] else []
    }

    /** The Previous/Next buttons are shown only with more than one page,
        that is, when the leaders do not fit on one. */
    function ShowsNavigation(): (r: bool)
      reads this
      requires Valid()
      ensures r <==> |leaders| > perPage
    {
      if |pages| > 1 then
        FlattenLongerThanHead(pages);
        true
      else
        assert |pages| == 1 ==> pages[..0] == [] && Flatten(pages) == pages[0];
        false
    }

    /** `0 of 0` without leaders, else the one-based page of the total. */
    function Label(): (r: PageLabel)
      reads this
      ensures leaders == [] ==> r == PageLabel(0, 0)
      ensures leaders != [] ==> r == PageLabel(page + 1, TotalPages())
    {
      if leaders == [] then PageLabel(0, 0) else PageLabel(page + 1, TotalPages())
    }

    /** `perPage` defaults to 3; a size of 0 would never finish `chunk`. */
    constructor(initialLeadership: Option<seq<Leader>>, perPageProp: Option<nat>)
      requires perPageProp.GetOr(3) > 0
      ensures Valid() && InRange()
      ensures leaders == LeadersOf(initialLeadership) && perPage == perPageProp.GetOr(3) && page == 0
    {
      leaders := LeadersOf(initialLeadership);
      perPage := perPageProp.GetOr(3);
      var chunks := Chunk(LeadersOf(initialLeadership), perPageProp.GetOr(3));
      pages := chunks;
      page := 0;
    }

    /** New props: the pages are chunked again from them, and the index is
        kept, so it can now point past the last page. */
    method Receive(initialLeadership: Option<seq<Leader>>, perPageProp: Option<nat>)
      requires perPageProp.GetOr(3) > 0
      modifies this
      ensures Valid()
      ensures leaders == LeadersOf(initialLeadership) && perPage == perPageProp.GetOr(3)
      ensures page == old(page)
      ensures page >= |pages| ==> Current() == []
    {
      leaders := LeadersOf(initialLeadership);
      perPage := perPageProp.GetOr(3);
      var chunks := Chunk(leaders, perPage);
      pages := chunks;
    }

    /** `Math.max(0, p - 1)`. */
    method Prev()
      requires Valid()
      modifies this`page
      ensures Valid()
      ensures old(InRange()) ==> InRange()
      ensures page == Max(0, old(page) - 1)
    {
      page := Max(0, page - 1);
    }

    /** `Math.min(totalPages - 1, p + 1)`. */
    method Next()
      requires Valid()
      modifies this`page
      ensures Valid() && InRange()
      ensures page == Min(TotalPages() - 1, old(page) + 1)
    {
      page := Min(TotalPages() - 1, page + 1);
    }
  }

  /** After new props with fewer pages the kept index can point past the last
      one: with leaders still present, the grid shows none of them. For
      example, three leaders at one per page viewed on the third page, then
      new props holding one leader. */
  lemma StalePageShowsNothing(g: LeaderGridView)
    requires g.Valid() && g.leaders != [] && g.page >= |g.pages|
    ensures g.Current() == [] && !g.InRange()
  {
    assert Flatten(g.pages) != [];
  }

  /** While the index names an existing page, that page has leaders on it,
      unless there are none. */
  lemma ReachablePagesAreFull(g: LeaderGridView)
    requires g.Valid() && g.InRange() && g.leaders != []
    ensures g.Current() != []
  {
    var pages := g.pages;
    assert Flatten(pages) != [];
    assert |pages| > 0;
  }
}
