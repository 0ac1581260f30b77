/**
 * The pagination shared by the churches and events lists: nine items per
 * page, pages numbered from 1, Prev/Next clamped to the existing pages.
 */
module Paging {
  import opened Sequences

  const PerPage: nat := 9

  /** `Math.max(1, Math.ceil(total / perPage))`. */
  function TotalPages(total: nat): (r: nat)
    ensures r >= 1
    ensures total == 0 ==> r == 1
    ensures total <= r * PerPage
    ensures total == 0 || (r - 1) * PerPage < total
  {
    Max(1, (total + PerPage - 1) / PerPage)
  }

  /** `filtered.slice((page-1)*perPage, page*perPage)`: at most nine items,
      consecutive in `s` from the page's first index; a page past the last one
      is empty. */
  function PageItems<T>(s: seq<T>, page: nat): (r: seq<T>)
    requires page >= 1
    ensures |r| <= PerPage
    ensures forall k :: 0 <= k < |r| ==> (page - 1) * PerPage + k < |s| && r[k] == s[(page - 1) * PerPage + k]
    ensures page > TotalPages(|s|) ==> r == []
    ensures s != [] && page <= TotalPages(|s|) ==> r != []
  {
    Slice(s, (page - 1) * PerPage, page * PerPage)
  }

  /** Pages 1 to n, one after the other. */
  function PagesUpTo<T>(s: seq<T>, n: nat): seq<seq<T>>
  {
    seq(n, i requires 0 <= i < n => PageItems(s, i + 1))
  }

  /** The first n pages are the first 9n items (or all of them). */
  lemma {:induction false} PagesUpToPrefix<T(!new)>(s: seq<T>, n: nat)
    ensures Flatten(PagesUpTo(s, n)) == s[..Min(n * PerPage, |s|)]
  {
    if n > 0 {
      PagesUpToPrefix(s, n - 1);
      assert PagesUpTo(s, n) == PagesUpTo(s, n - 1) + [PageItems(s, n)];
      FlattenSnoc(PagesUpTo(s, n - 1), PageItems(s, n));
      var lo, hi := Min((n - 1) * PerPage, |s|), Min(n * PerPage, |s|);
      assert PageItems(s, n) == s[lo..hi];
      assert s[..lo] + s[lo..hi] == s[..hi];
    }
  }

  /** Reading every page in turn gives back the whole list, each item once. */
  lemma PagesCoverAll<T(!new)>(s: seq<T>)
    ensures Flatten(PagesUpTo(s, TotalPages(|s|))) == s
  {
    PagesUpToPrefix(s, TotalPages(|s|));
  }

  /** The Prev button: `Math.max(1, p - 1)`. */
  function PrevPage(p: nat): (r: nat)
    ensures r >= 1
    ensures p > 1 ==> r == p - 1
    ensures p <= 1 ==> r == 1
  {
    Max(1, p - 1)
  }

  /** The Next button: `Math.min(totalPages, p + 1)`. */
  function NextPage(p: nat, totalPages: nat): (r: nat)
    requires totalPages >= 1
    ensures 1 <= r <= totalPages
    ensures p < totalPages ==> r == p + 1
    ensures p >= totalPages ==> r == totalPages
  {
    Min(totalPages, p + 1)
  }
}
