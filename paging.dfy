/** Slice-based pagination as the views do it: page `p` of a list is
    `xs.slice(p * perPage, (p + 1) * perPage)`, there are `Math.ceil(n / perPage)` pages,
    and the previous/next buttons clamp the page number. */
module Paging {
  import opened Js

  /** `Math.ceil(n / k)` for a positive page size. */
  function CeilDiv(n: nat, k: nat): (r: nat)
    requires k > 0
    ensures (r - 1) * k < n <= r * k || (n == 0 && r == 0)
  {
    (n + k - 1) / k
  }

  function TotalPages(n: nat, perPage: nat): nat
    requires perPage > 0
  {
    CeilDiv(n, perPage)
  }

  /** The items on page `page`. */
  function PageItems<T>(xs: seq<T>, page: nat, perPage: nat): (r: seq<T>)
    ensures |r| <= perPage
    ensures page * perPage + perPage <= |xs| ==> r == xs[page * perPage..page * perPage + perPage]
    ensures page * perPage >= |xs| ==> r == []
  {
    Slice(xs, page * perPage, (page + 1) * perPage)
  }

  /** Every page below the page count is non-empty, every page from the count on is empty. */
  lemma PageNonEmptyIffInRange<T>(xs: seq<T>, page: nat, perPage: nat)
    requires perPage > 0
    ensures PageItems(xs, page, perPage) != [] <==> page < TotalPages(|xs|, perPage)
  {
    if page < TotalPages(|xs|, perPage) {
      assert page * perPage < |xs| by {
        assert page <= TotalPages(|xs|, perPage) - 1;
        MulMono(page, TotalPages(|xs|, perPage) - 1, perPage);
      }
    } else {
      MulMono(TotalPages(|xs|, perPage), page, perPage);
    }
  }

  lemma MulMono(a: nat, b: nat, k: nat)
    requires a <= b
    ensures a * k <= b * k
  {
  }

  /** The pages from `page` on, laid end to end. */
  function PagesFrom<T>(xs: seq<T>, page: nat, perPage: nat): seq<T>
    requires perPage > 0
    decreases |xs| - page * perPage
  {
    if page * perPage >= |xs| then [] else PageItems(xs, page, perPage) + PagesFrom(xs, page + 1, perPage)
  }

  /** Paging loses and repeats nothing: the pages laid end to end give back the list. */
  lemma {:induction false} PagesFromRest<T>(xs: seq<T>, page: nat, perPage: nat)
    requires perPage > 0
    ensures PagesFrom(xs, page, perPage) == if page * perPage >= |xs| then [] else xs[page * perPage..]
    decreases |xs| - page * perPage
  {
    if page * perPage < |xs| {
      PagesFromRest(xs, page + 1, perPage);
      var lo := page * perPage;
      assert (page + 1) * perPage == lo + perPage;
      if lo + perPage <= |xs| {
        assert xs[lo..] == xs[lo..lo + perPage] + xs[lo + perPage..];
      } else {
        assert PageItems(xs, page, perPage) == xs[lo..];
      }
    }
  }

  lemma AllPages<T>(xs: seq<T>, perPage: nat)
    requires perPage > 0
    ensures PagesFrom(xs, 0, perPage) == xs
  {
    PagesFromRest(xs, 0, perPage);
  }

  /** `Math.max(0, p - 1)` */
  function PrevPage(p: int): int {
    if p - 1 < 0 then 0 else p - 1
  }

  /** `Math.min(totalPages - 1, p + 1)` */
  function NextPage(total: int, p: int): int {
    if total - 1 < p + 1 then total - 1 else p + 1
  }

  /** With at least one page, both buttons keep the page in [0, totalPages - 1]; they move by
      one step unless they are at the end they point to. */
  lemma ButtonsClamp(total: int, p: int)
    requires 1 <= total && 0 <= p < total
    ensures 0 <= PrevPage(p) < total && 0 <= NextPage(total, p) < total
    ensures PrevPage(p) == if p == 0 then 0 else p - 1
    ensures NextPage(total, p) == if p == total - 1 then p else p + 1
  {
  }

  /** The NFT panel shows 4 items a page when compact and 6 otherwise. */
  function ItemsPerPage(compact: bool): nat {
    if compact then 4 else 6
  }

  /** The music list shows 2 tracks a page. */
  const TracksPerPage: nat := 2
}
