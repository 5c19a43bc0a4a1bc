/** The video grid screen: the fixed video list is cut into rows of `videosPerPage` by a loop
    stepping through the list, and a paginator shows one dot per page. The scroll geometry
    that `goToPage` also drives is not modelled. */
module VideoGrid {
  import opened Js
  import opened Paging

  const Videos: seq<string> := ["/a1.mp4", "/a2.mp4", "/a3.mp4", "/a4.mp4", "/a5.mp4", "/a6.mp4", "/a7.mp4", "/a8.mp4"]

  const VideosPerPage: nat := 2

  function Flatten<T>(rows: seq<seq<T>>): seq<T> {
    if rows == [] then [] else Flatten(rows[..|rows| - 1]) + rows[|rows| - 1]
  }

  /** If (r - 1) * k < n <= r * k then `Math.ceil(n / k)` is r. */
  lemma CeilDivExact(n: nat, k: nat, r: nat)
    requires k > 0 && r > 0 && (r - 1) * k < n <= r * k
    ensures CeilDiv(n, k) == r
  {
    var m := n + k - 1;
    assert r * k <= m < r * k + k;
  }

  /** `rows` are the first |rows| pages of `videos`, each non-empty; they cover the first
      `covered` = |rows| * perRow positions, and laid end to end they are that prefix. */
  ghost predicate RowsSoFar(videos: seq<string>, rows: seq<seq<string>>, perRow: nat, covered: nat)
    requires perRow > 0
  {
    && covered == |rows| * perRow
    && (rows != [] ==> covered - perRow < |videos|)
    && (forall r :: 0 <= r < |rows| ==> rows[r] == PageItems(videos, r, perRow) && rows[r] != [])
    && Flatten(rows) == videos[..if covered < |videos| then covered else |videos|]
  }

  /** Pushing the next page keeps `RowsSoFar`. */
  lemma RowsStep(videos: seq<string>, rows: seq<seq<string>>, perRow: nat, covered: nat)
    requires perRow > 0 && RowsSoFar(videos, rows, perRow, covered) && covered < |videos|
    ensures RowsSoFar(videos, rows + [Slice(videos, covered, covered + perRow)], perRow, covered + perRow)
  {
    var row := Slice(videos, covered, covered + perRow);
    var next := if covered + perRow < |videos| then covered + perRow else |videos|;
    assert (|rows| + 1) * perRow == covered + perRow;
    assert row == PageItems(videos, |rows|, perRow);
    assert row == videos[covered..next];
    assert videos[..next] == videos[..covered] + videos[covered..next];
    var rows' := rows + [row];
    assert rows'[..|rows'| - 1] == rows;
  }

  /** Once the pages cover the list, there are exactly as many rows as pages and every row
      but the last is full. */
  lemma RowsDone(videos: seq<string>, rows: seq<seq<string>>, perRow: nat, covered: nat)
    requires perRow > 0 && RowsSoFar(videos, rows, perRow, covered) && covered >= |videos|
    ensures |rows| == TotalPages(|videos|, perRow)
    ensures Flatten(rows) == videos
    ensures forall r :: 0 <= r < |rows| - 1 ==> |rows[r]| == perRow
  {
    assert videos[..|videos|] == videos;
    if rows == [] {
      assert |videos| == 0;
    } else {
      var n := |rows| - 1;
      assert n * perRow == covered - perRow by {
        assert covered == (n + 1) * perRow;
      }
      CeilDivExact(|videos|, perRow, |rows|);
      forall r | 0 <= r < n
        ensures |rows[r]| == perRow
      {
        assert rows[r] == PageItems(videos, r, perRow);
        FullPage(videos, r, perRow, n);
      }
    }
  }

  /** A page before page n, when page n still has items, is full. */
  lemma FullPage(videos: seq<string>, r: nat, perRow: nat, n: nat)
    requires perRow > 0 && r < n && n * perRow < |videos|
    ensures |PageItems(videos, r, perRow)| == perRow
  {
    MulMono(r + 1, n, perRow);
    assert r * perRow + perRow == (r + 1) * perRow;
  }

  /** The chunking loop: it steps through the list `perRow` items at a time and pushes each
      slice as a row. Row r is page r of the list, there are as many rows as pages, and the
      rows laid end to end give back the list. */
  method VideoRows(videos: seq<string>, perRow: nat) returns (rows: seq<seq<string>>)
    requires perRow > 0
    ensures |rows| == TotalPages(|videos|, perRow)
    ensures forall r :: 0 <= r < |rows| ==> rows[r] == PageItems(videos, r, perRow)
    ensures Flatten(rows) == videos
    ensures forall r :: 0 <= r < |rows| ==> 0 < |rows[r]| <= perRow
    ensures forall r :: 0 <= r < |rows| - 1 ==> |rows[r]| == perRow
  {
    rows := [];
    var i := 0;
    while i < |videos|
      invariant RowsSoFar(videos, rows, perRow, i)
      decreases |videos| - i
    {
      RowsStep(videos, rows, perRow, i);
      rows := rows + [Slice(videos, i, i + perRow)];
      i := i + perRow;
    }
    RowsDone(videos, rows, perRow, i);
  }

  /** The screen's own list makes four rows of two. */
  method ScreenRows() returns (rows: seq<seq<string>>)
    ensures |rows| == 4 && Flatten(rows) == Videos
    ensures forall r :: 0 <= r < |rows| ==> |rows[r]| == VideosPerPage
  {
    rows := VideoRows(Videos, VideosPerPage);
  }

  /** `Array.from({ length: totalPages }, (_, i) => i)`: one dot per page, dot i for page i. */
  function PageDots(totalPages: nat): (dots: seq<nat>)
    ensures |dots| == totalPages
    ensures forall i :: 0 <= i < |dots| ==> dots[i] == i
  {
    seq(totalPages, i => i)
  }

  class Paginator {
    var page: int

    constructor ()
      ensures page == 0
    {
      page := 0;
    }

    /** Clicking dot i selects page i. */
    method GoToPage(newPage: int)
      modifies this
      ensures page == newPage
    {
      page := newPage;
    }
  }

  /** Clicking any dot selects a page that has a row. */
  method ClickDot(p: Paginator, dots: seq<nat>, i: nat, rows: seq<seq<string>>)
    requires i < |dots| && dots == PageDots(|rows|)
    modifies p
    ensures p.page == i && 0 <= p.page < |rows|
  {
    p.GoToPage(dots[i]);
  }
}
