/** Twelve-per-page pagination as both customer dashboards compute it:
    `Math.ceil(n / 12)` pages, the page slice taken with `Array.prototype.slice`,
    and the row of at most five numbered page buttons. */
module Pagination {

  const PageSize: nat := 12

  function Min(a: int, b: int): int { if a <= b then a else b }
  function Max(a: int, b: int): int { if a >= b then a else b }

  /** `Math.ceil(count / 12)`: the fewest pages of twelve that hold `count` items. */
  function TotalPages(count: nat): (r: nat)
    ensures r * PageSize >= count
    ensures r == 0 || (r - 1) * PageSize < count
    ensures r == 0 <==> count == 0
  {
    (count + PageSize - 1) / PageSize
  }

  // ---------------------------------------------------------------------
  // Array.prototype.slice

  /** A slice bound as `slice` reads it: negative counts from the end, and
      the result is clamped to `[0, len]`. */
  function RelativeIndex(i: int, len: nat): (r: nat)
    ensures r <= len
    ensures 0 <= i ==> r == Min(i, len)
  {
    if i < 0 then Max(len + i, 0) else Min(i, len)
  }

  /** `xs.slice(start, end)`: the items from the clamped start up to the
      clamped end, in order, and nothing when the end is not past the start. */
  function Slice<T>(xs: seq<T>, start: int, end: int): (r: seq<T>)
    ensures |r| == Max(0, RelativeIndex(end, |xs|) - RelativeIndex(start, |xs|))
    ensures forall i :: 0 <= i < |r| ==> r[i] == xs[RelativeIndex(start, |xs|) + i]
  {
    var from, to := RelativeIndex(start, |xs|), RelativeIndex(end, |xs|);
    if from < to then xs[from..to] else []
  }

  /** `filtered.slice((page - 1) * 12, page * 12)`. */
  function PageSlice<T>(xs: seq<T>, page: int): (r: seq<T>)
    ensures |r| <= PageSize
  {
    Slice(xs, (page - 1) * PageSize, page * PageSize)
  }

  /** For a page number of at least one the slice is the page's window of `xs`. */
  lemma PageSliceWindow<T>(xs: seq<T>, page: int)
    requires page >= 1
    ensures PageSlice(xs, page)
         == xs[Min((page - 1) * PageSize, |xs|)..Min(page * PageSize, |xs|)]
  {
  }

  /** Pages 1 .. k laid end to end. */
  function Pages<T>(xs: seq<T>, k: nat): seq<T> {
    if k == 0 then [] else Pages(xs, k - 1) + PageSlice(xs, k)
  }

  lemma {:induction false} PagesArePrefix<T>(xs: seq<T>, k: nat)
    ensures Pages(xs, k) == xs[..Min(k * PageSize, |xs|)]
  {
    if k > 0 {
      PagesArePrefix(xs, k - 1);
      PageSliceWindow(xs, k);
      var a, b := Min((k - 1) * PageSize, |xs|), Min(k * PageSize, |xs|);
      assert xs[..a] + xs[a..b] == xs[..b];
    }
  }

  /** Concatenating pages 1 .. TotalPages gives back exactly the list:
      no item is lost, repeated or reordered. */
  lemma PagesCoverList<T>(xs: seq<T>)
    ensures Pages(xs, TotalPages(|xs|)) == xs
  {
    PagesArePrefix(xs, TotalPages(|xs|));
  }

  /** Every page from 1 to TotalPages is non-empty and every later page is
      empty: there is no phantom page, and an empty list has no pages. */
  lemma PageOccupancy<T>(xs: seq<T>, page: int)
    ensures 1 <= page <= TotalPages(|xs|) ==> |PageSlice(xs, page)| > 0
    ensures page > TotalPages(|xs|) ==> PageSlice(xs, page) == []
  {
    if page >= 1 {
      PageSliceWindow(xs, page);
    }
  }

  /** Twenty-five items make three pages, the last holding one item. */
  lemma TwentyFiveItems<T>(xs: seq<T>)
    requires |xs| == 25
    ensures TotalPages(|xs|) == 3
    ensures |PageSlice(xs, 1)| == 12 && |PageSlice(xs, 2)| == 12
    ensures PageSlice(xs, 3) == [xs[24]]
  {
    PageSliceWindow(xs, 1);
    PageSliceWindow(xs, 2);
    PageSliceWindow(xs, 3);
  }

  // ---------------------------------------------------------------------
  // Numbered page buttons

  /** `count` slots numbered from `first`; a slot whose number is past `total`
      renders nothing. */
  function Slots(first: int, count: nat, total: int): (r: seq<int>)
    ensures |r| == Max(0, Min(count, total - first + 1))
    ensures forall i :: 0 <= i < |r| ==> r[i] == first + i
    decreases count
  {
    if count == 0 then []
    else (if first <= total then [first] else []) + Slots(first + 1, count - 1, total)
  }

  /** `Array.from({ length: Math.min(5, totalPages) }, (_, i) => ...)`: the
      window starts at 1 while the current page is at most 3 and otherwise
      two below the current page. */
  function PageButtons(current: int, total: nat): (r: seq<int>)
    ensures |r| <= Min(5, total)
    ensures forall n :: n in r ==> 1 <= n <= total
  {
    var first := if current <= 3 then 1 else current - 2;
    Slots(first, Min(5, total), total)
  }

  /** The buttons are consecutive page numbers within [1, total], at most
      min(5, total) of them; they start at 1 for pages up to 3, and they
      include the current page whenever it is a real page. */
  lemma PageButtonsShape(current: int, total: nat)
    ensures |PageButtons(current, total)| <= Min(5, total)
    ensures forall i :: 0 <= i < |PageButtons(current, total)| ==>
              PageButtons(current, total)[i] == PageButtons(current, total)[0] + i
    ensures forall n :: n in PageButtons(current, total) ==> 1 <= n <= total
    ensures current <= 3 ==> |PageButtons(current, total)| == Min(5, total)
    ensures current <= 3 && total > 0 ==> PageButtons(current, total)[0] == 1
    ensures 1 <= current <= total ==> current in PageButtons(current, total)
  {
    var first := if current <= 3 then 1 else current - 2;
    var r := PageButtons(current, total);
    if 1 <= current <= total {
      assert r[current - first] == current;
    }
  }
}
