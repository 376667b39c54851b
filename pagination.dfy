/** The pagination bar: a window of page numbers with ellipses, and the
    Previous/Next buttons around it. */
module Pagination {
  import opened Common

  /** One slot of the bar: a page button or the `...` marker. */
  datatype Entry = Page(n: int) | Ellipsis

  /** Up to this many pages are shown without ellipses. */
  const MaxVisible: int := 5

  /** The buttons `lo`, `lo + 1`, ..., `hi`. */
  function Run(lo: int, hi: int): (r: seq<Entry>)
    ensures |r| == (if lo <= hi then hi - lo + 1 else 0)
    ensures forall i :: 0 <= i < |r| ==> r[i] == Page(lo + i)
    decreases hi + 1 - lo
  {
    if lo > hi then [] else [Page(lo)] + Run(lo + 1, hi)
  }

  /** The window `getPageNumbers` is meant to build, case by case. */
  function Window(current: int, total: int): seq<Entry> {
    if total <= MaxVisible then Run(1, total)
    else if current <= 3 then Run(1, 4) + [Ellipsis, Page(total)]
    else if current >= total - 2 then [Page(1), Ellipsis] + Run(total - 3, total)
    else [Page(1), Ellipsis] + Run(current - 1, current + 1) + [Ellipsis, Page(total)]
  }

  lemma RunSnoc(lo: int, hi: int)
    requires lo <= hi + 1
    ensures Run(lo, hi + 1) == Run(lo, hi) + [Page(hi + 1)]
  {
    var a := Run(lo, hi + 1);
    var b := Run(lo, hi) + [Page(hi + 1)];
    assert |a| == |b|;
    forall i | 0 <= i < |a| ensures a[i] == b[i] {
    }
  }

  /** `for (let i = lo; i <= hi; i++) pages.push(i)` */
  method PushRange(pages: seq<Entry>, lo: int, hi: int) returns (r: seq<Entry>)
    ensures r == pages + Run(lo, hi)
  {
    r := pages;
    var i := lo;
    while i <= hi
      invariant lo <= i <= (if lo <= hi then hi + 1 else lo)
      invariant r == pages + Run(lo, i - 1)
      decreases hi - i
    {
      RunSnoc(lo, i - 1);
      r := r + [Page(i)];
      i := i + 1;
    }
    if lo > hi {
      assert Run(lo, hi) == [];
    }
  }

  /** `getPageNumbers()` */
  method GetPageNumbers(currentPage: int, totalPages: int) returns (pages: seq<Entry>)
    ensures pages == Window(currentPage, totalPages)
  {
    pages := [];
    if totalPages <= MaxVisible {
      pages := PushRange(pages, 1, totalPages);
    } else {
      if currentPage <= 3 {
        pages := PushRange(pages, 1, 4);
        pages := pages + [Ellipsis];
        pages := pages + [Page(totalPages)];
      } else if currentPage >= totalPages - 2 {
        pages := pages + [Page(1)];
        pages := pages + [Ellipsis];
        pages := PushRange(pages, totalPages - 3, totalPages);
      } else {
        pages := pages + [Page(1)];
        pages := pages + [Ellipsis];
        pages := PushRange(pages, currentPage - 1, currentPage + 1);
        pages := pages + [Ellipsis];
        pages := pages + [Page(totalPages)];
      }
    }
  }

  // ---------------------------------------------------------------------
  // The shape of the window
  // ---------------------------------------------------------------------

  /** Page numbers strictly increase from left to right. */
  ghost predicate Increasing(w: seq<Entry>) {
    forall i, j :: 0 <= i < j < |w| && w[i].Page? && w[j].Page? ==> w[i].n < w[j].n
  }

  /** Neighbouring buttons are consecutive pages, and an ellipsis always
      stands between two buttons at least two pages apart, so it hides at
      least one page. */
  ghost predicate GapsMarked(w: seq<Entry>) {
    forall i :: 0 <= i < |w| - 1 ==> GapAt(w, i)
  }

  /** The rule of `GapsMarked` for the entries at `i` and `i + 1`. */
  ghost predicate GapAt(w: seq<Entry>, i: int)
    requires 0 <= i < |w| - 1
  {
    (w[i].Page? && w[i + 1].Page? ==> w[i + 1].n == w[i].n + 1) &&
    (w[i + 1].Ellipsis? ==> i + 2 < |w| && w[i].Page? && w[i + 2].Page? && w[i + 2].n > w[i].n + 1)
  }

  ghost predicate Contains(w: seq<Entry>, page: int) {
    exists i :: 0 <= i < |w| && w[i] == Page(page)
  }

  /** Whenever the bar is shown, the window has at most seven entries, runs
      from page 1 to the last page in increasing order, marks every skipped
      stretch with an ellipsis, starts and ends with a button, and contains
      the current page when that page exists. */
  lemma WindowShape(current: int, total: int)
    requires total >= 1
    ensures var w := Window(current, total);
      |w| <= 7 && |w| >= 1 &&
      w[0] == Page(1) && w[|w| - 1] == Page(total) &&
      Increasing(w) && GapsMarked(w)
    ensures 1 <= current <= total ==> Contains(Window(current, total), current)
  {
    if total <= MaxVisible {
      SmallShape(current, total);
    } else if current <= 3 {
      HeadShape(current, total);
    } else if current >= total - 2 {
      TailShape(current, total);
    } else {
      MiddleShape(current, total);
    }
  }

  /** The window of a bar with at most five pages. */
  lemma SmallShape(current: int, total: int)
    requires 1 <= total <= MaxVisible
    ensures var w := Run(1, total);
      |w| <= 7 && |w| >= 1 && w[0] == Page(1) && w[|w| - 1] == Page(total) &&
      Increasing(w) && GapsMarked(w) && (1 <= current <= total ==> Contains(w, current))
  {
    var w := Run(1, total);
    forall i, j | 0 <= i < j < |w| && w[i].Page? && w[j].Page? ensures w[i].n < w[j].n {
      assert w[i] == Page(1 + i) && w[j] == Page(1 + j);
    }
    forall i | 0 <= i < |w| - 1 ensures GapAt(w, i) {
      assert w[i] == Page(1 + i) && w[i + 1] == Page(2 + i);
    }
    if 1 <= current <= total {
      assert w[current - 1] == Page(current);
    }
  }

  /** The window near the first page. */
  lemma HeadShape(current: int, total: int)
    requires total > MaxVisible && current <= 3
    ensures var w := Run(1, 4) + [Ellipsis, Page(total)];
      |w| <= 7 && |w| >= 1 && w[0] == Page(1) && w[|w| - 1] == Page(total) &&
      Increasing(w) && GapsMarked(w) && (1 <= current ==> Contains(w, current))
  {
    var w := Run(1, 4) + [Ellipsis, Page(total)];
    assert |w| == 6 && w[4] == Ellipsis && w[5] == Page(total);
    assert forall i :: 0 <= i < 4 ==> w[i] == Page(i + 1);
    forall i, j | 0 <= i < j < |w| && w[i].Page? && w[j].Page? ensures w[i].n < w[j].n {
    }
    forall i | 0 <= i < |w| - 1 ensures GapAt(w, i) {
    }
    if 1 <= current {
      assert w[current - 1] == Page(current);
    }
  }

  /** The window near the last page. */
  lemma TailShape(current: int, total: int)
    requires total > MaxVisible && current >= total - 2
    ensures var w := [Page(1), Ellipsis] + Run(total - 3, total);
      |w| <= 7 && |w| >= 1 && w[0] == Page(1) && w[|w| - 1] == Page(total) &&
      Increasing(w) && GapsMarked(w) && (current <= total ==> Contains(w, current))
  {
    var w := [Page(1), Ellipsis] + Run(total - 3, total);
    TailOrdered(total);
    assert |w| == 6 && w[0] == Page(1) && w[5] == Page(total);
    if current <= total {
      assert w[current - total + 5] == Page(current);
    }
  }

  /** The pages of the window near the last page are in order, with the
      ellipsis between 1 and the fourth page from the end. */
  lemma TailOrdered(total: int)
    requires total > MaxVisible
    ensures var w := [Page(1), Ellipsis] + Run(total - 3, total);
      Increasing(w) && GapsMarked(w)
  {
    var w := [Page(1), Ellipsis] + Run(total - 3, total);
    assert |w| == 6 && w[0] == Page(1) && w[1] == Ellipsis;
    assert forall i :: 2 <= i < 6 ==> w[i] == Page(total - 5 + i);
    forall i, j | 0 <= i < j < |w| && w[i].Page? && w[j].Page? ensures w[i].n < w[j].n {
      assert 2 <= j && w[j] == Page(total - 5 + j);
      if i > 0 {
        assert w[i] == Page(total - 5 + i);
      }
    }
    forall i | 0 <= i < |w| - 1 ensures GapAt(w, i) {
    }
  }

  /** The window around a page in the middle. */
  lemma MiddleShape(current: int, total: int)
    requires total > MaxVisible && 3 < current < total - 2
    ensures var w := [Page(1), Ellipsis] + Run(current - 1, current + 1) + [Ellipsis, Page(total)];
      |w| <= 7 && |w| >= 1 && w[0] == Page(1) && w[|w| - 1] == Page(total) &&
      Increasing(w) && GapsMarked(w) && Contains(w, current)
  {
    var w := [Page(1), Ellipsis] + Run(current - 1, current + 1) + [Ellipsis, Page(total)];
    assert |w| == 7 && w[0] == Page(1) && w[1] == Ellipsis;
    assert forall i :: 2 <= i < 5 ==> w[i] == Page(current - 3 + i);
    assert w[5] == Ellipsis && w[6] == Page(total);
    forall i, j | 0 <= i < j < |w| && w[i].Page? && w[j].Page? ensures w[i].n < w[j].n {
    }
    forall i | 0 <= i < |w| - 1 ensures GapAt(w, i) {
    }
    assert w[3] == Page(current);
  }

  /** With at most five pages every page is shown and there is no ellipsis. */
  lemma SmallWindowIsComplete(current: int, total: int)
    requires 1 <= total <= MaxVisible
    ensures |Window(current, total)| == total
    ensures forall page :: 1 <= page <= total ==> Contains(Window(current, total), page)
    ensures forall i :: 0 <= i < total ==> Window(current, total)[i] != Ellipsis
  {
    var w := Window(current, total);
    forall page | 1 <= page <= total ensures Contains(w, page) {
      assert w[page - 1] == Page(page);
    }
  }

  // ---------------------------------------------------------------------
  // What the component renders and what its buttons request
  // ---------------------------------------------------------------------

  /** The rendered bar: the window and whether Previous and Next are disabled. */
  datatype View = View(pages: seq<Entry>, previousDisabled: bool, nextDisabled: bool)

  /** The component renders nothing for a single page (or none); otherwise
      the window, with Previous disabled on the first page and Next on the last. */
  function Render(currentPage: int, totalPages: int): (v: Option<View>)
    ensures v.None? <==> totalPages <= 1
    ensures v.Some? ==> v.value.pages == Window(currentPage, totalPages)
    ensures v.Some? ==> (v.value.previousDisabled <==> currentPage == 1)
    ensures v.Some? ==> (v.value.nextDisabled <==> currentPage == totalPages)
  {
    if totalPages <= 1 then None
    else Some(View(Window(currentPage, totalPages), currentPage == 1, currentPage == totalPages))
  }

  datatype Button = PreviousButton | NextButton | PageButton(index: nat)

  /** The page `onPageChange` is called with when a button is clicked; a
      disabled button (or a slot that is not a button) requests nothing. */
  function Click(currentPage: int, totalPages: int, b: Button): Option<int> {
    match Render(currentPage, totalPages)
    case None => None
    case Some(v) =>
      match b
      case PreviousButton => if v.previousDisabled then None else Some(currentPage - 1)
      case NextButton => if v.nextDisabled then None else Some(currentPage + 1)
      case PageButton(i) =>
        if i < |v.pages| && v.pages[i].Page? then Some(v.pages[i].n) else None
  }

  /** From a page in range, every click requests a page in range: Previous
      asks for the page before, Next for the page after, a page button for
      its own number. */
  lemma ClickStaysInRange(currentPage: int, totalPages: int, b: Button)
    requires 1 <= currentPage <= totalPages
    ensures var r := Click(currentPage, totalPages, b);
      r.Some? ==> 1 <= r.value <= totalPages
    ensures b == PreviousButton && totalPages > 1 ==>
      Click(currentPage, totalPages, b) == (if currentPage == 1 then None else Some(currentPage - 1))
    ensures b == NextButton && totalPages > 1 ==>
      Click(currentPage, totalPages, b) == (if currentPage == totalPages then None else Some(currentPage + 1))
  {
    if totalPages > 1 {
      WindowShape(currentPage, totalPages);
      var w := Window(currentPage, totalPages);
      if b.PageButton? && b.index < |w| && w[b.index].Page? {
        var i := b.index;
        if i > 0 { assert w[0].n < w[i].n; }
        if i < |w| - 1 { assert w[i].n < w[|w| - 1].n; }
      }
    }
  }
}
