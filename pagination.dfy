/** The page list of the pagination bar (frontend/src/components/Pagination.tsx):
    which page buttons are shown, with -1 standing for an ellipsis, and when
    the previous/next buttons are enabled. */
module Pagination {
  import opened Wrappers

  const Ellipsis: int := -1
  const MobileMaxVisible: int := 3
  const DesktopMaxVisible: int := 7

  /** The pages `lo, lo + 1, ..., hi` (empty when `hi < lo`). */
  function Range(lo: int, hi: int): (r: seq<int>)
    ensures |r| == if hi < lo then 0 else hi - lo + 1
    ensures forall j :: 0 <= j < |r| ==> r[j] == lo + j
  {
    if hi < lo then [] else seq(hi - lo + 1, j => lo + j)
  }

  /** No two ellipses are next to each other, and an ellipsis is never the
      first or the last entry. */
  predicate EllipsesSeparated(pages: seq<int>)
  {
    forall i :: 0 <= i < |pages| && pages[i] == Ellipsis ==>
      0 < i < |pages| - 1 && pages[i - 1] != Ellipsis && pages[i + 1] != Ellipsis
  }

  /** The window lists pages of `1 .. total` in increasing order, with 1
      first and `total` last; two listed pages side by side are consecutive,
      and an ellipsis sits between two pages that are further apart. */
  predicate OrderedWindow(pages: seq<int>, total: int)
  {
    |pages| >= 2 && pages[0] == 1 && pages[|pages| - 1] == total
    && EllipsesSeparated(pages)
    && (forall i :: 0 <= i < |pages| && pages[i] != Ellipsis ==> 1 <= pages[i] <= total)
    && (forall i :: 0 <= i < |pages| - 1 && pages[i] != Ellipsis && pages[i + 1] != Ellipsis ==>
          pages[i + 1] == pages[i] + 1)
    && (forall i :: 0 < i < |pages| - 1 && pages[i] == Ellipsis ==> pages[i - 1] < pages[i + 1])
  }

  /** Every ellipsis hides at least one page. */
  predicate EllipsesHidePages(pages: seq<int>)
  {
    forall i :: 0 < i < |pages| - 1 && pages[i] == Ellipsis ==> pages[i - 1] + 1 < pages[i + 1]
  }

  function MaxVisible(isMobile: bool): int
  {
    if isMobile then MobileMaxVisible else DesktopMaxVisible
  }

  /** The `pages` array of the component, or `None` when it renders
      nothing (`totalPages <= 1`). */
  function Window(currentPage: int, totalPages: int, isMobile: bool): (r: Option<seq<int>>)
    ensures r.None? <==> totalPages <= 1
    ensures r.Some? ==> 2 <= |r.value| <= DesktopMaxVisible
    ensures r.Some? && isMobile ==> |r.value| <= MobileMaxVisible + 2
  {
    if totalPages <= 1 then None
    else if totalPages <= MaxVisible(isMobile) then Some(Range(1, totalPages))
    else if isMobile then
      (if currentPage == 1 then Some([1, 2, Ellipsis, totalPages])
       else if currentPage == totalPages then Some([1, Ellipsis, totalPages - 1, totalPages])
       else Some([1, Ellipsis, currentPage, Ellipsis, totalPages]))
    else if currentPage <= 4 then Some(Range(1, 5) + [Ellipsis, totalPages])
    else if currentPage >= totalPages - 3 then Some([1, Ellipsis] + Range(totalPages - 4, totalPages))
    else Some([1, Ellipsis] + Range(currentPage - 1, currentPage + 1) + [Ellipsis, totalPages])
  }

  /** The component's construction of `pages` by `push` calls. */
  method PageWindow(currentPage: int, totalPages: int, isMobile: bool) returns (window: Option<seq<int>>)
    ensures window == Window(currentPage, totalPages, isMobile)
  {
    if totalPages <= 1 {
      return None;
    }
    var pages: seq<int> := [];
    var maxVisiblePages := if isMobile then MobileMaxVisible else DesktopMaxVisible;
    if totalPages <= maxVisiblePages {
      for i := 1 to totalPages + 1
        invariant pages == Range(1, i - 1)
      {
        pages := pages + [i];
      }
      assert Window(currentPage, totalPages, isMobile) == Some(pages);
    } else if isMobile {
      if currentPage == 1 {
        pages := pages + [1, 2, Ellipsis, totalPages];
        assert pages == [1, 2, Ellipsis, totalPages];
      } else if currentPage == totalPages {
        pages := pages + [1, Ellipsis, totalPages - 1, totalPages];
        assert pages == [1, Ellipsis, totalPages - 1, totalPages];
      } else {
        pages := pages + [1, Ellipsis, currentPage, Ellipsis, totalPages];
        assert pages == [1, Ellipsis, currentPage, Ellipsis, totalPages];
      }
      assert Window(currentPage, totalPages, isMobile) == Some(pages);
    } else {
      if currentPage <= 4 {
        for i := 1 to 6
          invariant pages == Range(1, i - 1)
        {
          pages := pages + [i];
        }
        pages := pages + [Ellipsis];
        pages := pages + [totalPages];
        assert pages == Range(1, 5) + [Ellipsis, totalPages];
      } else if currentPage >= totalPages - 3 {
        pages := pages + [1];
        pages := pages + [Ellipsis];
        for i := totalPages - 4 to totalPages + 1
          invariant pages == [1, Ellipsis] + Range(totalPages - 4, i - 1)
        {
          pages := pages + [i];
        }
        assert Window(currentPage, totalPages, isMobile) == Some(pages);
      } else {
        pages := pages + [1];
        pages := pages + [Ellipsis];
        for i := currentPage - 1 to currentPage + 2
          invariant pages == [1, Ellipsis] + Range(currentPage - 1, i - 1)
        {
          pages := pages + [i];
        }
        pages := pages + [Ellipsis];
        pages := pages + [totalPages];
        assert pages == [1, Ellipsis] + Range(currentPage - 1, currentPage + 1) + [Ellipsis, totalPages];
      }
    }
    window := Some(pages);
  }

  /** Nothing is rendered for at most one page; up to the visible maximum
      (3 on a phone, 7 otherwise) every page is listed; in every case the
      list starts at page 1, ends at the last page and has at most 5 entries
      on a phone and 7 otherwise; the desktop list keeps its ellipses apart
      whatever the current page (on a phone that needs a current page in
      range, see `WindowOrdered`). */
  lemma WindowShape(currentPage: int, totalPages: int, isMobile: bool)
    ensures var w := Window(currentPage, totalPages, isMobile);
      (w.None? <==> totalPages <= 1)
      && (w.Some? && totalPages <= MaxVisible(isMobile) ==> w.value == Range(1, totalPages))
      && (w.Some? ==>
            |w.value| >= 2 && w.value[0] == 1 && w.value[|w.value| - 1] == totalPages
            && (!isMobile ==> EllipsesSeparated(w.value))
            && |w.value| <= (if isMobile then 5 else 7))
  {
    if totalPages > 1 {
      var w := Window(currentPage, totalPages, isMobile).value;
      if totalPages <= MaxVisible(isMobile) {
        assert forall i :: 0 <= i < |w| ==> w[i] >= 1;
      } else if !isMobile {
        DesktopWindowOrdered(currentPage, totalPages);
      }
    }
  }

  /** Every page of `1 .. total`, in order, is an ordered window. */
  lemma AllPagesOrdered(totalPages: int)
    requires totalPages > 1
    ensures OrderedWindow(Range(1, totalPages), totalPages)
  {
    var w := Range(1, totalPages);
    assert forall i :: 0 <= i < |w| ==> w[i] == i + 1;
  }

  /** The desktop layouts beyond seven pages: ordered, and every ellipsis
      hides at least one page. */
  lemma DesktopWindowOrdered(currentPage: int, totalPages: int)
    requires totalPages > DesktopMaxVisible
    ensures OrderedWindow(Window(currentPage, totalPages, false).value, totalPages)
    ensures EllipsesHidePages(Window(currentPage, totalPages, false).value)
  {
    var w := Window(currentPage, totalPages, false).value;
    if currentPage <= 4 {
      assert w == [1, 2, 3, 4, 5, Ellipsis, totalPages];
    } else if currentPage >= totalPages - 3 {
      assert w == [1, Ellipsis, totalPages - 4, totalPages - 3, totalPages - 2, totalPages - 1, totalPages];
    } else {
      assert w == [1, Ellipsis, currentPage - 1, currentPage, currentPage + 1, Ellipsis, totalPages];
    }
    LayoutOrdered(w, totalPages);
  }

  /** A seven-entry layout is checked entry by entry. */
  lemma LayoutOrdered(w: seq<int>, total: int)
    requires |w| == 7 && w[0] == 1 && w[6] == total
    requires w[1] == Ellipsis || w[1] == 2
    requires w[5] == Ellipsis || w[5] == total - 1
    requires w[1] == Ellipsis ==> w[5] != Ellipsis || w[3] + 1 < total
    requires w[1] == Ellipsis ==> w[2] > 2 && w[3] == w[2] + 1 && w[4] == w[3] + 1
    requires w[1] == Ellipsis && w[5] != Ellipsis ==> w[4] == total - 2
    requires w[1] == Ellipsis && w[5] == Ellipsis ==> w[4] + 1 < total
    requires w[1] != Ellipsis ==> w[2] == 3 && w[3] == 4 && w[4] == 5 && w[5] == Ellipsis && 6 < total
    ensures OrderedWindow(w, total) && EllipsesHidePages(w)
  {
    forall i | 0 <= i < 7
      ensures EntryOk(w, total, i)
      ensures w[i] == Ellipsis ==> 0 < i < 6 && w[i - 1] + 1 < w[i + 1]
    {
      assert i == 0 || i == 1 || i == 2 || i == 3 || i == 4 || i == 5 || i == 6;
    }
    OrderedByEntries(w, total);
  }

  /** For a current page in range the list is an ordered window over the
      pages that includes the current page. */
  lemma WindowOrdered(currentPage: int, totalPages: int, isMobile: bool)
    requires 1 <= currentPage <= totalPages && totalPages > 1
    ensures var w := Window(currentPage, totalPages, isMobile);
      w.Some? && OrderedWindow(w.value, totalPages) && currentPage in w.value
  {
    if totalPages <= MaxVisible(isMobile) {
      SmallWindowOrdered(currentPage, totalPages, isMobile);
    } else if !isMobile {
      DesktopWindowHasPage(currentPage, totalPages);
    } else {
      MobileWindowOrdered(currentPage, totalPages);
    }
  }

  /** Up to the visible maximum every page is listed. */
  lemma SmallWindowOrdered(currentPage: int, totalPages: int, isMobile: bool)
    requires 1 <= currentPage <= totalPages && 1 < totalPages <= MaxVisible(isMobile)
    ensures var w := Window(currentPage, totalPages, isMobile).value;
      OrderedWindow(w, totalPages) && currentPage in w
  {
    var w := Window(currentPage, totalPages, isMobile).value;
    assert w == Range(1, totalPages);
    AllPagesOrdered(totalPages);
    assert w[currentPage - 1] == currentPage;
  }

  /** The desktop layouts beyond seven pages list the current page. */
  lemma DesktopWindowHasPage(currentPage: int, totalPages: int)
    requires 1 <= currentPage <= totalPages && totalPages > DesktopMaxVisible
    ensures var w := Window(currentPage, totalPages, false).value;
      OrderedWindow(w, totalPages) && currentPage in w
  {
    var w := Window(currentPage, totalPages, false).value;
    DesktopWindowOrdered(currentPage, totalPages);
    if currentPage <= 4 {
      assert w[currentPage - 1] == currentPage;
    } else if currentPage >= totalPages - 3 {
      assert w[currentPage - totalPages + 6] == currentPage;
    } else {
      assert w[3] == currentPage;
    }
  }

  /** One entry of a window in the sense of `OrderedWindow`. */
  predicate EntryOk(pages: seq<int>, total: int, i: int)
    requires 0 <= i < |pages|
  {
    (pages[i] == Ellipsis ==>
       0 < i < |pages| - 1 && pages[i - 1] != Ellipsis && pages[i + 1] != Ellipsis && pages[i - 1] < pages[i + 1])
    && (pages[i] != Ellipsis ==> 1 <= pages[i] <= total)
    && (i < |pages| - 1 && pages[i] != Ellipsis && pages[i + 1] != Ellipsis ==> pages[i + 1] == pages[i] + 1)
  }

  /** A window is ordered when it starts at 1, ends at `total` and each
      entry is in order with its neighbours. */
  lemma OrderedByEntries(pages: seq<int>, total: int)
    requires |pages| >= 2 && pages[0] == 1 && pages[|pages| - 1] == total
    requires forall i :: 0 <= i < |pages| ==> EntryOk(pages, total, i)
    ensures OrderedWindow(pages, total)
  {
    forall i | 0 <= i < |pages|
      ensures pages[i] == Ellipsis ==>
        0 < i < |pages| - 1 && pages[i - 1] != Ellipsis && pages[i + 1] != Ellipsis && pages[i - 1] < pages[i + 1]
      ensures pages[i] != Ellipsis ==> 1 <= pages[i] <= total
      ensures i < |pages| - 1 && pages[i] != Ellipsis && pages[i + 1] != Ellipsis ==> pages[i + 1] == pages[i] + 1
    {
      assert EntryOk(pages, total, i);
    }
    forall i | 0 <= i < |pages| && pages[i] == Ellipsis
      ensures 0 < i < |pages| - 1 && pages[i - 1] != Ellipsis && pages[i + 1] != Ellipsis
    {
      assert EntryOk(pages, total, i);
    }
  }

  /** The phone layouts beyond three pages, for a page in range. */
  lemma MobileWindowOrdered(currentPage: int, totalPages: int)
    requires 1 <= currentPage <= totalPages && totalPages > MobileMaxVisible
    ensures var w := Window(currentPage, totalPages, true).value;
      OrderedWindow(w, totalPages) && currentPage in w
  {
    var w := Window(currentPage, totalPages, true).value;
    if currentPage == 1 {
      assert w == [1, 2, Ellipsis, totalPages];
      assert EntryOk(w, totalPages, 0) && EntryOk(w, totalPages, 1);
      assert EntryOk(w, totalPages, 2) && EntryOk(w, totalPages, 3);
    } else if currentPage == totalPages {
      assert w == [1, Ellipsis, totalPages - 1, totalPages];
      assert EntryOk(w, totalPages, 0) && EntryOk(w, totalPages, 1);
      assert EntryOk(w, totalPages, 2) && EntryOk(w, totalPages, 3);
      assert w[3] == currentPage;
    } else {
      assert w == [1, Ellipsis, currentPage, Ellipsis, totalPages];
      assert EntryOk(w, totalPages, 0) && EntryOk(w, totalPages, 1) && EntryOk(w, totalPages, 2);
      assert EntryOk(w, totalPages, 3) && EntryOk(w, totalPages, 4);
      assert w[2] == currentPage;
    }
    forall i | 0 <= i < |w|
      ensures EntryOk(w, totalPages, i)
    {
      assert i == 0 || i == 1 || i == 2 || i == 3 || i == 4;
    }
    OrderedByEntries(w, totalPages);
  }

  /** On a desktop every ellipsis stands for at least one hidden page. */
  lemma DesktopEllipsesHidePages(currentPage: int, totalPages: int)
    requires Window(currentPage, totalPages, false).Some?
    ensures EllipsesHidePages(Window(currentPage, totalPages, false).value)
  {
    if totalPages > DesktopMaxVisible {
      DesktopWindowOrdered(currentPage, totalPages);
    } else {
      var w := Window(currentPage, totalPages, false).value;
      assert forall i :: 0 <= i < |w| ==> w[i] >= 1;
    }
  }

  /** On a phone the window for page 2 of 4 reads "1 … 2 … 4": the first
      ellipsis hides no page. */
  lemma MobileEllipsisCanHideNothing()
    ensures Window(2, 4, true) == Some([1, Ellipsis, 2, Ellipsis, 4])
    ensures !EllipsesHidePages(Window(2, 4, true).value)
  {
    var w := Window(2, 4, true).value;
    assert w[1] == Ellipsis && !(w[0] + 1 < w[2]);
  }

  /** `disabled={currentPage === 1}` on the previous button. */
  predicate PreviousEnabled(currentPage: int)
    ensures PreviousEnabled(currentPage) && currentPage >= 1 ==> currentPage - 1 >= 1
  {
    currentPage != 1
  }

  /** `disabled={currentPage === totalPages}` on the next button. */
  predicate NextEnabled(currentPage: int, totalPages: int)
    ensures NextEnabled(currentPage, totalPages) && currentPage <= totalPages ==> currentPage + 1 <= totalPages
  {
    currentPage != totalPages
  }

  /** From a page in range, an enabled previous or next button requests a
      page that is again in range (`currentPage - 1`, `currentPage + 1`). */
  lemma NavigationStaysInRange(currentPage: int, totalPages: int)
    requires 1 <= currentPage <= totalPages
    ensures PreviousEnabled(currentPage) ==> 1 <= currentPage - 1 <= totalPages
    ensures NextEnabled(currentPage, totalPages) ==> 1 <= currentPage + 1 <= totalPages
    ensures !PreviousEnabled(currentPage) <==> currentPage == 1
  {
  }
}
