/** The page selector of the original front end
    (healthcare-frontend/src/components/common/Pagination.js): the list of
    page buttons with '...' gaps that `getPageNumbers` builds, and which
    controls are enabled. */
module Pagination {
  import opened Js

  /** One button of the list: a page number or the '...' marker. */
  datatype Item = Page(n: int) | Dots

  /** How many pages on each side of the current one are listed. */
  const Delta := 2

  function Max(a: int, b: int): int { if a >= b then a else b }
  function Min(a: int, b: int): int { if a <= b then a else b }

  /** The pages `lo`, `lo + 1`, ..., `hi`, or nothing when `lo > hi`. */
  function Run(lo: int, hi: int): (r: seq<Item>)
    ensures |r| == Max(0, hi - lo + 1)
    ensures forall k :: 0 <= k < |r| ==> r[k] == Page(lo + k)
  {
    if lo > hi then [] else seq(hi - lo + 1, k => Page(lo + k))
  }

  /** The first and the last page the window around `currentPage` lists. */
  function WindowLo(currentPage: int): int { Max(2, currentPage - Delta) }
  function WindowHi(currentPage: int, totalPages: int): int { Min(totalPages - 1, currentPage + Delta) }

  predicate LeadingDots(currentPage: int) { currentPage - Delta > 2 }
  predicate TrailingDots(currentPage: int, totalPages: int) { currentPage + Delta < totalPages - 1 }

  /** What `getPageNumbers` returns: page 1, '...' when the window starts
      after page 3, the window, '...' when it ends before the second-last
      page, and the last page. */
  function PageNumbers(currentPage: int, totalPages: int): seq<Item> {
    (if LeadingDots(currentPage) then [Page(1), Dots] else [Page(1)])
    + Run(WindowLo(currentPage), WindowHi(currentPage, totalPages))
    + (if TrailingDots(currentPage, totalPages) then [Dots, Page(totalPages)] else [Page(totalPages)])
  }

  /** `getPageNumbers`: the loop collects the window into `range`, then the
      pieces are pushed in order. */
  method GetPageNumbers(currentPage: int, totalPages: int) returns (rangeWithDots: seq<Item>)
    ensures rangeWithDots == PageNumbers(currentPage, totalPages)
  {
    var range: seq<Item> := [];
    var lo := Max(2, currentPage - Delta);
    var i := lo;
    while i <= Min(totalPages - 1, currentPage + Delta)
      invariant lo <= i
      invariant i <= Max(lo, Min(totalPages - 1, currentPage + Delta) + 1)
      invariant |range| == i - lo
      invariant forall k :: 0 <= k < |range| ==> range[k] == Page(lo + k)
      decreases totalPages - i, currentPage + Delta - i
    {
      range := range + [Page(i)];
      i := i + 1;
    }
    assert range == Run(WindowLo(currentPage), WindowHi(currentPage, totalPages));
    if currentPage - Delta > 2 {
      rangeWithDots := [Page(1), Dots];
    } else {
      rangeWithDots := [Page(1)];
    }
    rangeWithDots := rangeWithDots + range;
    if currentPage + Delta < totalPages - 1 {
      rangeWithDots := rangeWithDots + [Dots, Page(totalPages)];
    } else {
      rangeWithDots := rangeWithDots + [Page(totalPages)];
    }
  }

  /** Where each item of `PageNumbers` comes from: index `i` is page 1, a
      leading '...', page `lo + (i - lead)` of the window, a trailing '...'
      or the last page. */
  lemma PageNumbersAt(currentPage: int, totalPages: int, i: int)
    requires 0 <= i < |PageNumbers(currentPage, totalPages)|
    ensures var s := PageNumbers(currentPage, totalPages);
            var lead := if LeadingDots(currentPage) then 2 else 1;
            var w := Max(0, WindowHi(currentPage, totalPages) - WindowLo(currentPage) + 1);
            && |s| == lead + w + (if TrailingDots(currentPage, totalPages) then 2 else 1)
            && (i == 0 ==> s[i] == Page(1))
            && (i == 1 && lead == 2 ==> s[i] == Dots)
            && (lead <= i < lead + w ==> s[i] == Page(WindowLo(currentPage) + i - lead))
            && (i == |s| - 2 && TrailingDots(currentPage, totalPages) ==> s[i] == Dots)
            && (i == |s| - 1 ==> s[i] == Page(totalPages))
  {
    var lead: seq<Item> := if LeadingDots(currentPage) then [Page(1), Dots] else [Page(1)];
    var win := Run(WindowLo(currentPage), WindowHi(currentPage, totalPages));
    var trail: seq<Item> := if TrailingDots(currentPage, totalPages) then [Dots, Page(totalPages)] else [Page(totalPages)];
    var s := PageNumbers(currentPage, totalPages);
    assert s == lead + win + trail;
    if i < |lead| {
      assert s[i] == lead[i];
    } else if i < |lead| + |win| {
      assert s[i] == win[i - |lead|];
    } else {
      assert s[i] == trail[i - |lead| - |win|];
    }
  }

  /** The list starts with page 1, ends with the last page and has at most
      nine items. */
  lemma PageNumbersEnds(currentPage: int, totalPages: int)
    requires totalPages >= 2
    ensures var s := PageNumbers(currentPage, totalPages);
            && 2 <= |s| <= 9
            && s[0] == Page(1)
            && s[|s| - 1] == Page(totalPages)
  {
    var s := PageNumbers(currentPage, totalPages);
    PageNumbersAt(currentPage, totalPages, 0);
    PageNumbersAt(currentPage, totalPages, |s| - 1);
  }

  /** The page numbers listed are strictly increasing and lie between 1 and
      the last page. */
  lemma PageNumbersIncreasing(currentPage: int, totalPages: int)
    requires totalPages >= 2
    ensures var s := PageNumbers(currentPage, totalPages);
            && (forall i :: 0 <= i < |s| && s[i].Page? ==> 1 <= s[i].n <= totalPages)
            && (forall i, j :: 0 <= i < j < |s| && s[i].Page? && s[j].Page? ==> s[i].n < s[j].n)
  {
    var s := PageNumbers(currentPage, totalPages);
    forall i | 0 <= i < |s|
      ensures s[i].Page? ==> 1 <= s[i].n <= totalPages
      ensures s[i].Page? && 0 < i < |s| - 1 ==> 2 <= s[i].n <= totalPages - 1
    {
      PageNumbersAt(currentPage, totalPages, i);
    }
    forall i, j | 0 <= i < j < |s| && s[i].Page? && s[j].Page?
      ensures s[i].n < s[j].n
    {
      PageNumbersAt(currentPage, totalPages, i);
      PageNumbersAt(currentPage, totalPages, j);
    }
  }

  /** '...' appears only second or second-to-last. */
  lemma DotsPositions(currentPage: int, totalPages: int)
    requires totalPages >= 2
    ensures var s := PageNumbers(currentPage, totalPages);
            forall i :: 0 <= i < |s| && s[i] == Dots ==> i == 1 || i == |s| - 2
  {
    var s := PageNumbers(currentPage, totalPages);
    forall i | 0 <= i < |s| && s[i] == Dots
      ensures i == 1 || i == |s| - 2
    {
      PageNumbersAt(currentPage, totalPages, i);
    }
  }

  /** For a current page in range, '...' comes second exactly when the
      window starts after page 3, and second-to-last exactly when it ends
      before the second-last page. */
  lemma DotsWhen(currentPage: int, totalPages: int)
    requires 1 <= currentPage <= totalPages && totalPages >= 2
    ensures var s := PageNumbers(currentPage, totalPages);
            && (s[1] == Dots <==> LeadingDots(currentPage))
            && (s[|s| - 2] == Dots <==> TrailingDots(currentPage, totalPages))
  {
    var s := PageNumbers(currentPage, totalPages);
    PageNumbersEnds(currentPage, totalPages);
    PageNumbersAt(currentPage, totalPages, 1);
    PageNumbersAt(currentPage, totalPages, |s| - 2);
  }

  /** Which pages are listed: the first, the last, and every page strictly
      between them within two of the current page. */
  lemma PageNumbersListed(currentPage: int, totalPages: int, p: int)
    requires totalPages >= 2
    ensures Page(p) in PageNumbers(currentPage, totalPages) <==>
              p == 1 || p == totalPages || (2 <= p <= totalPages - 1 && currentPage - Delta <= p <= currentPage + Delta)
  {
    var s := PageNumbers(currentPage, totalPages);
    PageNumbersEnds(currentPage, totalPages);
    var lead := if LeadingDots(currentPage) then 2 else 1;
    if 2 <= p <= totalPages - 1 && currentPage - Delta <= p <= currentPage + Delta {
      var i := lead + p - WindowLo(currentPage);
      PageNumbersAt(currentPage, totalPages, i);
      assert s[i] == Page(p);
    } else if p != 1 && p != totalPages && Page(p) in s {
      var i :| 0 <= i < |s| && s[i] == Page(p);
      PageNumbersAt(currentPage, totalPages, i);
    }
  }

  /** For a current page in range, the current page is listed exactly once. */
  lemma CurrentPageOnce(currentPage: int, totalPages: int)
    requires 1 <= currentPage <= totalPages && totalPages >= 2
    ensures var s := PageNumbers(currentPage, totalPages);
            && Page(currentPage) in s
            && forall i, j :: 0 <= i < |s| && 0 <= j < |s| && s[i] == Page(currentPage) && s[j] == Page(currentPage) ==> i == j
  {
    PageNumbersListed(currentPage, totalPages, currentPage);
    PageNumbersIncreasing(currentPage, totalPages);
  }

  /** For a current page in range, neighbouring page numbers are
      consecutive. */
  lemma PageNumbersContiguous(currentPage: int, totalPages: int)
    requires 1 <= currentPage <= totalPages && totalPages >= 2
    ensures var s := PageNumbers(currentPage, totalPages);
            forall i :: 0 <= i < |s| - 1 && s[i].Page? && s[i + 1].Page? ==> s[i + 1].n == s[i].n + 1
  {
    var s := PageNumbers(currentPage, totalPages);
    forall i | 0 <= i < |s| - 1 && s[i].Page? && s[i + 1].Page?
      ensures s[i + 1].n == s[i].n + 1
    {
      PageNumbersAt(currentPage, totalPages, i);
      PageNumbersAt(currentPage, totalPages, i + 1);
    }
  }

  /** For a current page in range, every '...' sits between two page
      numbers and stands for at least one page left out. */
  lemma DotsMarkGaps(currentPage: int, totalPages: int)
    requires 1 <= currentPage <= totalPages && totalPages >= 2
    ensures var s := PageNumbers(currentPage, totalPages);
            forall i :: 0 < i < |s| - 1 && s[i] == Dots ==>
              s[i - 1].Page? && s[i + 1].Page? && s[i + 1].n > s[i - 1].n + 1
  {
    var s := PageNumbers(currentPage, totalPages);
    forall i | 0 < i < |s| - 1 && s[i] == Dots
      ensures s[i - 1].Page? && s[i + 1].Page? && s[i + 1].n > s[i - 1].n + 1
    {
      PageNumbersAt(currentPage, totalPages, i - 1);
      PageNumbersAt(currentPage, totalPages, i);
      PageNumbersAt(currentPage, totalPages, i + 1);
    }
  }

  /** What the component renders: nothing for one page or fewer; otherwise
      the previous button, the page buttons and the next button. */
  datatype Controls = Controls(previousDisabled: bool, items: seq<Item>, nextDisabled: bool)

  function Render(currentPage: int, totalPages: int): (c: Option<Controls>)
    ensures c.None? <==> totalPages <= 1
    ensures c.Some? ==> (c.value.previousDisabled <==> currentPage == 1)
    ensures c.Some? ==> (c.value.nextDisabled <==> currentPage == totalPages)
    ensures c.Some? ==> c.value.items == PageNumbers(currentPage, totalPages)
  {
    if totalPages <= 1 then None
    else Some(Controls(currentPage == 1, PageNumbers(currentPage, totalPages), currentPage == totalPages))
  }

  /** The page a click on an item asks for: '...' is disabled and asks for
      none. */
  function Click(item: Item): (target: Option<int>)
    ensures target.None? <==> item == Dots
    ensures item.Page? ==> target == Some(item.n)
  {
    match item
    case Page(n) => Some(n)
    case Dots => None
  }
}
