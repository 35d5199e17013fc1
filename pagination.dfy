// The page-number window drawn under the paged lists: page 1, an ellipsis
// when pages are skipped, the pages around the current one, another
// ellipsis, and (in one variant) a button for the last page.
module Pagination {

  /** One element of the window: a numbered page button or an ellipsis. */
  datatype Item = Page(n: int) | Ellipsis

  function Max(a: int, b: int): int { if a >= b then a else b }
  function Min(a: int, b: int): int { if a <= b then a else b }

  /** `Math.ceil(n / size)`: how many pages of `size` items hold `n` items. */
  function PageCount(n: nat, size: nat): (r: nat)
    requires size > 0
    ensures (r - 1) * size < n <= r * size
  {
    var r := (n + size - 1) / size;
    assert r * size <= n + size - 1 < (r + 1) * size;
    r
  }

  /** `Math.max(2, current - 1)` */
  function WindowStart(current: int): int {
    Max(2, current - 1)
  }

  /**
   * `Math.min(total - 1, current + 1)` when a last-page button follows,
   * `Math.min(total, current + 1)` when none does.
   */
  function WindowEnd(current: int, total: int, lastButton: bool): int {
    if lastButton then Min(total - 1, current + 1) else Min(total, current + 1)
  }

  /** The buttons `lo`, `lo + 1`, ..., `hi`; none when `lo > hi`. */
  function Pages(lo: int, hi: int): (r: seq<Item>)
    ensures |r| == if lo <= hi then hi - lo + 1 else 0
    ensures forall k :: 0 <= k < |r| ==> r[k] == Page(lo + k)
  {
    if lo <= hi then seq(hi - lo + 1, k => Page(lo + k)) else []
  }

  /** The window as the render code builds it, for either variant. */
  function PageWindow(current: int, total: int, lastButton: bool): seq<Item> {
    var start := WindowStart(current);
    var end := WindowEnd(current, total, lastButton);
    [Page(1)]
      + (if start > 2 then [Ellipsis] else [])
      + Pages(start, end)
      + (if end < total - 1 then [Ellipsis] else [])
      + (if lastButton && total > 1 then [Page(total)] else [])
  }

  /**
   * The render loop: push page 1, maybe an ellipsis, then `for (let i =
   * start; i <= end; i++)` the pages around the current one, maybe another
   * ellipsis, and the last page when that variant asks for it.
   */
  method BuildPageWindow(current: int, total: int, lastButton: bool) returns (pages: seq<Item>)
    ensures pages == PageWindow(current, total, lastButton)
  {
    pages := [Page(1)];
    var start := Max(2, current - 1);
    var end := if lastButton then Min(total - 1, current + 1) else Min(total, current + 1);
    if start > 2 {
      pages := pages + [Ellipsis];
    }
    ghost var head := pages;
    var i := start;
    while i <= end
      invariant start <= i <= Max(start, end + 1)
      invariant pages == head + Pages(start, i - 1)
    {
      pages := pages + [Page(i)];
      i := i + 1;
    }
    assert i - 1 == Max(start - 1, end);
    assert Pages(start, i - 1) == Pages(start, end);
    if end < total - 1 {
      pages := pages + [Ellipsis];
    }
    if lastButton && total > 1 {
      pages := pages + [Page(total)];
    }
  }

  /** Page numbers strictly increase from left to right. */
  predicate Ascending(items: seq<Item>) {
    forall i, j :: 0 <= i < j < |items| && items[i].Page? && items[j].Page? ==> items[i].n < items[j].n
  }

  /** Every page button in `items` is numbered in `lo..hi`. */
  predicate PagesWithin(items: seq<Item>, lo: int, hi: int) {
    forall i :: 0 <= i < |items| && items[i].Page? ==> lo <= items[i].n <= hi
  }

  /** Page `p` has a button in `items`. */
  predicate HasPage(items: seq<Item>, p: int) {
    exists i :: 0 <= i < |items| && items[i] == Page(p)
  }

  lemma AscendingConcat(a: seq<Item>, b: seq<Item>, loA: int, m: int, hiB: int)
    requires Ascending(a) && Ascending(b)
    requires loA <= m <= hiB + 1 && PagesWithin(a, loA, m - 1) && PagesWithin(b, m, hiB)
    ensures Ascending(a + b) && PagesWithin(a + b, loA, hiB)
  {
    var c := a + b;
    forall i, j | 0 <= i < j < |c| && c[i].Page? && c[j].Page?
      ensures c[i].n < c[j].n
    {
      if j < |a| {
        assert c[i] == a[i] && c[j] == a[j];
      } else if i >= |a| {
        assert c[i] == b[i - |a|] && c[j] == b[j - |a|];
      } else {
        assert c[i] == a[i] && c[j] == b[j - |a|];
      }
    }
    forall i | 0 <= i < |c| && c[i].Page?
      ensures loA <= c[i].n <= hiB
    {
      if i < |a| {
        assert c[i] == a[i];
      } else {
        assert c[i] == b[i - |a|];
      }
    }
  }

  /**
   * Page 1, a part with no page buttons, ascending pages in `2..top`, another
   * part with no page buttons and a part with pages above `top`: ascending.
   */
  lemma PartsAscending(lead: seq<Item>, mid: seq<Item>, trail: seq<Item>, last: seq<Item>, top: int, hi: int)
    requires 1 <= top < hi + 1
    requires Ascending(lead) && PagesWithin(lead, 2, 1)
    requires Ascending(mid) && PagesWithin(mid, 2, top)
    requires Ascending(trail) && PagesWithin(trail, top + 1, top)
    requires Ascending(last) && PagesWithin(last, top + 1, hi)
    ensures Ascending([Page(1)] + lead + mid + trail + last)
  {
    var s1 := [Page(1)] + lead;
    AscendingConcat([Page(1)], lead, 1, 2, 1);
    var s2 := s1 + mid;
    AscendingConcat(s1, mid, 1, 2, top);
    var s3 := s2 + trail;
    AscendingConcat(s2, trail, 1, top + 1, top);
    AscendingConcat(s3, last, 1, top + 1, hi);
  }

  /** The window's page numbers strictly increase, so no page appears twice. */
  lemma {:induction false} WindowAscending(current: int, total: int, lastButton: bool)
    ensures Ascending(PageWindow(current, total, lastButton))
  {
    var start := WindowStart(current);
    var end := WindowEnd(current, total, lastButton);
    var lead: seq<Item> := if start > 2 then [Ellipsis] else [];
    var trail: seq<Item> := if end < total - 1 then [Ellipsis] else [];
    var last: seq<Item> := if lastButton && total > 1 then [Page(total)] else [];
    // the highest page before the last-page button
    var top := if start <= end then end else 1;
    var mid := Pages(start, end);
    assert Ascending(mid) && PagesWithin(mid, 2, top);
    assert last != [] ==> top < total;
    PartsAscending(lead, mid, trail, last, top, Max(top + 1, total));
  }

  /**
   * Which pages get a button: page 1 always, and any page in `2..total`
   * that is next to the current one or, in the last-button variant, the last.
   */
  lemma WindowPages(current: int, total: int, lastButton: bool, p: int)
    ensures HasPage(PageWindow(current, total, lastButton), p) <==>
              p == 1 || (2 <= p <= total && (current - 1 <= p <= current + 1 || (lastButton && p == total)))
  {
    var start := WindowStart(current);
    var end := WindowEnd(current, total, lastButton);
    var lead: seq<Item> := if start > 2 then [Ellipsis] else [];
    var trail: seq<Item> := if end < total - 1 then [Ellipsis] else [];
    var last: seq<Item> := if lastButton && total > 1 then [Page(total)] else [];
    var w := PageWindow(current, total, lastButton);
    var mid := Pages(start, end);
    assert w == [Page(1)] + lead + mid + trail + last;
    if HasPage(w, p) {
      PageInParts(lead, mid, trail, last, p);
      if HasPage(mid, p) {
        var k :| 0 <= k < |mid| && mid[k] == Page(p);
        assert start <= p <= end;
      }
    }
    var off := 1 + |lead|;
    if p == 1 {
      assert w[0] == Page(1);
    } else if 2 <= p <= total && current - 1 <= p <= current + 1 && (!lastButton || p < total) {
      assert start <= p <= end;
      assert w[off + p - start] == mid[p - start];
    } else if 2 <= p <= total && lastButton && p == total {
      assert w[|w| - 1] == Page(total);
    }
  }

  /** A page of the assembled window is page 1, a middle page or a page of the last part. */
  lemma PageInParts(lead: seq<Item>, mid: seq<Item>, trail: seq<Item>, last: seq<Item>, q: int)
    requires PagesWithin(lead, 2, 1) && PagesWithin(trail, 2, 1)
    requires HasPage([Page(1)] + lead + mid + trail + last, q)
    ensures q == 1 || HasPage(mid, q) || HasPage(last, q)
  {
    var w := [Page(1)] + lead + mid + trail + last;
    var i :| 0 <= i < |w| && w[i] == Page(q);
    var off := 1 + |lead|;
    if off <= i < off + |mid| {
      assert w[i] == mid[i - off];
    } else if off + |mid| + |trail| <= i {
      assert w[i] == last[i - off - |mid| - |trail|];
    }
  }

  /** The current page, when it exists, always has a button. */
  lemma CurrentPageShown(current: int, total: int, lastButton: bool)
    requires 1 <= current <= total
    ensures HasPage(PageWindow(current, total, lastButton), current)
  {
    WindowPages(current, total, lastButton, current);
  }

  /** Two page buttons side by side are consecutive pages: a skip always shows an ellipsis. */
  lemma AdjacentPagesConsecutive(current: int, total: int, lastButton: bool, i: int)
    requires var w := PageWindow(current, total, lastButton);
             0 <= i < |w| - 1 && w[i].Page? && w[i + 1].Page?
    ensures var w := PageWindow(current, total, lastButton);
            w[i + 1].n == w[i].n + 1
  {
    var start := WindowStart(current);
    var end := WindowEnd(current, total, lastButton);
    var lead: seq<Item> := if start > 2 then [Ellipsis] else [];
    var trail: seq<Item> := if end < total - 1 then [Ellipsis] else [];
    var last: seq<Item> := if lastButton && total > 1 then [Page(total)] else [];
    var w := PageWindow(current, total, lastButton);
    var mid := Pages(start, end);
    assert w == [Page(1)] + lead + mid + trail + last;
    var off := 1 + |lead|;
    if i + 1 < off + |mid| {
      if i >= off {
        assert w[i] == mid[i - off] && w[i + 1] == mid[i + 1 - off];
      } else {
        assert lead == [] && w[i + 1] == mid[0];
      }
    } else if i >= off && i < off + |mid| {
      assert w[i] == mid[i - off];
      assert trail == [] && last != [] && w[i + 1] == Page(total);
    } else {
      assert i == 0 && lead == [] && mid == [] && trail == [];
    }
  }

  /**
   * For a current page in range, an ellipsis never opens the window and
   * stands for at least one skipped page: the button before it and the one
   * after it, if any, are not consecutive.
   */
  lemma EllipsisMarksGap(current: int, total: int, lastButton: bool, i: int)
    requires 1 <= current <= total
    requires var w := PageWindow(current, total, lastButton);
             0 <= i < |w| && w[i].Ellipsis?
    ensures var w := PageWindow(current, total, lastButton);
            i >= 1 && w[i - 1].Page? &&
            (i + 1 < |w| ==> w[i + 1].Page? && w[i + 1].n >= w[i - 1].n + 2)
  {
    var start := WindowStart(current);
    var end := WindowEnd(current, total, lastButton);
    var lead: seq<Item> := if start > 2 then [Ellipsis] else [];
    var trail: seq<Item> := if end < total - 1 then [Ellipsis] else [];
    var last: seq<Item> := if lastButton && total > 1 then [Page(total)] else [];
    var w := PageWindow(current, total, lastButton);
    var mid := Pages(start, end);
    assert w == [Page(1)] + lead + mid + trail + last;
    assert start <= end;
    var off := 1 + |lead|;
    if i < off {
      assert i == 1 && lead == [Ellipsis] && w[2] == mid[0];
    } else {
      assert i == off + |mid| && w[i - 1] == mid[|mid| - 1];
      if i + 1 < |w| {
        assert w[i + 1] == Page(total);
      }
    }
  }
}
