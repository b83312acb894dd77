/** Pure arithmetic behind the circular carousel: padding of the item list,
    page-indicator count, page derivation from an offset, the boundary rewrite
    of the offset and the auto-advance target.

    Offsets and widths are exact reals standing in for CGFloat. */
module CarouselPaging {

  /** An opaque item supplied by the host (an image URL or an image name). */
  type Item = string

  // ---------------------------------------------------------------------------
  // Rounding as the controller uses it
  // ---------------------------------------------------------------------------

  /** `round` on CGFloat: to the nearest integer, halves away from zero. */
  function Round(x: real): (r: int)
    ensures x >= 0.0 ==> 0 <= r && r as real <= x + 0.5 < r as real + 1.0
    ensures x < 0.0 ==> r <= 0 && r as real - 1.0 < x - 0.5 <= r as real
  {
    if x >= 0.0 then (x + 0.5).Floor else -((-x + 0.5).Floor)
  }

  /** `Int(_)` applied to a CGFloat: drops the fraction, toward zero. */
  function Trunc(x: real): (r: int)
    ensures x >= 0.0 ==> 0 <= r && r as real <= x < r as real + 1.0
    ensures x < 0.0 ==> r <= 0 && r as real - 1.0 < x <= r as real
  {
    if x >= 0.0 then x.Floor else -((-x).Floor)
  }

  lemma RoundOfInteger(k: int)
    ensures Round(k as real) == k
  {
  }

  /** Integer page positions divide back exactly. */
  lemma PageMultipleDivides(k: int, w: real)
    requires w > 0.0
    ensures (k as real * w) / w == k as real
  {
  }

  // ---------------------------------------------------------------------------
  // Padding (setUpDataForCircularCarouselCollectionView)
  // ---------------------------------------------------------------------------

  /** The list the collection view shows: with circular scrolling and at least
      one item, a copy of the last item in front and a copy of the first item
      at the back; otherwise the list itself. */
  function Pad(items: seq<Item>, circular: bool): (padded: seq<Item>)
    ensures circular && |items| > 0 ==>
      |padded| == |items| + 2 &&
      padded[0] == items[|items| - 1] &&
      padded[1..|items| + 1] == items &&
      padded[|items| + 1] == items[0]
    ensures !(circular && |items| > 0) ==> padded == items
  {
    if circular && |items| > 0 then [items[|items| - 1]] + items + [items[0]]
    else items
  }

  /** Where logical item `i` sits in the padded list. */
  function PaddedIndex(i: nat, circular: bool): (p: nat)
  {
    if circular then i + 1 else i
  }

  /** Which logical item a padded position shows, for `n` logical items:
      in circular mode positions wrap modulo `n` (position 0 is item n-1,
      position n+1 is item 0). */
  function LogicalIndex(p: nat, n: nat, circular: bool): (i: int)
    requires n > 0
    ensures circular ==> 0 <= i < n
    ensures circular && 0 < p <= n ==> i == p - 1
  {
    if circular then (p - 1) % n else p
  }

  lemma LogicalOfPadded(i: nat, n: nat, circular: bool)
    requires i < n
    ensures LogicalIndex(PaddedIndex(i, circular), n, circular) == i
  {
  }

  /** Position 0 wraps to the last item, position n+1 to the first, and the
      positions in between to one less. */
  lemma LogicalIndexWraps(p: nat, n: nat)
    requires n > 0 && p < n + 2
    ensures LogicalIndex(p, n, true) == if p == 0 then n - 1 else if p == n + 1 then 0 else p - 1
  {
    if p == 0 {
      assert -1 == (-1) * n + (n - 1);
    } else if p == n + 1 {
      assert p - 1 == 1 * n + 0;
    } else {
      assert p - 1 == 0 * n + (p - 1);
    }
  }

  /** Every logical item appears at its padded index. */
  lemma PadPlacesItems(items: seq<Item>, circular: bool)
    ensures forall i :: 0 <= i < |items| ==>
      PaddedIndex(i, circular) < |Pad(items, circular)| &&
      Pad(items, circular)[PaddedIndex(i, circular)] == items[i]
  {
    var n := |items|;
    var padded := Pad(items, circular);
    if circular && n > 0 {
      forall i | 0 <= i < n
        ensures padded[PaddedIndex(i, circular)] == items[i]
      {
        assert padded[i + 1] == padded[1..n + 1][i];
      }
    }
  }

  /** Every padded position shows the logical item its index wraps to. */
  lemma PadShowsWrappedItem(items: seq<Item>, circular: bool, p: nat)
    requires |items| > 0 && p < |Pad(items, circular)|
    ensures 0 <= LogicalIndex(p, |items|, circular) < |items|
    ensures Pad(items, circular)[p] == items[LogicalIndex(p, |items|, circular)]
  {
    var n := |items|;
    var padded := Pad(items, circular);
    if circular {
      LogicalIndexWraps(p, n);
      if 0 < p <= n {
        assert padded[p] == padded[1..n + 1][p - 1];
      }
    }
  }

  /** The two duplicates repeat the real item `n` positions away, which is
      what lets a rewrite by `n` pages look seamless. */
  lemma PadSeam(items: seq<Item>)
    requires |items| > 0
    ensures Pad(items, true)[0] == Pad(items, true)[|items|]
    ensures Pad(items, true)[|items| + 1] == Pad(items, true)[1]
  {
    var n := |items|;
    var padded := Pad(items, true);
    assert padded[n] == padded[1..n + 1][n - 1];
    assert padded[1] == padded[1..n + 1][0];
  }

  // ---------------------------------------------------------------------------
  // Page-indicator count (setUpPageControl)
  // ---------------------------------------------------------------------------

  /** numberOfPages for a shown list of `paddedLen` items. */
  function PageCount(paddedLen: int, circular: bool): (pages: int)
  {
    if circular then paddedLen - 2 else paddedLen
  }

  /** The indicator counts exactly the logical items, in either mode. */
  lemma PageCountOfPad(items: seq<Item>, circular: bool)
    requires |items| > 0
    ensures PageCount(|Pad(items, circular)|, circular) == |items|
  {
  }

  // ---------------------------------------------------------------------------
  // Page derivation (checkPage)
  // ---------------------------------------------------------------------------

  /** The page checkPage writes for horizontal offset `x`, page width `w` and a
      shown list of `count` items. In circular mode one page is subtracted for
      the leading duplicate; a negative result is the leading duplicate itself
      and is reported as `count - 3`. */
  function PageFor(x: real, w: real, circular: bool, count: int): (page: int)
    requires w > 0.0
    ensures circular && count >= 3 ==> page >= 0
    ensures !circular && x >= 0.0 ==> page >= 0
  {
    if !circular then Round(x / w)
    else
      var raw := Round(x / w - 1.0);
      if raw >= 0 then raw else count - 3
  }

  /** On an exact page position `k * w` the page is `k`, one less in circular
      mode, and the wrap value at or before the leading duplicate. */
  lemma {:induction false} PageAtMultiple(k: int, w: real, count: int)
    requires w > 0.0
    ensures PageFor(k as real * w, w, false, count) == k
    ensures PageFor(k as real * w, w, true, count) == if k >= 1 then k - 1 else count - 3
  {
    PageMultipleDivides(k, w);
    RoundOfInteger(k);
    RoundOfInteger(k - 1);
  }

  /** The starting offset (one page width) is logical page 0. */
  lemma StartingOffsetIsFirstPage(w: real, count: int)
    requires w > 0.0
    ensures PageFor(w, w, true, count) == 0
  {
    PageAtMultiple(1, w, count);
  }

  /** Over the leading duplicate the wrap value is the last logical index. */
  lemma WrapPageIsLastLogical(items: seq<Item>, w: real)
    requires |items| > 0 && w > 0.0
    ensures PageFor(0.0, w, true, |Pad(items, true)|) == |items| - 1
  {
    PageAtMultiple(0, w, |Pad(items, true)|);
  }

  /** Scaling by a positive page width keeps the order of offsets. */
  lemma ScaleOrder(a: real, b: real, w: real)
    requires w > 0.0
    ensures a <= b <==> a * w <= b * w
    ensures a < b <==> a * w < b * w
  {
    assert b * w - a * w == (b - a) * w;
    if a < b {
      assert (b - a) * w > 0.0;
    } else if a == b {
    } else {
      assert (a - b) * w > 0.0;
    }
  }

  /** Comparing an offset with a whole number of page widths is comparing
      the page ratio with that number. */
  lemma RatioOrder(x: real, c: real, w: real)
    requires w > 0.0
    ensures c * w <= x <==> c <= x / w
    ensures c * w < x <==> c < x / w
    ensures x <= c * w <==> x / w <= c
    ensures x < c * w <==> x / w < c
  {
    assert x == (x / w) * w;
    ScaleOrder(c, x / w, w);
    ScaleOrder(x / w, c, w);
  }

  /** Any offset over the padded content in circular mode gives a page in
      [0, n]; the value n (one past the last logical page) is written exactly
      when the offset is at least half-way over the trailing duplicate. */
  lemma CircularPageRange(n: int, x: real, w: real)
    requires n > 0 && w > 0.0
    requires 0.0 <= x <= w * (n + 1) as real
    ensures 0 <= PageFor(x, w, true, n + 2) <= n
    ensures PageFor(x, w, true, n + 2) == n <==> x >= w * (n as real + 0.5)
  {
    RatioOrder(x, (n + 1) as real, w);
    RatioOrder(x, 0.0, w);
    RatioOrder(x, n as real + 0.5, w);
  }

  /** In non-circular mode any offset over the content gives a page of it. */
  lemma LinearPageRange(count: int, x: real, w: real)
    requires count > 0 && w > 0.0
    requires 0.0 <= x <= w * (count - 1) as real
    ensures 0 <= PageFor(x, w, false, count) <= count - 1
  {
    RatioOrder(x, (count - 1) as real, w);
  }

  // ---------------------------------------------------------------------------
  // Boundary rewrite (checkContentOffsetXForCiruclarCarouselLogic)
  // ---------------------------------------------------------------------------

  /** The rewrite with an explicit previous offset `last`: over or before the
      leading duplicate while moving back, jump forward by the span of the real
      pages; past that span while moving forward, jump back by it. */
  function CorrectFrom(x: real, last: real, w: real, count: int): (y: real)
    ensures y == x || y == x + w * (count - 2) as real || y == x - w * (count - 2) as real
  {
    var span := w * (count - 2) as real;
    if x < w && last > x then x + span
    else if x > span && last < x then x - span
    else x
  }

  /** The rewrite as the controller runs it: only in circular mode, and with
      the previous offset a local that is 0 on every call. */
  function Correct(x: real, w: real, count: int, circular: bool): (y: real)
    ensures !circular ==> y == x
    ensures y == x || y == x + w * (count - 2) as real || y == x - w * (count - 2) as real
  {
    if circular then CorrectFrom(x, 0.0, w, count) else x
  }

  /** With the previous offset fixed at 0, negative offsets move forward by
      the span, offsets past the span move back by it, and everything in
      between, the leading duplicate at [0, w) included, stays put. */
  lemma RewriteAsWritten(x: real, w: real, count: int)
    requires w > 0.0 && count >= 2
    ensures var span := w * (count - 2) as real;
      Correct(x, w, count, true) ==
        if x < 0.0 then x + span
        else if x > span then x - span
        else x
  {
    assert w * (count - 2) as real >= 0.0;
  }

  /** Non-circular mode never rewrites. */
  lemma NoRewriteWhenLinear(x: real, w: real, count: int)
    ensures Correct(x, w, count, false) == x
  {
  }

  /** The trailing duplicate (page n+1) is rewritten to the first real page. */
  lemma TrailingDuplicateRewritesToFirst(n: int, w: real)
    requires n > 0 && w > 0.0
    ensures Correct(w * (n + 1) as real, w, n + 2, true) == w
  {
    RewriteAsWritten(w * (n + 1) as real, w, n + 2);
    assert w * (n + 1) as real > w * n as real;
  }

  /** At every page position of the padded list, the rewrite lands on a page
      position that shows the same item. */
  lemma RewriteShowsSameItem(items: seq<Item>, w: real, k: int)
    requires |items| > 0 && w > 0.0
    requires 0 <= k < |items| + 2
    ensures var padded := Pad(items, true);
      exists j :: 0 <= j < |padded| &&
        Correct(k as real * w, w, |padded|, true) == j as real * w &&
        padded[j] == padded[k]
  {
    var n := |items|;
    var padded := Pad(items, true);
    RewriteAsWritten(k as real * w, w, n + 2);
    if k == n + 1 {
      TrailingDuplicateRewritesToFirst(n, w);
      PadSeam(items);
      assert 1 as real * w == w;
      assert Correct(k as real * w, w, |padded|, true) == 1 as real * w && padded[1] == padded[k];
    } else {
      assert k as real * w <= n as real * w;
      assert Correct(k as real * w, w, |padded|, true) == k as real * w;
    }
  }

  /** Dragging back past the leading duplicate (a negative offset, less than a
      page) jumps forward by the n real pages, to the same spot before the
      last real item's second copy: the item at page 0 and page n is the same. */
  lemma BackwardRewriteAcrossSeam(items: seq<Item>, w: real, x: real)
    requires |items| > 0 && w > 0.0
    requires -w < x < 0.0
    ensures Correct(x, w, |items| + 2, true) == x + w * |items| as real
    ensures Pad(items, true)[|items|] == Pad(items, true)[0]
  {
    RewriteAsWritten(x, w, |items| + 2);
    PadSeam(items);
  }

  /** Dragging forward past the last real page (over the stretch between page
      n and the trailing duplicate at page n+1) jumps back by the n real pages,
      to the same spot between page 0 and page 1, which show the same items. */
  lemma ForwardRewriteAcrossSeam(items: seq<Item>, w: real, x: real)
    requires |items| > 0 && w > 0.0
    requires w * |items| as real < x <= w * (|items| + 1) as real
    ensures Correct(x, w, |items| + 2, true) == x - w * |items| as real
    ensures Pad(items, true)[0] == Pad(items, true)[|items|]
    ensures Pad(items, true)[1] == Pad(items, true)[|items| + 1]
  {
    RewriteAsWritten(x, w, |items| + 2);
    PadSeam(items);
  }

  /** Offsets from the leading duplicate up to the last real page are never
      rewritten. */
  lemma NoRewriteOverRealPages(n: int, w: real, x: real)
    requires n > 0 && w > 0.0
    requires 0.0 <= x <= w * n as real
    ensures Correct(x, w, n + 2, true) == x
  {
    RewriteAsWritten(x, w, n + 2);
  }

  /** Within one span either side of the real pages a rewritten offset is not
      rewritten again. */
  lemma RewriteSettles(x: real, w: real, n: int)
    requires n > 0 && w > 0.0
    requires -(w * n as real) <= x <= 2.0 * (w * n as real)
    ensures Correct(Correct(x, w, n + 2, true), w, n + 2, true) == Correct(x, w, n + 2, true)
  {
    RewriteAsWritten(x, w, n + 2);
    RewriteAsWritten(Correct(x, w, n + 2, true), w, n + 2);
  }

  // ---------------------------------------------------------------------------
  // Auto-advance (nextItem)
  // ---------------------------------------------------------------------------

  /** The offset nextItem targets: one page further on. */
  function NextTarget(x: real, w: real): (target: real)
    requires w > 0.0
    ensures target == x + w
  {
    w * (x / w + 1.0)
  }

  /** The non-circular guard of nextItem: the truncated next page must still be
      a page of the `count` shown items. */
  function AdvanceAllowed(x: real, w: real, count: int): (allowed: bool)
    requires w > 0.0
  {
    Trunc(x / w + 1.0) <= count - 1
  }

  /** From a non-negative offset, the non-circular advance is allowed exactly
      while the offset is before the start of the last page. */
  lemma AdvanceAllowedIff(x: real, w: real, count: int)
    requires w > 0.0 && x >= 0.0
    ensures AdvanceAllowed(x, w, count) <==> x < w * (count - 1) as real
  {
    RatioOrder(x, (count - 1) as real, w);
  }

  /** On page k of a non-circular carousel the advance goes to page k+1 when
      there is one, and is suppressed on the last page and beyond. */
  lemma LinearAdvanceFromPage(k: int, w: real, count: int)
    requires w > 0.0 && k >= 0
    ensures AdvanceAllowed(k as real * w, w, count) <==> k < count - 1
    ensures NextTarget(k as real * w, w) == (k + 1) as real * w
  {
    PageMultipleDivides(k, w);
  }
}
