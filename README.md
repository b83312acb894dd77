# Circular carousel controller, modelled in Dafny

This project models the paging core of `MILCarouselCollectionViewController`, a
horizontally paged, auto-advancing image carousel. To make paging look endless,
the controller pads its item list in circular mode. It puts a copy of the last
item in front and a copy of the first item at the back. It then works out the
logical page from the scroll offset and moves the offset across the seam when it
runs onto a duplicate. A repeating timer moves the carousel one page further on.
The timer restarts each time the carousel scrolls.

Two modules:

- `CarouselPaging` (`carousel_paging.dfy`) holds the pure arithmetic as
  functions, with lemmas about it:
  - `Pad` builds the padded list.
  - `PageCount` gives the number of indicator dots.
  - `PageFor` gives the page `checkPage` writes.
  - `CorrectFrom` and `Correct` give the boundary rewrite.
  - `NextTarget` and `AdvanceAllowed` give the auto-advance target and guard.
  - `Round` is Swift's `round` (halves away from zero). `Trunc` is `Int(_)` on a
    CGFloat, which truncates toward zero.
- `CarouselController` (`carousel_controller.dfy`) holds the class `Controller`.
  Its fields match the view controller's state: `dataArray` and the two mode
  flags; the timer (`hasTimer` for a non-nil reference, `timerScheduled` for a
  timer that is not invalidated, and `timerPeriod`); the page control
  (`hasPageControl`, `numberOfPages`, `currentPage`); `finishedSetup`; and the
  content offset `offsetX`/`offsetY`. Each method updates only the fields in its
  `modifies` frame. Its `ensures` give the new state in terms of the old state
  and the functions above. `FourItemScenario` is a client method. It replays
  the example host's four-URL refresh, then a drag, then a timer advance onto
  the trailing duplicate and the rewrite that follows.

Offsets are exact `real` numbers. The page width, which is the collection
view's frame width, is a positive constant of the object.

The model follows the code as written. Some consequences a reader might not
expect:

- `refresh` does not reset the scroll offset. Only the first layout pass sets
  the starting offset.
- The boundary rewrite compares against a previous offset that is a local set
  to 0 on every call. So the "moving back" branch fires only for negative
  offsets. The "moving forward" branch fires for any offset past the span of the
  real pages. The leading duplicate, at offsets in [0, w), is never rewritten.
- `scrollViewDidScroll` derives the page from the offset before the rewrite,
  and only then rewrites.
- In non-circular mode the page is `round(offset / w)` with no clamping. Over
  the trailing duplicate, circular mode writes page n, one past the last
  logical page (`CircularPageRange`).
- Padding does not check whether a list is already padded. `Refresh` always
  pads the list it is given, never the old padded list.
- The mode setters may be called at any time, also after data has loaded.

## Model

| member | source | states |
|---|---|---|
| `CarouselPaging.Round` | MILCarouselCollectionView/MILCarouselCollectionViewController.swift:395-399 | the result is the integer nearest to x, with halves rounded away from zero on both sides of 0 |
| `CarouselPaging.Trunc` | MILCarouselCollectionView/MILCarouselCollectionViewController.swift:260 | the result is x with its fraction dropped toward zero |
| `CarouselPaging.Pad` | MILCarouselCollectionView/MILCarouselCollectionViewController.swift:130-147 | in circular mode with n > 0 items: length n+2, element 0 is the last item, elements 1..n are the items in order, element n+1 is the first item; otherwise (circular off, or no items) the list is returned unchanged |
| `CarouselPaging.LogicalOfPadded` | MILCarouselCollectionView/MILCarouselCollectionViewController.swift:137-144 | the wrap-around logical index of the padded index of logical item i is i again |
| `CarouselPaging.PadPlacesItems` | MILCarouselCollectionView/MILCarouselCollectionViewController.swift:137-144 | every logical item i appears in the padded list at index i+1 (circular) or i (linear) |
| `CarouselPaging.PadShowsWrappedItem` | MILCarouselCollectionView/MILCarouselCollectionViewController.swift:137-144 | every padded position p shows logical item (p-1) mod n in circular mode, p otherwise |
| `CarouselPaging.PaddedIndex` | MILCarouselCollectionView/MILCarouselCollectionViewController.swift:137-144 | logical item i sits at padded index i+1 in circular mode and i otherwise; its behaviour is stated by `PadPlacesItems` and `LogicalOfPadded` |
| `CarouselPaging.LogicalIndex` | MILCarouselCollectionView/MILCarouselCollectionViewController.swift:137-144 | in circular mode every padded position maps to a valid logical index, and positions 1..n map to one less; with `PadShowsWrappedItem` each position shows the item it maps to |
| `CarouselPaging.PadSeam` | MILCarouselCollectionView/MILCarouselCollectionViewController.swift:138-142 | the leading duplicate equals padded position n and the trailing duplicate equals padded position 1 |
| `CarouselPaging.PageCount` | MILCarouselCollectionView/MILCarouselCollectionViewController.swift:182-187 | the indicator's page count for a shown list: two fewer in circular mode; `PageCountOfPad` states that this is the logical length |
| `CarouselPaging.PageCountOfPad` | MILCarouselCollectionView/MILCarouselCollectionViewController.swift:182-187 | for a non-empty list, the indicator's page count of its padding is its own length, in both modes |
| `CarouselPaging.PageFor` | MILCarouselCollectionView/MILCarouselCollectionViewController.swift:388-416 | the page is never negative in circular mode with at least three shown items, nor in linear mode for a non-negative offset; `PageAtMultiple`, `CircularPageRange` and `LinearPageRange` state its values |
| `CarouselPaging.PageAtMultiple` | MILCarouselCollectionView/MILCarouselCollectionViewController.swift:390-415 | at offset k·w the page is k in linear mode; in circular mode it is k-1 for k ≥ 1 and count-3 for k ≤ 0 |
| `CarouselPaging.StartingOffsetIsFirstPage` | MILCarouselCollectionView/MILCarouselCollectionViewController.swift:200-204 | at the starting offset w, the circular page is 0 |
| `CarouselPaging.WrapPageIsLastLogical` | MILCarouselCollectionView/MILCarouselCollectionViewController.swift:408-412 | over the leading duplicate (offset 0) the circular page is n-1, the last logical index |
| `CarouselPaging.CircularPageRange` | MILCarouselCollectionView/MILCarouselCollectionViewController.swift:399-412 | for any offset in [0, w·(n+1)] the circular page is in [0, n], and it is n exactly when the offset is at least w·(n+½) |
| `CarouselPaging.LinearPageRange` | MILCarouselCollectionView/MILCarouselCollectionViewController.swift:394-396 | for any offset in [0, w·(count-1)] the linear page is a valid page index |
| `CarouselPaging.CorrectFrom` | MILCarouselCollectionView/MILCarouselCollectionViewController.swift:359-378 | for any previous offset, the rewritten offset is the offset itself or the offset moved by the span w·(count-2), one way or the other |
| `CarouselPaging.Correct` | MILCarouselCollectionView/MILCarouselCollectionViewController.swift:357-379 | linear mode keeps the offset; otherwise the offset is kept or moved by exactly the span; `RewriteAsWritten` gives which case applies |
| `CarouselPaging.RewriteAsWritten` | MILCarouselCollectionView/MILCarouselCollectionViewController.swift:359-378 | with the previous offset fixed at 0 and span = w·(count-2): a negative offset gains the span, an offset above the span loses it, any other offset is kept |
| `CarouselPaging.NoRewriteWhenLinear` | MILCarouselCollectionView/MILCarouselCollectionViewController.swift:357 | in non-circular mode the offset is never rewritten |
| `CarouselPaging.TrailingDuplicateRewritesToFirst` | MILCarouselCollectionView/MILCarouselCollectionViewController.swift:372-374 | the trailing duplicate's offset w·(n+1) is rewritten to w, the first real page |
| `CarouselPaging.RewriteShowsSameItem` | MILCarouselCollectionView/MILCarouselCollectionViewController.swift:366-375 | from every page position of the padded list, the rewrite lands on a page position that shows the same item |
| `CarouselPaging.BackwardRewriteAcrossSeam` | MILCarouselCollectionView/MILCarouselCollectionViewController.swift:368-370 | an offset between -w and 0 (dragged back past the leading duplicate) moves forward by exactly n pages, and the padded items at page 0 and page n are the same, so the view shows the same content |
| `CarouselPaging.ForwardRewriteAcrossSeam` | MILCarouselCollectionView/MILCarouselCollectionViewController.swift:372-374 | an offset in (w·n, w·(n+1)] (dragged past the last real page onto the trailing duplicate) moves back by exactly n pages, and the padded items at pages 0, 1 equal those at pages n, n+1, so the view shows the same content |
| `CarouselPaging.NoRewriteOverRealPages` | MILCarouselCollectionView/MILCarouselCollectionViewController.swift:376-378 | every offset in [0, w·n], from the leading duplicate to the last real page, is left as it is |
| `CarouselPaging.RewriteSettles` | MILCarouselCollectionView/MILCarouselCollectionViewController.swift:366-378 | for offsets within one span either side of the real pages, rewriting a rewritten offset changes nothing |
| `CarouselPaging.NextTarget` | MILCarouselCollectionView/MILCarouselCollectionViewController.swift:249-255 | the advance target w·(x/w + 1) is exactly x + w |
| `CarouselPaging.AdvanceAllowed` | MILCarouselCollectionView/MILCarouselCollectionViewController.swift:260 | the non-circular guard `Int(x/w + 1) <= count - 1`; `AdvanceAllowedIff` and `LinearAdvanceFromPage` state when it passes |
| `CarouselPaging.AdvanceAllowedIff` | MILCarouselCollectionView/MILCarouselCollectionViewController.swift:258-262 | from a non-negative offset, the non-circular guard passes if and only if the offset is before the start of the last page |
| `CarouselPaging.LinearAdvanceFromPage` | MILCarouselCollectionView/MILCarouselCollectionViewController.swift:253-262 | on page k, the non-circular advance is allowed if and only if k < count-1, and its target is page k+1 |
| `CarouselController.Controller.constructor` | MILCarouselCollectionView/MILCarouselCollectionViewController.swift:11-50 | a new controller has no items, both modes on, a 4 s interval, no timer, no page control, setup not done, offset at the origin |
| `CarouselController.Controller.ViewDidLoad` | MILCarouselCollectionView/MILCarouselCollectionViewController.swift:56-63 | the timer runs if and only if auto-scrolling is on; an empty list becomes the padded placeholder list |
| `CarouselController.Controller.ViewDidLayoutSubviews` | MILCarouselCollectionView/MILCarouselCollectionViewController.swift:69-79 | only the first pass, and only in circular mode, moves the offset to (w, 0); afterwards setup is done |
| `CarouselController.Controller.ViewDidDisappear` | MILCarouselCollectionView/MILCarouselCollectionViewController.swift:87-89 | no timer is scheduled afterwards |
| `CarouselController.Controller.SetUpPlaceHolderItem` | MILCarouselCollectionView/MILCarouselCollectionViewController.swift:95-100 | an empty list becomes `[""]` padded (`["","",""]` in circular mode); a non-empty list is untouched |
| `CarouselController.Controller.Refresh` | MILCarouselCollectionView/MILCarouselCollectionViewController.swift:108-116 | an empty argument changes no data, page control or timer state; otherwise the list becomes the padding of the new list, the page count becomes its length, the current page becomes 0, and the timer runs if and only if auto-scrolling is on |
| `CarouselController.Controller.SetUpDataForCircularCarouselCollectionView` | MILCarouselCollectionView/MILCarouselCollectionViewController.swift:130-147 | the list becomes the padding of the old list |
| `CarouselController.Controller.SetUpPageControl` | MILCarouselCollectionView/MILCarouselCollectionViewController.swift:176-194 | the page control exists, its page count is the shown length less the two duplicates in circular mode, and its current page is 0 |
| `CarouselController.Controller.SetCollectionViewStartingOffset` | MILCarouselCollectionView/MILCarouselCollectionViewController.swift:200-205 | in circular mode the offset becomes (w, 0); otherwise it is unchanged |
| `CarouselController.Controller.DisableCircularScrolling` | MILCarouselCollectionView/MILCarouselCollectionViewController.swift:279-283 | circular scrolling is off; nothing else changes |
| `CarouselController.Controller.DisableAutoScrolling` | MILCarouselCollectionView/MILCarouselCollectionViewController.swift:289-293 | auto-scrolling is off; nothing else changes |
| `CarouselController.Controller.SetAutoScrollTimerDuration` | MILCarouselCollectionView/MILCarouselCollectionViewController.swift:300-302 | the interval becomes the given duration; nothing else changes |
| `CarouselController.Controller.NextItem` | MILCarouselCollectionView/MILCarouselCollectionViewController.swift:247-273 | in circular mode, or when the non-circular guard passes, the offset becomes (x + w, 0); otherwise it is unchanged; then the timer runs if and only if auto-scrolling is on |
| `CarouselController.Controller.StartTimer` | MILCarouselCollectionView/MILCarouselCollectionViewController.swift:308-312 | with auto-scrolling on, a timer with the configured interval is scheduled; otherwise nothing changes |
| `CarouselController.Controller.ResetTimer` | MILCarouselCollectionView/MILCarouselCollectionViewController.swift:318-321 | afterwards a timer is scheduled if and only if auto-scrolling is on, with the configured interval |
| `CarouselController.Controller.StopTimer` | MILCarouselCollectionView/MILCarouselCollectionViewController.swift:327-331 | no timer is scheduled afterwards; with no timer nothing happens; the timer reference is kept |
| `CarouselController.Controller.ScrollViewDidScroll` | MILCarouselCollectionView/MILCarouselCollectionViewController.swift:339-347 | before setup nothing changes; afterwards the timer is reset, the page is derived from the offset before the rewrite, and the offset becomes its rewrite |
| `CarouselController.Controller.CheckContentOffsetXForCircularCarouselLogic` | MILCarouselCollectionView/MILCarouselCollectionViewController.swift:355-380 | the horizontal offset becomes its boundary rewrite (none in linear mode); the vertical offset is outside the frame, so it does not change |
| `CarouselController.Controller.CheckPage` | MILCarouselCollectionView/MILCarouselCollectionViewController.swift:388-416 | when a page control exists, its current page becomes the page derived from the offset; otherwise nothing changes |
| `CarouselController.FourItemScenario` | Example/MILCarouselCollectionViewExample/MILCarouselCollectionViewExample/ViewController.swift:78-108 | four items at width 320: after refresh the list is padded to six, there are 4 pages and page 0; an empty refresh changes nothing; offset 640 gives page 1; the advance from 1280 targets 1600, which writes page 4 and is rewritten to 320; the next scroll callback gives page 0 |

## Left out

- Image fetching, caching and cell population are not modelled. This covers the
  URL download and cache, the SDWebImage path, local image names, the three
  `setToHandle…` mode setters and the cell data-source methods. They are network
  I/O, asynchronous completion handlers and UIKit cells.
- UIKit plumbing is not modelled: collection-view and nib setup, the page
  control's frame and subview calls, `reloadData`, `numberOfSections`,
  `numberOfItemsInSection`, `didReceiveMemoryWarning`, the unused `currentIndex`
  and the placeholder image name.
- `NSTimer` scheduling and run-loop firing are not modelled. The timer is a pair
  of flags and its period. The host calls `NextItem` when the timer would fire.
- Animated `setContentOffset` is not modelled. The model records only the final
  offset, not the scroll callbacks during the animation.
- UIKit calls `scrollViewDidScroll` again from inside the method when the
  controller writes the offset. In the model the host makes that call
  explicitly, as `FourItemScenario` does after the rewrite.
- `UIPageControl` pins `currentPage` to [0, numberOfPages-1]. The model keeps
  the value the controller writes.
- CGFloat is floating point; offsets here are exact reals. A zero page width
  would make the source divide by zero and trap in `Int(_)`. The model requires
  a positive width.
- The page width is fixed per object. Resizing and rotation are not modelled.
- ScrollViewDidScroll: in non-circular mode, `checkPage` writes through the
  implicitly unwrapped page control without a nil check. Before the first
  `refresh` that traps. The model turns this into a precondition instead of
  modelling the crash.
- CheckPage: the same precondition, for the same reason.
- StartTimer: it requires that no timer is scheduled. Its only caller,
  `resetTimer`, stops the timer first, so a second live timer that is never
  invalidated is not modelled.
- The example host screen and the flow layout are not part of this model.
  `FourItemScenario` replays only the host's four-URL refresh.
