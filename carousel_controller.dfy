/** The carousel view controller as a state machine: the shown item list, the
    page indicator, the scroll offset, the auto-scroll timer and the
    first-layout flag, updated in place by the controller's methods. */
module CarouselController {
  import opened CarouselPaging

  /** The placeholder item shown while no data has arrived. */
  const PlaceHolderItem: Item := ""

  /** The default auto-scroll period, in seconds. */
  const DefaultTimerInterval: real := 4.0

  class Controller {
    /** The items the collection view shows (padded in circular mode). */
    var dataArray: seq<Item>

    var circularScrollingEnabled: bool
    var autoScrollingEnabled: bool
    var timerInterval: real

    /** The timer reference is non-nil. */
    var hasTimer: bool
    /** The referenced timer is scheduled and not invalidated. */
    var timerScheduled: bool
    /** The period the current timer was scheduled with. */
    var timerPeriod: real

    /** The page control has been created (it is nil before the first refresh). */
    var hasPageControl: bool
    var numberOfPages: int
    var currentPage: int

    /** The first layout pass has run. */
    var finishedSetup: bool

    /** The collection view's contentOffset. */
    var offsetX: real
    var offsetY: real

    /** The collection view's frame width, which is also the page width. */
    const pageWidth: real

    ghost predicate Valid()
      reads this
    {
      pageWidth > 0.0 && (timerScheduled ==> hasTimer)
    }

    /** A freshly created controller: no data, both modes on, no timer, no
        page control, not laid out, offset at the origin. */
    constructor (width: real)
      requires width > 0.0
      ensures Valid() && pageWidth == width
      ensures dataArray == []
      ensures circularScrollingEnabled && autoScrollingEnabled
      ensures timerInterval == DefaultTimerInterval
      ensures !hasTimer && !timerScheduled
      ensures !hasPageControl && !finishedSetup
      ensures offsetX == 0.0 && offsetY == 0.0
    {
      dataArray := [];
      circularScrollingEnabled := true;
      autoScrollingEnabled := true;
      timerInterval := DefaultTimerInterval;
      hasTimer := false;
      timerScheduled := false;
      timerPeriod := 0.0;
      hasPageControl := false;
      numberOfPages := 0;
      currentPage := 0;
      finishedSetup := false;
      offsetX := 0.0;
      offsetY := 0.0;
      pageWidth := width;
    }

    // -------------------------------------------------------------------------
    // Lifecycle
    // -------------------------------------------------------------------------

    /** Starts the timer protocol and shows the placeholder. */
    method ViewDidLoad()
      requires Valid()
      modifies this`dataArray, this`hasTimer, this`timerScheduled, this`timerPeriod
      ensures Valid()
      ensures timerScheduled == autoScrollingEnabled
      ensures autoScrollingEnabled ==> hasTimer && timerPeriod == timerInterval
      ensures !autoScrollingEnabled ==> hasTimer == old(hasTimer) && timerPeriod == old(timerPeriod)
      ensures dataArray == if |old(dataArray)| == 0 then Pad([PlaceHolderItem], circularScrollingEnabled)
                           else old(dataArray)
    {
      ResetTimer();
      SetUpPlaceHolderItem();
    }

    /** Applies the starting offset on the first layout pass only. */
    method ViewDidLayoutSubviews()
      requires Valid()
      modifies this`finishedSetup, this`offsetX, this`offsetY
      ensures Valid() && finishedSetup
      ensures !old(finishedSetup) && circularScrollingEnabled ==> offsetX == pageWidth && offsetY == 0.0
      ensures old(finishedSetup) || !circularScrollingEnabled ==>
        offsetX == old(offsetX) && offsetY == old(offsetY)
    {
      if !finishedSetup {
        SetCollectionViewStartingOffset();
        finishedSetup := true;
      }
    }

    method ViewDidDisappear()
      requires Valid()
      modifies this`timerScheduled
      ensures Valid() && !timerScheduled
    {
      StopTimer();
    }

    // -------------------------------------------------------------------------
    // Data
    // -------------------------------------------------------------------------

    /** With an empty list, shows one placeholder item (padded in circular
        mode); otherwise leaves the list alone. */
    method SetUpPlaceHolderItem()
      modifies this`dataArray
      ensures |old(dataArray)| == 0 ==> dataArray == Pad([PlaceHolderItem], circularScrollingEnabled)
      ensures |old(dataArray)| != 0 ==> dataArray == old(dataArray)
    {
      if |dataArray| == 0 {
        dataArray := dataArray + [PlaceHolderItem];
        SetUpDataForCircularCarouselCollectionView();
      }
    }

    /** Replaces the items with the padding of the new list, rebuilds the page
        indicator and restarts the timer; an empty list changes nothing. */
    method Refresh(newDataArray: seq<Item>)
      requires Valid()
      modifies this`dataArray, this`hasPageControl, this`numberOfPages, this`currentPage,
               this`hasTimer, this`timerScheduled, this`timerPeriod
      ensures Valid()
      ensures |newDataArray| == 0 ==>
        dataArray == old(dataArray) && hasPageControl == old(hasPageControl) &&
        numberOfPages == old(numberOfPages) && currentPage == old(currentPage) &&
        hasTimer == old(hasTimer) && timerScheduled == old(timerScheduled) &&
        timerPeriod == old(timerPeriod)
      ensures |newDataArray| > 0 ==>
        dataArray == Pad(newDataArray, circularScrollingEnabled) &&
        hasPageControl && numberOfPages == |newDataArray| && currentPage == 0 &&
        timerScheduled == autoScrollingEnabled &&
        (autoScrollingEnabled ==> hasTimer && timerPeriod == timerInterval) &&
        (!autoScrollingEnabled ==> hasTimer == old(hasTimer) && timerPeriod == old(timerPeriod))
    {
      if |newDataArray| > 0 {
        dataArray := newDataArray;
        SetUpDataForCircularCarouselCollectionView();
        SetUpPageControl();
        PageCountOfPad(newDataArray, circularScrollingEnabled);
        ResetTimer();
      }
    }

    /** Pads the current list in circular mode. */
    method SetUpDataForCircularCarouselCollectionView()
      modifies this`dataArray
      ensures dataArray == Pad(old(dataArray), circularScrollingEnabled)
    {
      if circularScrollingEnabled {
        var workingArray := dataArray;
        if |workingArray| > 0 {
          var arraySize := |workingArray|;
          var firstItem := workingArray[0];
          var lastItem := workingArray[arraySize - 1];
          workingArray := [lastItem] + workingArray;
          workingArray := workingArray + [firstItem];
          dataArray := workingArray;
        }
      }
    }

    /** Creates the page indicator: one dot per real item, first dot lit. */
    method SetUpPageControl()
      modifies this`hasPageControl, this`numberOfPages, this`currentPage
      ensures hasPageControl
      ensures numberOfPages == PageCount(|dataArray|, circularScrollingEnabled)
      ensures currentPage == 0
    {
      hasPageControl := true;
      if circularScrollingEnabled {
        numberOfPages := |dataArray| - 2;
      } else {
        numberOfPages := |dataArray|;
      }
      currentPage := 0;
    }

    /** In circular mode, scrolls past the leading duplicate to the first real
        page. */
    method SetCollectionViewStartingOffset()
      modifies this`offsetX, this`offsetY
      ensures circularScrollingEnabled ==> offsetX == pageWidth && offsetY == 0.0
      ensures !circularScrollingEnabled ==> offsetX == old(offsetX) && offsetY == old(offsetY)
    {
      if circularScrollingEnabled {
        offsetX, offsetY := pageWidth, 0.0;
      }
    }

    // -------------------------------------------------------------------------
    // Configuration
    // -------------------------------------------------------------------------

    method DisableCircularScrolling()
      modifies this`circularScrollingEnabled
      ensures !circularScrollingEnabled
    {
      circularScrollingEnabled := false;
    }

    method DisableAutoScrolling()
      modifies this`autoScrollingEnabled
      ensures !autoScrollingEnabled
    {
      autoScrollingEnabled := false;
    }

    method SetAutoScrollTimerDuration(duration: real)
      modifies this`timerInterval
      ensures timerInterval == duration
    {
      timerInterval := duration;
    }

    // -------------------------------------------------------------------------
    // Auto-advance and the timer protocol
    // -------------------------------------------------------------------------

    /** The timer's action: move one page on, unless non-circular mode is
        already on its last page; then restart the timer. */
    method NextItem()
      requires Valid()
      modifies this`offsetX, this`offsetY, this`hasTimer, this`timerScheduled, this`timerPeriod
      ensures Valid()
      ensures circularScrollingEnabled || AdvanceAllowed(old(offsetX), pageWidth, |dataArray|) ==>
        offsetX == old(offsetX) + pageWidth && offsetY == 0.0
      ensures !(circularScrollingEnabled || AdvanceAllowed(old(offsetX), pageWidth, |dataArray|)) ==>
        offsetX == old(offsetX) && offsetY == old(offsetY)
      ensures timerScheduled == autoScrollingEnabled
      ensures autoScrollingEnabled ==> hasTimer && timerPeriod == timerInterval
      ensures !autoScrollingEnabled ==> hasTimer == old(hasTimer) && timerPeriod == old(timerPeriod)
    {
      var contentOffset := offsetX;
      var newOffset := NextTarget(contentOffset, pageWidth);
      if !circularScrollingEnabled {
        if AdvanceAllowed(contentOffset, pageWidth, |dataArray|) {
          offsetX, offsetY := newOffset, 0.0;
        }
      } else {
        offsetX, offsetY := newOffset, 0.0;
      }
      ResetTimer();
    }

    /** Schedules a repeating timer when auto-scrolling is on. Its only caller
        stops the previous timer first. */
    method StartTimer()
      requires Valid() && !timerScheduled
      modifies this`hasTimer, this`timerScheduled, this`timerPeriod
      ensures Valid()
      ensures autoScrollingEnabled ==> hasTimer && timerScheduled && timerPeriod == timerInterval
      ensures !autoScrollingEnabled ==>
        hasTimer == old(hasTimer) && !timerScheduled && timerPeriod == old(timerPeriod)
    {
      if autoScrollingEnabled {
        hasTimer, timerScheduled, timerPeriod := true, true, timerInterval;
      }
    }

    /** Stop, then start: afterwards a timer runs exactly when auto-scrolling
        is on. */
    method ResetTimer()
      requires Valid()
      modifies this`hasTimer, this`timerScheduled, this`timerPeriod
      ensures Valid()
      ensures timerScheduled == autoScrollingEnabled
      ensures autoScrollingEnabled ==> hasTimer && timerPeriod == timerInterval
      ensures !autoScrollingEnabled ==> hasTimer == old(hasTimer) && timerPeriod == old(timerPeriod)
    {
      StopTimer();
      StartTimer();
    }

    /** Invalidates the timer if there is one; without one it does nothing. */
    method StopTimer()
      requires Valid()
      modifies this`timerScheduled
      ensures Valid() && !timerScheduled
    {
      if hasTimer {
        timerScheduled := false;
      }
    }

    // -------------------------------------------------------------------------
    // Scroll handling
    // -------------------------------------------------------------------------

    /** Ignored until the first layout pass; afterwards restarts the timer,
        updates the page indicator from the offset as it arrived, then applies
        the boundary rewrite. The non-circular page update reaches the page
        control without a nil check, so that mode needs it to exist. */
    method ScrollViewDidScroll()
      requires Valid()
      requires finishedSetup && !circularScrollingEnabled ==> hasPageControl
      modifies this`hasTimer, this`timerScheduled, this`timerPeriod, this`currentPage, this`offsetX
      ensures Valid()
      ensures !old(finishedSetup) ==>
        hasTimer == old(hasTimer) && timerScheduled == old(timerScheduled) &&
        timerPeriod == old(timerPeriod) && currentPage == old(currentPage) && offsetX == old(offsetX)
      ensures old(finishedSetup) ==>
        timerScheduled == autoScrollingEnabled &&
        (autoScrollingEnabled ==> hasTimer && timerPeriod == timerInterval) &&
        (!autoScrollingEnabled ==> hasTimer == old(hasTimer) && timerPeriod == old(timerPeriod)) &&
        currentPage == (if hasPageControl then PageFor(old(offsetX), pageWidth, circularScrollingEnabled, |dataArray|)
                        else old(currentPage)) &&
        offsetX == Correct(old(offsetX), pageWidth, |dataArray|, circularScrollingEnabled)
    {
      if finishedSetup {
        ResetTimer();
        CheckPage();
        CheckContentOffsetXForCircularCarouselLogic();
      }
    }

    /** The boundary rewrite of the horizontal offset; the vertical offset is
        written back as it was. */
    method CheckContentOffsetXForCircularCarouselLogic()
      modifies this`offsetX
      ensures offsetX == Correct(old(offsetX), pageWidth, |dataArray|, circularScrollingEnabled)
    {
      if circularScrollingEnabled {
        var lastContentOffsetX: real := 0.0;
        var currentOffsetX := offsetX;
        var offset := pageWidth * (|dataArray| - 2) as real;
        if currentOffsetX < pageWidth && lastContentOffsetX > currentOffsetX {
          lastContentOffsetX := currentOffsetX + offset;
          offsetX := lastContentOffsetX;
        } else if currentOffsetX > offset && lastContentOffsetX < currentOffsetX {
          lastContentOffsetX := currentOffsetX - offset;
          offsetX := lastContentOffsetX;
        } else {
          lastContentOffsetX := currentOffsetX;
        }
      }
    }

    /** Writes the page derived from the current offset into the page control,
        when there is one. */
    method CheckPage()
      requires Valid()
      requires !circularScrollingEnabled ==> hasPageControl
      modifies this`currentPage
      ensures hasPageControl ==>
        currentPage == PageFor(offsetX, pageWidth, circularScrollingEnabled, |dataArray|)
      ensures !hasPageControl ==> currentPage == old(currentPage)
    {
      var currentPageFloat := offsetX / pageWidth;
      if !circularScrollingEnabled {
        currentPage := Round(currentPageFloat);
      } else {
        var currentPageInt := Round(currentPageFloat - 1.0);
        if currentPageInt >= 0 {
          if hasPageControl {
            currentPage := currentPageInt;
          }
        } else {
          if hasPageControl {
            currentPage := |dataArray| - 3;
          }
        }
      }
    }
  }

  /** A host with four items in circular mode and a 320-point page width:
      load, lay out, receive data, drag one page, then let the timer carry the
      carousel from the last real page onto the trailing duplicate, where the
      rewrite brings it back to the first page. */
  method FourItemScenario()
  {
    var red, blue, green, yellow := "red", "blue", "green", "yellow";
    var c := new Controller(320.0);
    c.ViewDidLoad();
    assert c.dataArray == [PlaceHolderItem, PlaceHolderItem, PlaceHolderItem];
    c.ViewDidLayoutSubviews();
    assert c.offsetX == 320.0;

    c.Refresh([red, blue, green, yellow]);
    assert c.dataArray == [yellow, red, blue, green, yellow, red];
    assert c.numberOfPages == 4 && c.currentPage == 0 && c.timerScheduled;

    c.Refresh([]);
    assert c.dataArray == [yellow, red, blue, green, yellow, red];

    c.offsetX := 640.0;
    c.ScrollViewDidScroll();
    PageAtMultiple(2, 320.0, 6);
    assert c.currentPage == 1 && c.offsetX == 640.0;

    c.offsetX := 1280.0;
    c.NextItem();
    assert c.offsetX == 1600.0;

    c.ScrollViewDidScroll();
    PageAtMultiple(5, 320.0, 6);
    assert c.currentPage == 4;
    assert c.offsetX == 320.0;

    c.ScrollViewDidScroll();
    PageAtMultiple(1, 320.0, 6);
    assert c.currentPage == 0 && c.offsetX == 320.0;
  }
}
