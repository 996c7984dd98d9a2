/**
  The soft scroll-snap controller of the page script.

  Layout reads (a section's bounding rectangle, the window height, the scroll
  offset) are parameters of the operations; timers are handles drawn from a
  counter, pending until an explicit fire event; the smooth scroll that
  `scrollIntoView` starts is recorded as a request.
 */
module ScrollSnap {

  datatype Option<T> = None | Some(value: T)

  /** A section's bounding rectangle: its top relative to the viewport, and its height. */
  datatype Rect = Rect(top: int, height: int)

  /** A requested smooth scroll bringing the top of `section` to the viewport top;
      `targetY` is that section's top in document coordinates. */
  datatype ScrollRequest = ScrollRequest(section: nat, targetY: int)

  /** A section whose top is at most this many pixels from the viewport top is left alone. */
  const SnapThreshold: int := 20

  function Max(a: int, b: int): int { if a >= b then a else b }

  function Min(a: int, b: int): int { if a <= b then a else b }

  function Abs(x: int): nat { if x < 0 then -x else x }

  /** Length of the intersection of the half-open intervals [lo1, hi1) and [lo2, hi2). */
  function Overlap(lo1: int, hi1: int, lo2: int, hi2: int): int
  {
    Max(0, Min(hi1, hi2) - Max(lo1, lo2))
  }

  /** How many pixels of a section are inside a viewport `windowHeight` pixels tall:
      exactly the overlap of the section's span with the viewport's span. */
  function VisibleHeight(r: Rect, windowHeight: int): (v: int)
    ensures v == Overlap(r.top, r.top + r.height, 0, windowHeight)
    ensures 0 <= v
    ensures v <= Max(0, r.height) && v <= Max(0, windowHeight)
    ensures v > 0 <==> 0 < r.height && 0 < r.top + r.height && r.top < windowHeight && 0 < windowHeight
  {
    var visibleTop := Max(0, -r.top);
    var visibleBottom := Min(r.height, windowHeight - r.top);
    Max(0, visibleBottom - visibleTop)
  }

  ghost predicate NoSectionVisible(rects: seq<Rect>, windowHeight: int)
  {
    forall i :: 0 <= i < |rects| ==> VisibleHeight(rects[i], windowHeight) == 0
  }

  /** Section `k` is the current one: it is visible, strictly more visible than every
      earlier section, and at least as visible as every later one. */
  ghost predicate IsCurrentSection(rects: seq<Rect>, windowHeight: int, k: int)
  {
    && 0 <= k < |rects|
    && VisibleHeight(rects[k], windowHeight) > 0
    && (forall i :: 0 <= i < k ==> VisibleHeight(rects[i], windowHeight) < VisibleHeight(rects[k], windowHeight))
    && (forall i :: k < i < |rects| ==> VisibleHeight(rects[i], windowHeight) <= VisibleHeight(rects[k], windowHeight))
  }

  /** The most visible section, the first one among ties; `None` when no section is visible. */
  method GetCurrentSection(rects: seq<Rect>, windowHeight: int) returns (current: Option<nat>)
    ensures current.None? <==> NoSectionVisible(rects, windowHeight)
    ensures current.Some? ==> IsCurrentSection(rects, windowHeight, current.value)
  {
    current := None;
    var maxVisible := 0;
    for n := 0 to |rects|
      invariant current.None? ==> maxVisible == 0
      invariant current.None? ==> forall i :: 0 <= i < n ==> VisibleHeight(rects[i], windowHeight) == 0
      invariant current.Some? ==> current.value < n && maxVisible == VisibleHeight(rects[current.value], windowHeight) > 0
      invariant current.Some? ==> forall i :: 0 <= i < current.value ==> VisibleHeight(rects[i], windowHeight) < maxVisible
      invariant current.Some? ==> forall i :: current.value < i < n ==> VisibleHeight(rects[i], windowHeight) <= maxVisible
    {
      var visibleHeight := VisibleHeight(rects[n], windowHeight);
      if visibleHeight > maxVisible {
        maxVisible := visibleHeight;
        current := Some(n);
      }
    }
  }

  /** Whenever some section is visible, a current section exists. */
  lemma {:induction false} CurrentSectionExists(rects: seq<Rect>, windowHeight: int)
    requires !NoSectionVisible(rects, windowHeight)
    ensures exists k :: IsCurrentSection(rects, windowHeight, k)
  {
    var n := |rects| - 1;
    var init := rects[..n];
    assert forall i :: 0 <= i < n ==> init[i] == rects[i];
    if NoSectionVisible(init, windowHeight) {
      assert IsCurrentSection(rects, windowHeight, n);
    } else {
      CurrentSectionExists(init, windowHeight);
      var k :| IsCurrentSection(init, windowHeight, k);
      if VisibleHeight(rects[n], windowHeight) > VisibleHeight(rects[k], windowHeight) {
        assert IsCurrentSection(rects, windowHeight, n);
      } else {
        assert IsCurrentSection(rects, windowHeight, k);
      }
    }
  }

  /** There is at most one current section. */
  lemma CurrentSectionUnique(rects: seq<Rect>, windowHeight: int, k1: int, k2: int)
    requires IsCurrentSection(rects, windowHeight, k1)
    requires IsCurrentSection(rects, windowHeight, k2)
    ensures k1 == k2
  {
  }

  /** How far the viewport top is from the top of the section whose rectangle is `r`,
      when the page is scrolled to `scrollY`. */
  function DistanceFromTop(scrollY: int, r: Rect): (d: nat)
    ensures d == Abs(r.top)
  {
    var sectionTop := scrollY + r.top;
    Abs(scrollY - sectionTop)
  }

  /** Sections of height `h` laid out one right below the other. */
  ghost predicate Stacked(rects: seq<Rect>, h: int)
  {
    && (forall i :: 0 <= i < |rects| ==> rects[i].height == h)
    && (forall i, j :: 0 <= i < j < |rects| && j == i + 1 ==> rects[j].top == rects[i].top + h)
  }

  lemma {:induction false} StackedTopsIncrease(rects: seq<Rect>, h: int, i: int, j: int)
    requires Stacked(rects, h) && 0 <= h
    requires 0 <= i < j < |rects|
    ensures rects[i].top + h <= rects[j].top
    decreases j - i
  {
    if j > i + 1 {
      StackedTopsIncrease(rects, h, i, j - 1);
      assert rects[j].top == rects[j - 1].top + h;
    }
  }

  /** For sections as tall as the viewport, stacked one below the other, the section
      aligned with the viewport top is the current one and is within the snap
      threshold: once a snap has completed, a further snap changes nothing. */
  lemma AlignedSectionIsCurrent(rects: seq<Rect>, windowHeight: int, scrollY: int, j: int)
    requires Stacked(rects, windowHeight) && 0 < windowHeight
    requires 0 <= j < |rects| && rects[j].top == 0
    ensures IsCurrentSection(rects, windowHeight, j)
    ensures DistanceFromTop(scrollY, rects[j]) <= SnapThreshold
  {
    forall i | 0 <= i < |rects| && i != j
      ensures VisibleHeight(rects[i], windowHeight) == 0
    {
      if i < j {
        StackedTopsIncrease(rects, windowHeight, i, j);
      } else {
        StackedTopsIncrease(rects, windowHeight, j, i);
      }
    }
  }

  /** The state the scroll handlers share: the snap latch, the last observed scroll
      direction and offset, the debounce timer handle, the pending timers, and the
      smooth scrolls requested so far. */
  class Controller {
    var isScrolling: bool
    var scrollDirection: int
    var lastScrollY: int
    var scrollEndTimeout: Option<nat>
    var debounceTimers: set<nat>
    var latchTimers: set<nat>
    var nextTimer: nat
    var scrollRequests: seq<ScrollRequest>

    /** At most one debounce timer is pending, and it is the one `scrollEndTimeout`
        holds; none is pending while latched; the latch is set exactly while one
        latch-clearing timer is pending; timer handles are never reused. */
    ghost predicate Valid()
      reads this
    {
      && scrollDirection in {-1, 0, 1}
      && (forall h :: h in debounceTimers ==> h < nextTimer)
      && (forall h :: h in latchTimers ==> h < nextTimer)
      && (debounceTimers == {} || (scrollEndTimeout.Some? && debounceTimers == {scrollEndTimeout.value}))
      && (isScrolling ==> debounceTimers == {})
      && (if isScrolling then |latchTimers| == 1 else latchTimers == {})
    }

    constructor (initialScrollY: int)
      ensures Valid()
      ensures !isScrolling && scrollDirection == 0 && lastScrollY == initialScrollY
      ensures scrollEndTimeout == None && debounceTimers == {} && latchTimers == {}
      ensures nextTimer == 0 && scrollRequests == []
    {
      isScrolling := false;
      scrollDirection := 0;
      lastScrollY := initialScrollY;
      scrollEndTimeout := None;
      debounceTimers := {};
      latchTimers := {};
      nextTimer := 0;
      scrollRequests := [];
    }

    /** Nothing but the pending debounce timers differs from the previous state. */
    twostate predicate OnlyDebounceChanged()
      reads this
    {
      && isScrolling == old(isScrolling)
      && scrollDirection == old(scrollDirection)
      && lastScrollY == old(lastScrollY)
      && scrollEndTimeout == old(scrollEndTimeout)
      && latchTimers == old(latchTimers)
      && nextTimer == old(nextTimer)
      && scrollRequests == old(scrollRequests)
    }

    /** A snap started: the latch is set, `request` was issued, and exactly one new
        latch-clearing timer is pending; direction tracking is untouched. */
    twostate predicate SnapStarted(request: ScrollRequest)
      reads this
    {
      && isScrolling
      && scrollRequests == old(scrollRequests) + [request]
      && latchTimers == {old(nextTimer)}
      && nextTimer == old(nextTimer) + 1
      && scrollDirection == old(scrollDirection)
      && lastScrollY == old(lastScrollY)
      && scrollEndTimeout == old(scrollEndTimeout)
    }

    /** The snap routine. It only runs from the debounce timer's callback, so no
        debounce timer is pending when it starts. */
    method SnapToSection(scrollY: int, rects: seq<Rect>, windowHeight: int)
      requires Valid() && debounceTimers == {}
      modifies this
      ensures Valid() && debounceTimers == {}
      ensures old(isScrolling) || NoSectionVisible(rects, windowHeight) ==> OnlyDebounceChanged()
      ensures forall k: nat {:trigger IsCurrentSection(rects, windowHeight, k)} ::
        !old(isScrolling) && IsCurrentSection(rects, windowHeight, k) ==>
          if DistanceFromTop(scrollY, rects[k]) > SnapThreshold
          then SnapStarted(ScrollRequest(k, scrollY + rects[k].top))
          else OnlyDebounceChanged()
    {
      if isScrolling {
        return;
      }
      var current := GetCurrentSection(rects, windowHeight);
      if current.None? {
        return;
      }
      var k := current.value;
      forall k' | IsCurrentSection(rects, windowHeight, k')
        ensures k' == k
      {
        CurrentSectionUnique(rects, windowHeight, k, k');
      }
      var distanceFromTop := DistanceFromTop(scrollY, rects[k]);
      if distanceFromTop > SnapThreshold {
        isScrolling := true;
        scrollRequests := scrollRequests + [ScrollRequest(k, scrollY + rects[k].top)];
        latchTimers := latchTimers + {nextTimer};
        nextTimer := nextTimer + 1;
      }
    }

    /** The first scroll listener: unless latched, records the direction of travel
        (1 for down, -1 otherwise) and the new offset. */
    method TrackDirection(scrollY: int)
      requires Valid()
      modifies this`scrollDirection, this`lastScrollY
      ensures Valid()
      ensures isScrolling ==> scrollDirection == old(scrollDirection) && lastScrollY == old(lastScrollY)
      ensures !isScrolling ==> scrollDirection == (if scrollY > old(lastScrollY) then 1 else -1)
      ensures !isScrolling ==> lastScrollY == scrollY
    {
      if isScrolling {
        return;
      }
      var currentScrollY := scrollY;
      scrollDirection := if currentScrollY > lastScrollY then 1 else -1;
      lastScrollY := currentScrollY;
    }

    /** The second scroll listener: unless latched, cancels the pending debounce timer
        and schedules a fresh one, which is then the only one pending. */
    method ScheduleSnap()
      requires Valid()
      modifies this`scrollEndTimeout, this`debounceTimers, this`nextTimer
      ensures Valid()
      ensures isScrolling ==> scrollEndTimeout == old(scrollEndTimeout) && debounceTimers == old(debounceTimers) && nextTimer == old(nextTimer)
      ensures !isScrolling ==> scrollEndTimeout == Some(old(nextTimer)) && debounceTimers == {old(nextTimer)}
      ensures !isScrolling ==> nextTimer == old(nextTimer) + 1
    {
      if isScrolling {
        return;
      }
      if scrollEndTimeout.Some? {
        debounceTimers := debounceTimers - {scrollEndTimeout.value};
      }
      var handle := nextTimer;
      nextTimer := nextTimer + 1;
      debounceTimers := debounceTimers + {handle};
      scrollEndTimeout := Some(handle);
    }

    /** A scroll event, delivered to both listeners in the order they were added. */
    method OnScroll(scrollY: int)
      requires Valid()
      modifies this`scrollDirection, this`lastScrollY, this`scrollEndTimeout, this`debounceTimers, this`nextTimer
      ensures Valid()
      ensures isScrolling ==> unchanged(this)
      ensures !isScrolling ==> scrollDirection == (if scrollY > old(lastScrollY) then 1 else -1) && lastScrollY == scrollY
      ensures !isScrolling ==> scrollEndTimeout == Some(old(nextTimer)) && debounceTimers == {old(nextTimer)}
      ensures !isScrolling ==> nextTimer == old(nextTimer) + 1
    {
      TrackDirection(scrollY);
      ScheduleSnap();
    }

    /** The pending debounce timer `handle` fires and runs the snap routine against
        the layout at that moment. */
    method FireDebounce(handle: nat, scrollY: int, rects: seq<Rect>, windowHeight: int)
      requires Valid() && handle in debounceTimers
      modifies this
      ensures Valid() && debounceTimers == {}
      ensures NoSectionVisible(rects, windowHeight) ==> OnlyDebounceChanged()
      ensures forall k: nat {:trigger IsCurrentSection(rects, windowHeight, k)} ::
        IsCurrentSection(rects, windowHeight, k) ==>
          if DistanceFromTop(scrollY, rects[k]) > SnapThreshold
          then SnapStarted(ScrollRequest(k, scrollY + rects[k].top))
          else OnlyDebounceChanged()
    {
      debounceTimers := debounceTimers - {handle};
      SnapToSection(scrollY, rects, windowHeight);
    }

    /** The pending latch-clearing timer `handle` fires: snapping is possible again. */
    method FireLatchClear(handle: nat)
      requires Valid() && handle in latchTimers
      modifies this`isScrolling, this`latchTimers
      ensures Valid()
      ensures !isScrolling && latchTimers == {}
    {
      assert latchTimers - {handle} == {} by {
        assert |latchTimers - {handle}| == |latchTimers| - 1;
      }
      latchTimers := latchTimers - {handle};
      isScrolling := false;
    }
  }

  /** Two viewport-tall sections, scrolled 300 px into the first: a burst of scroll
      events leaves one debounce pending, which snaps back to the first section;
      scrolls during the snap are ignored; the latch then clears. */
  method SnapCycle(y1: int, y2: int, yDuringSnap: int)
    returns (requests: seq<ScrollRequest>, latched: bool, pendingDebounce: set<nat>)
    ensures requests == [ScrollRequest(0, 0)]
    ensures !latched && pendingDebounce == {}
  {
    var c := new Controller(0);
    c.OnScroll(y1);
    c.OnScroll(y2);
    c.OnScroll(300);
    assert c.debounceTimers == {2};
    var rects := [Rect(-300, 1000), Rect(700, 1000)];
    assert IsCurrentSection(rects, 1000, 0);
    c.FireDebounce(2, 300, rects, 1000);
    assert c.isScrolling && c.latchTimers == {3};
    c.OnScroll(yDuringSnap);
    c.FireLatchClear(3);
    requests, latched, pendingDebounce := c.scrollRequests, c.isScrolling, c.debounceTimers;
  }
}
