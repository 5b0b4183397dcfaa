/** The phone-side gesture recogniser (`createTouchHandler`): a closure over
    mutable variables that turns touch start / move / end events into the
    callbacks `move`, `click`, `scroll`, `rightClick`, `mouseDown` and
    `mouseUp`. Here the closure is the class Recognizer, a touch is the point
    (clientX, clientY) as a Vec, the clock is the `now` argument in
    milliseconds, the long-press `setTimeout` is the method LongPressFired,
    and the callbacks a call makes are its result `calls`; the ghost tallies
    of the class sum their deltas over the whole run. */
module TouchHandler {
  import opened Geometry
  import opened Timers

  /** One invocation of a callback the handler was created with. */
  datatype Action =
    | Move(deltaX: real, deltaY: real)
    | Click
    | Scroll(deltaX: real, deltaY: real)
    | RightClick
    | MouseDown
    | MouseUp

  const MoveBatchMs := 50
  const TapRadius := 10.0
  const TwoFingerTapMs := 300

  function Midpoint(p: Vec, q: Vec): (r: Vec)
    ensures Sub(r, p) == Sub(q, r)
  {
    Vec((p.x + q.x) / 2.0, (p.y + q.y) / 2.0)
  }

  /** A one-finger lift at `end` is a tap of a touch that started at `start`:
      their distance is below 10. */
  predicate IsTap(start: Vec, end: Vec)
    ensures IsTap(start, end) ==> Abs(end.x - start.x) < TapRadius && Abs(end.y - start.y) < TapRadius
    ensures start == end ==> IsTap(start, end)
  {
    CloseOnBothAxes(start, end, TapRadius);
    SqDist(start, end) < TapRadius * TapRadius
  }

  /** A two-finger lift is a tap: the end midpoint is within 10 of the stored
      centroid and the gesture lasted under 300 ms. */
  predicate IsTwoFingerTap(centroid: Vec, end: Vec, duration: int)
    ensures IsTwoFingerTap(centroid, end, duration) ==>
      Abs(end.x - centroid.x) < TapRadius && Abs(end.y - centroid.y) < TapRadius && duration < TwoFingerTapMs
    ensures centroid == end ==> (IsTwoFingerTap(centroid, end, duration) <==> duration < TwoFingerTapMs)
  {
    CloseOnBothAxes(centroid, end, TapRadius);
    SqDist(centroid, end) < TapRadius * TapRadius && duration < TwoFingerTapMs
  }

  /** The four running totals the handler's invariant is about. */
  datatype Part = MoveX | MoveY | ScrollX | ScrollY

  /** What one callback contributes to a total. */
  function PartOf(a: Action, p: Part): real
  {
    match p
    case MoveX => if a.Move? then a.deltaX else 0.0
    case MoveY => if a.Move? then a.deltaY else 0.0
    case ScrollX => if a.Scroll? then a.deltaX else 0.0
    case ScrollY => if a.Scroll? then a.deltaY else 0.0
  }

  /** The sum of one delta component over the `move` (or `scroll`) calls in `t`. */
  function Total(t: seq<Action>, p: Part): real
  {
    if t == [] then 0.0 else PartOf(t[0], p) + Total(t[1..], p)
  }

  /** Totals add up over consecutive stretches of calls. */
  lemma {:induction false} TotalAppend(s: seq<Action>, t: seq<Action>, p: Part)
    ensures Total(s + t, p) == Total(s, p) + Total(t, p)
  {
    if s == [] {
      assert s + t == t;
    } else {
      TotalAppend(s[1..], t, p);
      assert (s + t)[1..] == s[1..] + t;
    }
  }

  /** The total of a single call. */
  lemma TotalOne(a: Action, p: Part)
    ensures Total([a], p) == PartOf(a, p)
  {
    assert [a][1..] == [];
  }

  /** The summed `move` and `scroll` deltas of a run of calls. */
  function Moved(t: seq<Action>): Vec
  {
    Vec(Total(t, MoveX), Total(t, MoveY))
  }

  function Scrolled(t: seq<Action>): Vec
  {
    Vec(Total(t, ScrollX), Total(t, ScrollY))
  }

  /** A tap contributes nothing to any total. */
  lemma NoDeltas(tap: seq<Action>)
    requires tap == [] || tap == [Click] || tap == [RightClick] || tap == [MouseDown] || tap == [MouseUp]
    ensures Moved(tap) == Zero && Scrolled(tap) == Zero
  {
    if tap != [] {
      TotalOne(tap[0], MoveX);
      TotalOne(tap[0], MoveY);
      TotalOne(tap[0], ScrollX);
      TotalOne(tap[0], ScrollY);
    }
  }

  /** The `scroll` calls of a two-finger gesture whose stored centroid is
      `start` and whose successive move centroids are `centroids`. */
  function PanCalls(start: Vec, centroids: seq<Vec>): seq<Action>
    decreases |centroids|
  {
    if centroids == [] then []
    else [Scroll(centroids[0].x - start.x, centroids[0].y - start.y)] + PanCalls(centroids[0], centroids[1..])
  }

  /** The scroll deltas of a gesture telescope: summed, they are the
      displacement from the start centroid to the last one. This is the
      functional wording, over a whole sequence of moves, of the fact the
      class keeps one move at a time: Recognizer.Pan emits PanCalls' next
      element (PanStep) and Recognizer.Valid keeps the stored centroid equal
      to the start centroid plus the scroll deltas so far. */
  lemma {:induction false} PanTelescopes(start: Vec, centroids: seq<Vec>)
    requires centroids != []
    decreases |centroids|
    ensures start.x + Total(PanCalls(start, centroids), ScrollX) == centroids[|centroids| - 1].x
    ensures start.y + Total(PanCalls(start, centroids), ScrollY) == centroids[|centroids| - 1].y
  {
    var first := Scroll(centroids[0].x - start.x, centroids[0].y - start.y);
    var rest := PanCalls(centroids[0], centroids[1..]);
    assert ([first] + rest)[1..] == rest;
    if |centroids| > 1 {
      PanTelescopes(centroids[0], centroids[1..]);
    } else {
      assert rest == [];
    }
  }

  class Recognizer {
    /* The closure's variables; a pair `fooX`, `fooY` of the source is the
       field `foo` here. */
    var isDragging: bool
    var last: Vec
    var accumulatedDelta: Vec
    var accumulatedScrollDelta: Vec
    var lastMoveTime: int
    var touchStart: Vec
    var isLongPress: bool
    var longPressTimer: TimerRef
    var twoFingerStart: Vec
    var twoFingerStartTime: int
    var isTwoFingerGesture: bool

    /** Handles of the long-press callbacks that are still due to run. */
    ghost var Scheduled: set<nat>
    /** The sum of all one-finger frame deltas so far. */
    ghost var Dragged: Vec
    /** The sum of the deltas of all `move` calls so far. */
    ghost var Sent: Vec
    /** The centroid recorded by the latest two-finger start, and the sum of
        the deltas of the `scroll` calls made since. */
    ghost var PanStart: Vec
    ghost var Panned: Vec

    /** The handler's invariant: no movement is lost (what was dragged is
        what was sent by `move` plus what is still accumulated), the scroll
        calls since the latest two-finger start telescope to the displacement
        of the stored centroid, and the scroll accumulator stays zero (nothing
        ever adds to it). */
    ghost predicate Valid()
      reads this
    {
      && accumulatedScrollDelta == Zero
      && Add(Sent, accumulatedDelta) == Dragged
      && Add(PanStart, Panned) == twoFingerStart
    }

    /** At most one long-press callback is due, and it is the one whose handle
        `longPressTimer` holds. */
    ghost predicate AtMostOneTimer()
      reads this
    {
      Scheduled <= Handles(longPressTimer)
    }

    /** The tallies of sent deltas grew by exactly the deltas in `calls`. */
    twostate predicate Tallied(calls: seq<Action>)
      reads this
    {
      Sent == Add(old(Sent), Moved(calls)) && Panned == Add(old(Panned), Scrolled(calls))
    }

    /** One finger moved to `p` at `now`: the frame delta is added to the
        accumulation, which is sent with `move` and reset iff more than 50 ms
        have passed since the last `move` and it exceeds one unit. */
    twostate predicate DragStep(p: Vec, now: int, calls: seq<Action>)
      reads this
    {
      var frame := Sub(p, old(last));
      var acc := Add(old(accumulatedDelta), frame);
      var emit := now - old(lastMoveTime) > MoveBatchMs && ExceedsUnit(acc);
      && last == p && Dragged == Add(old(Dragged), frame)
      && calls == (if emit then [Move(acc.x, acc.y)] else [])
      && (if emit then accumulatedDelta == Zero && lastMoveTime == now
          else accumulatedDelta == acc && lastMoveTime == old(lastMoveTime))
    }

    /** The two-finger centroid moved to `c`: one `scroll` with its frame
        delta, and `c` becomes the stored centroid. */
    twostate predicate PanStep(c: Vec, calls: seq<Action>)
      reads this
    {
      var frame := Sub(c, old(twoFingerStart));
      calls == [Scroll(frame.x, frame.y)] && twoFingerStart == c
    }

    constructor ()
      ensures Valid() && AtMostOneTimer()
      ensures !isDragging && !isLongPress && !isTwoFingerGesture && longPressTimer == Null
      ensures accumulatedDelta == Zero && lastMoveTime == 0
      ensures last == Zero && touchStart == Zero && twoFingerStart == Zero && twoFingerStartTime == 0
      ensures Scheduled == {} && Sent == Zero && Dragged == Zero
    {
      isDragging := false;
      last, accumulatedDelta, accumulatedScrollDelta := Zero, Zero, Zero;
      lastMoveTime := 0;
      touchStart := Zero;
      isLongPress := false;
      longPressTimer := Null;
      twoFingerStart, twoFingerStartTime := Zero, 0;
      isTwoFingerGesture := false;
      Scheduled := {};
      Dragged, Sent, PanStart, Panned := Zero, Zero, Zero, Zero;
    }

    /** `handleTouchStart`. `handle` is what `setTimeout` returns when one
        finger arms the long-press timer. The accumulators are not reset. */
    method HandleTouchStart(touches: seq<Vec>, now: int, handle: nat)
      requires Valid()
      requires |touches| == 1 ==> handle !in Scheduled
      modifies this`isDragging, this`last, this`touchStart, this`longPressTimer, this`Scheduled,
        this`isTwoFingerGesture, this`twoFingerStartTime, this`twoFingerStart, this`PanStart, this`Panned
      ensures Valid() && isDragging
      ensures |touches| == 1 ==>
        && last == touches[0] && touchStart == touches[0]
        && longPressTimer == Handle(handle) && Scheduled == old(Scheduled) + {handle}
        && (old(Scheduled) == {} ==> AtMostOneTimer())
        && unchanged(this`isTwoFingerGesture, this`twoFingerStartTime, this`twoFingerStart)
      ensures |touches| == 2 ==>
        && isTwoFingerGesture && twoFingerStartTime == now
        && twoFingerStart == Midpoint(touches[0], touches[1]) && Panned == Zero
        && unchanged(this`last, this`touchStart, this`longPressTimer, this`Scheduled)
      ensures |touches| != 1 && |touches| != 2 ==>
        unchanged(this`last, this`touchStart, this`longPressTimer, this`Scheduled,
                  this`isTwoFingerGesture, this`twoFingerStartTime, this`twoFingerStart)
    {
      isDragging := true;
      if |touches| == 1 {
        last, touchStart := touches[0], touches[0];
        longPressTimer, Scheduled := Handle(handle), Scheduled + {handle};
      } else if |touches| == 2 {
        var c := Midpoint(touches[0], touches[1]);
        isTwoFingerGesture, twoFingerStartTime, twoFingerStart := true, now, c;
        PanStart, Panned := c, Zero;
      }
    }

    /** `clearTimeout(longPressTimer); longPressTimer = null`. */
    method ClearLongPressTimer()
      requires Valid()
      modifies this`longPressTimer, this`Scheduled
      ensures Valid() && longPressTimer == Null
      ensures Scheduled == old(Scheduled) - Handles(old(longPressTimer))
      ensures old(AtMostOneTimer()) ==> Scheduled == {}
    {
      longPressTimer, Scheduled := Null, Scheduled - Handles(longPressTimer);
    }

    /** `move(accumulatedDeltaX, accumulatedDeltaY)` followed by the reset of
        the accumulation. */
    method SendAccumulated() returns (calls: seq<Action>)
      requires Valid()
      modifies this`accumulatedDelta, this`Sent
      ensures Valid() && Tallied(calls)
      ensures calls == [Move(old(accumulatedDelta).x, old(accumulatedDelta).y)] && accumulatedDelta == Zero
    {
      calls := [Move(accumulatedDelta.x, accumulatedDelta.y)];
      TotalOne(calls[0], MoveX);
      TotalOne(calls[0], MoveY);
      TotalOne(calls[0], ScrollX);
      TotalOne(calls[0], ScrollY);
      Sent, accumulatedDelta := Add(Sent, accumulatedDelta), Zero;
    }

    /** The one-finger branch of `handleTouchMove`. */
    method Drag(p: Vec, now: int) returns (calls: seq<Action>)
      requires Valid()
      modifies this`last, this`accumulatedDelta, this`lastMoveTime, this`Dragged, this`Sent
      ensures Valid() && Tallied(calls) && DragStep(p, now, calls)
    {
      var delta := Sub(p, last);
      last := p;
      accumulatedDelta, Dragged := Add(accumulatedDelta, delta), Add(Dragged, delta);
      calls := [];
      if now - lastMoveTime > MoveBatchMs && ExceedsUnit(accumulatedDelta) {
        calls := SendAccumulated();
        lastMoveTime := now;
      }
    }

    /** The two-finger branch of `handleTouchMove`, with `c` the centroid. */
    method Pan(c: Vec) returns (calls: seq<Action>)
      requires Valid()
      modifies this`twoFingerStart, this`Panned
      ensures Valid() && Tallied(calls) && PanStep(c, calls)
    {
      var delta := Sub(c, twoFingerStart);
      twoFingerStart := c;
      calls := [Scroll(delta.x, delta.y)];
      TotalOne(calls[0], MoveX);
      TotalOne(calls[0], MoveY);
      TotalOne(calls[0], ScrollX);
      TotalOne(calls[0], ScrollY);
      Panned := Add(Panned, delta);
    }

    /** `handleTouchMove`. Nothing happens unless a gesture is live; then one
        finger drags, two fingers pan, and the long-press timer is cleared. */
    method HandleTouchMove(touches: seq<Vec>, now: int) returns (calls: seq<Action>)
      requires Valid()
      modifies this`last, this`accumulatedDelta, this`lastMoveTime, this`Dragged, this`Sent,
        this`twoFingerStart, this`Panned, this`longPressTimer, this`Scheduled
      ensures Valid() && Tallied(calls)
      ensures !old(isDragging) ==> calls == [] && unchanged(this)
      ensures old(isDragging) ==>
        && longPressTimer == Null && Scheduled == old(Scheduled) - Handles(old(longPressTimer))
        && (old(AtMostOneTimer()) ==> Scheduled == {})
      ensures old(isDragging) && |touches| == 1 ==>
        DragStep(touches[0], now, calls) && unchanged(this`twoFingerStart)
      ensures old(isDragging) && |touches| == 2 ==>
        && PanStep(Midpoint(touches[0], touches[1]), calls)
        && unchanged(this`last, this`accumulatedDelta, this`lastMoveTime, this`Dragged)
      ensures old(isDragging) && |touches| != 1 && |touches| != 2 ==>
        calls == [] && unchanged(this`last, this`accumulatedDelta, this`lastMoveTime, this`Dragged, this`twoFingerStart)
    {
      calls := [];
      if !isDragging {
        return;
      }
      if |touches| == 1 {
        calls := Drag(touches[0], now);
      } else if |touches| == 2 {
        calls := Pan(Midpoint(touches[0], touches[1]));
      }
      ClearLongPressTimer();
    }

    /** The flush at the end of `handleTouchEnd`: a residual accumulation
        over one unit is sent with `move` and reset. */
    method FlushMove() returns (calls: seq<Action>)
      requires Valid()
      modifies this`accumulatedDelta, this`Sent
      ensures Valid() && Tallied(calls)
      ensures var acc := old(accumulatedDelta);
        && calls == (if ExceedsUnit(acc) then [Move(acc.x, acc.y)] else [])
        && accumulatedDelta == (if ExceedsUnit(acc) then Zero else acc)
    {
      calls := [];
      if ExceedsUnit(accumulatedDelta) {
        calls := SendAccumulated();
      }
    }

    /** The tap recognised when a gesture that was not a long press ends:
        `rightClick` for a short two-finger tap near the stored centroid,
        `click` for a one-finger lift near where the touch started. */
    function TapCalls(lifted: Vec, remaining: seq<Vec>, now: int): (calls: seq<Action>)
      requires isTwoFingerGesture ==> |remaining| >= 1
      reads this
      ensures calls == [] || calls == [Click] || calls == [RightClick]
      ensures calls == [RightClick] <==>
        isTwoFingerGesture && IsTwoFingerTap(twoFingerStart, Midpoint(lifted, remaining[0]), now - twoFingerStartTime)
      ensures calls == [Click] <==> !isTwoFingerGesture && IsTap(touchStart, lifted)
    {
      if isTwoFingerGesture then
        if IsTwoFingerTap(twoFingerStart, Midpoint(lifted, remaining[0]), now - twoFingerStartTime)
        then [RightClick] else []
      else if IsTap(touchStart, lifted) then [Click] else []
    }

    /** `handleTouchEnd`: `lifted` is `changedTouches[0]` and `remaining` is
        `touches`. A held long press ends with `mouseUp` alone. Otherwise the
        tap, if any, is followed by the flush of the residual movement. */
    method HandleTouchEnd(lifted: Vec, remaining: seq<Vec>, now: int) returns (calls: seq<Action>)
      requires Valid()
      requires !isLongPress && isTwoFingerGesture ==> |remaining| >= 1
      modifies this`isDragging, this`longPressTimer, this`Scheduled, this`isLongPress, this`isTwoFingerGesture,
        this`accumulatedDelta, this`Sent
      ensures Valid() && Tallied(calls)
      ensures !isDragging && !isLongPress && longPressTimer == Null
      ensures Scheduled == old(Scheduled) - Handles(old(longPressTimer))
      ensures old(AtMostOneTimer()) ==> Scheduled == {}
      ensures old(isLongPress) ==> calls == [MouseUp] && unchanged(this`isTwoFingerGesture, this`accumulatedDelta)
      ensures !old(isLongPress) ==>
        var acc := old(accumulatedDelta);
        && !isTwoFingerGesture
        && calls == old(TapCalls(lifted, remaining, now)) + (if ExceedsUnit(acc) then [Move(acc.x, acc.y)] else [])
        && accumulatedDelta == (if ExceedsUnit(acc) then Zero else acc)
    {
      isDragging := false;
      ClearLongPressTimer();
      if isLongPress {
        isLongPress := false;
        calls := [MouseUp];
        NoDeltas(calls);
        return;
      }
      var tap := TapCalls(lifted, remaining, now);
      NoDeltas(tap);
      isTwoFingerGesture := false;
      var flush := FlushMove();
      if ExceedsUnit(accumulatedScrollDelta) {
        // the scroll flush: unreachable, the accumulator stays zero
        assert false;
      }
      calls := tap + flush;
      TotalAppend(tap, flush, MoveX);
      TotalAppend(tap, flush, MoveY);
      TotalAppend(tap, flush, ScrollX);
      TotalAppend(tap, flush, ScrollY);
    }

    /** The long-press `setTimeout` callback (300 ms after a one-finger
        start): it runs only while its handle is scheduled, i.e. before the
        move or end that would have cleared it. */
    method LongPressFired(handle: nat) returns (calls: seq<Action>)
      requires Valid() && handle in Scheduled
      modifies this`isLongPress, this`Scheduled
      ensures Valid() && Tallied(calls)
      ensures calls == [MouseDown] && isLongPress
      ensures Scheduled == old(Scheduled) - {handle}
      ensures old(AtMostOneTimer()) ==> old(longPressTimer) == Handle(handle) && Scheduled == {}
    {
      isLongPress := true;
      calls := [MouseDown];
      NoDeltas(calls);
      Scheduled := Scheduled - {handle};
    }
  }
}
