/** The host-side web-socket handler: it parses each message, dispatches on
    its `type` and drives the mouse and the keyboard. The OS calls are the
    effects a call returns; the cursor position the OS reports is an
    argument. Module state and the state of the live move animation are the
    fields of the class Motion; each `setTimeout` callback is a method whose
    argument is the timer's handle. */
module Server {
  import opened Geometry
  import opened Wire
  import opened Timers

  datatype Button = Left | Right

  datatype KeyCode = AudioVolUp | AudioVolDown | AudioPlay

  /** One call into the mouse or keyboard driver. */
  datatype Effect =
    | SetPosition(x: real, y: real)
    | ClickButton(button: Button)
    | PressButton(button: Button)
    | ReleaseButton(button: Button)
    | ScrollUp(amount: real)
    | ScrollRight(amount: real)
    | PressKey(key: KeyCode)
    | ReleaseKey(key: KeyCode)

  /** The branches of the `switch (data.type)`. */
  datatype Handler =
    | LogHandler | MoveHandler | ClickHandler | ScrollHandler | MoveUpHandler
    | KeyHandler | RightClickHandler | MouseDownHandler | MouseUpHandler | UnknownType

  const MoveUpPixels := 10.0
  const ScrollCap := 100.0
  const ScrollGain := 5.0
  const Inertia := 0.9
  const AnimationMs := 60
  const IntervalMs := 8

  /** The `case` label a message type reaches. */
  function Route(kind: string): (h: Handler)
    ensures h == UnknownType <==>
      kind !in {"log", "move", "click", "scroll", "move_up", "key", "rightClick", "mouseDown", "mouseUp"}
  {
    match kind
    case "log" => LogHandler
    case "move" => MoveHandler
    case "click" => ClickHandler
    case "scroll" => ScrollHandler
    case "move_up" => MoveUpHandler
    case "key" => KeyHandler
    case "rightClick" => RightClickHandler
    case "mouseDown" => MouseDownHandler
    case "mouseUp" => MouseUpHandler
    case _ => UnknownType
  }

  /** The `case` label of a handler: Route's inverse. */
  function KindOf(h: Handler): string
  {
    match h
    case LogHandler => "log"
    case MoveHandler => "move"
    case ClickHandler => "click"
    case ScrollHandler => "scroll"
    case MoveUpHandler => "move_up"
    case KeyHandler => "key"
    case RightClickHandler => "rightClick"
    case MouseDownHandler => "mouseDown"
    case MouseUpHandler => "mouseUp"
    case UnknownType => ""
  }

  /** Every handler is reached by exactly its own label: distinct labels go
      to distinct handlers. */
  lemma RouteKindOf(h: Handler)
    requires h != UnknownType
    ensures Route(KindOf(h)) == h
    ensures forall kind :: Route(kind) == h ==> kind == KindOf(h)
  {
  }

  /** `handleClick`: `'left'` clicks the left button, anything else the right. */
  function ButtonFor(button: string): (b: Button)
    ensures b == Left <==> button == "left"
  {
    if button == "left" then Left else Right
  }

  datatype Option<T> = None | Some(value: T)

  /** The key table of `handleKey`; other names are unknown. */
  function KeyFor(name: string): (k: Option<KeyCode>)
    ensures k.Some? <==> name in {"audio_vol_up", "audio_vol_down", "audio_play"}
  {
    match name
    case "audio_vol_up" => Some(AudioVolUp)
    case "audio_vol_down" => Some(AudioVolDown)
    case "audio_play" => Some(AudioPlay)
    case _ => None
  }

  /** `handleKey`: press and then release the named key, or nothing for an
      unknown name. */
  function KeyEffects(name: string): (effects: seq<Effect>)
    ensures KeyFor(name).None? ==> effects == []
    ensures KeyFor(name).Some? ==> effects == [PressKey(KeyFor(name).value), ReleaseKey(KeyFor(name).value)]
  {
    match KeyFor(name)
    case None => []
    case Some(k) => [PressKey(k), ReleaseKey(k)]
  }

  /** The key table is one-to-one. */
  lemma KeyForInjective(a: string, b: string)
    requires KeyFor(a).Some? && KeyFor(a) == KeyFor(b)
    ensures a == b
  {
  }

  /** `Math.min`. */
  function Min(a: real, b: real): (r: real)
    ensures r <= a && r <= b && (r == a || r == b)
  {
    if a <= b then a else b
  }

  /** `Math.sign(d) * Math.min(Math.abs(d), 100) * 5`: the speed a scroll
      message adds on one axis. It has the sign of `d`, never exceeds 500 in
      magnitude, and is exactly `5 * d` up to the cap. */
  function ScrollIncrement(d: real): (r: real)
    ensures Sign(r) == Sign(d)
    ensures Abs(r) <= ScrollCap * ScrollGain
    ensures Abs(d) <= ScrollCap ==> r == ScrollGain * d
    ensures Abs(d) >= ScrollCap ==> Abs(r) == ScrollCap * ScrollGain
  {
    Sign(d) * Min(Abs(d), ScrollCap) * ScrollGain
  }

  /** `Math.abs(d) ** 1.2 * Math.sign(d)`, with `curve` standing for
      `a => a ** 1.2`. */
  function Normalized(curve: real -> real, d: real): (r: real)
    ensures d == 0.0 ==> r == 0.0
    ensures d != 0.0 ==> Abs(r) == Abs(curve(Abs(d)))
  {
    curve(Abs(d)) * Sign(d)
  }

  /** The response curve keeps zero at zero and, for a curve positive on
      positive magnitudes (as `** 1.2` is), the direction of the delta. */
  lemma NormalizedSign(curve: real -> real, d: real)
    requires d != 0.0 ==> curve(Abs(d)) > 0.0
    ensures d == 0.0 ==> Normalized(curve, d) == 0.0
    ensures Sign(Normalized(curve, d)) == Sign(d)
  {
    if d > 0.0 {
      assert Normalized(curve, d) == curve(Abs(d));
    } else if d < 0.0 {
      assert Normalized(curve, d) == -curve(Abs(d));
    }
  }

  /** A scroll speed after `n` inertia ticks, each multiplying it by 0.9. */
  function Decayed(speed: real, n: nat): real
  {
    if n == 0 then speed else Decayed(speed, n - 1) * Inertia
  }

  function Power(b: real, n: nat): real
  {
    if n == 0 then 1.0 else Power(b, n - 1) * b
  }

  /** A product as a function of its own, so that the induction about
      `Power` sees `speed * 0.9^n` as one term and not a fresh product at
      every unfolding. */
  function Mul(a: real, b: real): real
  {
    a * b
  }

  /** The closed form of the decay: `speed * 0.9^n`. */
  lemma {:induction false} DecayedClosedForm(speed: real, n: nat)
    ensures Decayed(speed, n) == Mul(speed, Power(Inertia, n))
  {
    if n > 0 {
      DecayedClosedForm(speed, n - 1);
      MulAssoc(speed, Power(Inertia, n - 1), Inertia);
    }
  }

  lemma MulAssoc(a: real, b: real, c: real)
    ensures Mul(Mul(a, b), c) == Mul(a, Mul(b, c))
  {
  }

  /** In exact arithmetic the inertia never reaches zero: a non-zero speed
      stays non-zero and keeps its sign, and it shrinks at every tick. */
  lemma {:induction false} DecayedNeverStops(speed: real, n: nat)
    ensures Sign(Decayed(speed, n)) == Sign(speed)
    ensures Abs(Decayed(speed, n)) <= Abs(speed)
  {
    if n > 0 {
      DecayedNeverStops(speed, n - 1);
    }
  }

  /** The fraction of the initial offset still to go after the tick that
      brought the duration down to `duration`. */
  function Remaining(duration: int): real
  {
    (duration - IntervalMs) as real / 52.0
  }

  /** One stepped tick of the animation with the duration just decremented
      to `d` (52, 44, ..., 4): the step is `offset / (d / 8)`, so an offset
      that was `o0 * Remaining(d + 8)` becomes `o0 * Remaining(d)`. */
  lemma StepOffset(o0: real, offset: real, d: int)
    requires 4 <= d <= 52 && d % 8 == 4
    requires offset == o0 * Remaining(d + IntervalMs)
    ensures offset - offset / (d as real / IntervalMs as real) == o0 * Remaining(d)
  {
    if d == 52 {
    } else if d == 44 {
    } else if d == 36 {
    } else if d == 28 {
    } else if d == 20 {
    } else if d == 12 {
    } else {
      assert d == 4;
    }
  }

  /** The last stepped tick (duration 4) overshoots the target: a part of
      0.5 doubles the step, leaving minus one thirteenth of the offset. */
  lemma LastStepOvershoots(o0: real)
    ensures o0 * Remaining(4) == -o0 / 13.0
  {
  }

  /** After the first tick, a point with `offset0 * Remaining(52)` still to go
      to the target has come 8/52 of the way from `pos`. */
  lemma FirstStep(pos: Vec, target: Vec, current: Vec, offset0: Vec)
    requires offset0 == Sub(target, pos)
    requires target.x - current.x == offset0.x * Remaining(52)
    requires target.y - current.y == offset0.y * Remaining(52)
    ensures current == Add(pos, Vec(offset0.x * 8.0 / 52.0, offset0.y * 8.0 / 52.0))
  {
  }

  /** `moveCursorUp(10)` with the cursor at `pos`: ten pixels up, the
      animation untouched. */
  function MoveCursorUp(pos: Vec): (effects: seq<Effect>)
    ensures |effects| == 1 && effects[0].SetPosition?
    ensures effects[0].x == pos.x && effects[0].y == pos.y - 10.0
  {
    [SetPosition(pos.x, pos.y - MoveUpPixels)]
  }

  /** `handleClick(button)`: one click of the button `button` names. */
  function HandleClick(button: string): (effects: seq<Effect>)
    ensures |effects| == 1 && effects[0].ClickButton?
    ensures effects[0].button == Left <==> button == "left"
  {
    [ClickButton(ButtonFor(button))]
  }

  /** `handleRightClick`: one click of the right button. */
  function HandleRightClick(): (effects: seq<Effect>)
    ensures |effects| == 1 && effects[0].ClickButton? && effects[0].button == Right
  {
    [ClickButton(Right)]
  }

  /** `handleMouseDown`: the left button is pressed and held. */
  function HandleMouseDown(): (effects: seq<Effect>)
    ensures |effects| == 1 && effects[0].PressButton? && effects[0].button == Left
  {
    [PressButton(Left)]
  }

  /** `handleMouseUp`: the left button is released. */
  function HandleMouseUp(): (effects: seq<Effect>)
    ensures |effects| == 1 && effects[0].ReleaseButton? && effects[0].button == Left
  {
    [ReleaseButton(Left)]
  }

  /** What the `switch` does for the handlers that touch no state: `log`
      only prints and an unknown type is only reported. */
  function StatelessEffects(h: Handler, frame: Frame, pos: Vec): (effects: seq<Effect>)
    requires h !in {MoveHandler, ScrollHandler}
    ensures h in {LogHandler, UnknownType} ==> effects == []
    ensures effects == [] ==> h in {LogHandler, UnknownType} || (h == KeyHandler && KeyFor(frame.key).None?)
  {
    match h
    case LogHandler => []
    case ClickHandler => HandleClick(frame.button)
    case MoveUpHandler => MoveCursorUp(pos)
    case KeyHandler => KeyEffects(frame.key)
    case RightClickHandler => HandleRightClick()
    case MouseDownHandler => HandleMouseDown()
    case MouseUpHandler => HandleMouseUp()
    case UnknownType => []
  }

  /** The host: the globals of the handler module and the variables of the
      live move animation's closure (`currentX`, `currentY`, `duration`). */
  class Motion {
    var scrollSpeed: Vec
    var target: Vec
    var moveAnimationId: TimerRef
    var scrollAnimationId: TimerRef
    var current: Vec
    var duration: int

    /** Handles of the timers still due to run. */
    ghost var MoveScheduled: set<nat>
    ghost var ScrollScheduled: set<nat>
    /** target - current when the live animation started, and the number of
        ticks it has taken. */
    ghost var Offset0: Vec
    ghost var Ticks: nat
    /** The speed right after the latest scroll message, and the number of
        inertia ticks since. */
    ghost var SpeedBase: Vec
    ghost var Decays: nat

    /** The state of a live animation closure whose duration is `d`: it has
        ticked (60 - d) / 8 times and what is left of its offset is the
        fraction Remaining(d) of the initial one. */
    ghost predicate Animating(d: int)
      reads this
    {
      && d % 8 == 4 && 4 <= d <= AnimationMs
      && Ticks * IntervalMs == AnimationMs - d
      && target.x - current.x == Offset0.x * Remaining(d)
      && target.y - current.y == Offset0.y * Remaining(d)
    }

    ghost predicate Valid()
      reads this
    {
      && MoveScheduled == Handles(moveAnimationId)
      && ScrollScheduled <= Handles(scrollAnimationId)
      && scrollSpeed == Vec(Decayed(SpeedBase.x, Decays), Decayed(SpeedBase.y, Decays))
      && (moveAnimationId.Handle? ==> Animating(duration) && duration <= 52)
    }

    /** Handles not in use by a pending timer. */
    ghost predicate Fresh(handle: nat)
      reads this
    {
      handle !in MoveScheduled && handle !in ScrollScheduled
    }

    constructor ()
      ensures Valid() && moveAnimationId == Null && scrollAnimationId == Null
      ensures scrollSpeed == Zero && target == Zero
      ensures MoveScheduled == {} && ScrollScheduled == {}
    {
      scrollSpeed, target := Zero, Zero;
      moveAnimationId, scrollAnimationId := Null, Null;
      current, duration := Zero, AnimationMs;
      MoveScheduled, ScrollScheduled := {}, {};
      Offset0, Ticks := Zero, 0;
      SpeedBase, Decays := Zero, 0;
    }

    /** The stepped part of `animation()` once `duration` is positive: the
        position moves by the remaining distance over `duration / 8`, the
        cursor is set there rounded, and `handle` is the next tick's timer
        iff the squared distance left exceeds 1. */
    method Step(handle: nat) returns (effects: seq<Effect>)
      requires 4 <= duration <= 52 && duration % 8 == 4
      requires moveAnimationId == Null && MoveScheduled == {}
      requires target.x - current.x == Offset0.x * Remaining(duration + IntervalMs)
      requires target.y - current.y == Offset0.y * Remaining(duration + IntervalMs)
      modifies this`current, this`moveAnimationId, this`MoveScheduled
      ensures current == Add(old(current), Vec((target.x - old(current).x) / (duration as real / 8.0),
                                               (target.y - old(current).y) / (duration as real / 8.0)))
      ensures target.x - current.x == Offset0.x * Remaining(duration)
      ensures target.y - current.y == Offset0.y * Remaining(duration)
      ensures effects == [SetPosition(Round(current.x) as real, Round(current.y) as real)]
      ensures SqDist(current, target) > 1.0 ==> moveAnimationId == Handle(handle) && MoveScheduled == {handle}
      ensures SqDist(current, target) <= 1.0 ==> moveAnimationId == Null && MoveScheduled == {}
    {
      var distance := Sub(target, current);
      var part := duration as real / IntervalMs as real;
      StepOffset(Offset0.x, distance.x, duration);
      StepOffset(Offset0.y, distance.y, duration);
      current := Add(current, Vec(distance.x / part, distance.y / part));
      effects := [SetPosition(Round(current.x) as real, Round(current.y) as real)];
      if SqDist(current, target) > 1.0 {
        moveAnimationId, MoveScheduled := Handle(handle), {handle};
      }
    }

    /** One run of `animation()`: `duration` drops by 8; at zero or below the
        cursor snaps to the target and the animation ends; otherwise it takes
        a Step. */
    method AnimationTick(handle: nat) returns (effects: seq<Effect>)
      requires Animating(duration) && Fresh(handle)
      requires MoveScheduled == {} && moveAnimationId == Null
      requires ScrollScheduled <= Handles(scrollAnimationId)
      requires scrollSpeed == Vec(Decayed(SpeedBase.x, Decays), Decayed(SpeedBase.y, Decays))
      modifies this`duration, this`current, this`moveAnimationId, this`MoveScheduled, this`Ticks
      ensures Valid() && duration == old(duration) - IntervalMs && Ticks == old(Ticks) + 1 && Ticks <= 8
      ensures duration <= 0 ==>
        effects == [SetPosition(target.x, target.y)] && moveAnimationId == Null && current == old(current)
      ensures duration > 0 ==>
        && current == Add(old(current), Vec((target.x - old(current).x) / (duration as real / 8.0),
                                            (target.y - old(current).y) / (duration as real / 8.0)))
        && target.x - current.x == Offset0.x * Remaining(duration)
        && target.y - current.y == Offset0.y * Remaining(duration)
        && effects == [SetPosition(Round(current.x) as real, Round(current.y) as real)]
        && moveAnimationId == (if SqDist(current, target) > 1.0 then Handle(handle) else Null)
    {
      duration, Ticks := duration - IntervalMs, Ticks + 1;
      if duration <= 0 {
        effects := [SetPosition(target.x, target.y)];
        return;
      }
      effects := Step(handle);
    }

    /** What `moveCursor(delta)` with the cursor at `pos` leaves behind: the
        target moved by the normalised delta from the old target while an
        animation was pending, from `pos` otherwise; a new animation from
        `pos` that has taken its first tick (8/52 of the way to the target),
        set the cursor to that point rounded and is pending, on the timer
        `handle`, iff it is more than 1 from the target. */
    twostate predicate CursorMoved(curve: real -> real, delta: Vec, pos: Vec, handle: nat, effects: seq<Effect>)
      reads this
    {
      var n := Vec(Normalized(curve, delta.x), Normalized(curve, delta.y));
      && target == Add(if old(moveAnimationId).Handle? then old(target) else pos, n)
      && Offset0 == Sub(target, pos) && Ticks == 1 && duration == 52
      && current == Add(pos, Vec(Offset0.x * 8.0 / 52.0, Offset0.y * 8.0 / 52.0))
      && effects == [SetPosition(Round(current.x) as real, Round(current.y) as real)]
      && moveAnimationId == (if SqDist(current, target) > 1.0 then Handle(handle) else Null)
    }

    /** `moveCursor(deltaX, deltaY)` with the cursor at `pos`: the normalised
        delta extends the target of a pending animation (whose timer is
        cleared) or is added to `pos`; a fresh animation starts from `pos`
        with duration 60 and its first tick runs at once. */
    method MoveCursor(curve: real -> real, delta: Vec, pos: Vec, handle: nat) returns (effects: seq<Effect>)
      requires Valid() && Fresh(handle)
      modifies this`target, this`duration, this`current, this`moveAnimationId, this`MoveScheduled,
        this`Ticks, this`Offset0
      ensures Valid() && CursorMoved(curve, delta, pos, handle, effects)
    {
      var n := Vec(Normalized(curve, delta.x), Normalized(curve, delta.y));
      if moveAnimationId.Handle? {
        target := Add(target, n);
        moveAnimationId, MoveScheduled := Null, {};
      } else {
        target := Add(pos, n);
      }
      effects := StartAnimation(pos, handle);
    }

    /** The fresh `animation` closure of `moveCursor`: it starts at `pos` with
        duration 60 and takes its first tick at once. */
    method StartAnimation(pos: Vec, handle: nat) returns (effects: seq<Effect>)
      requires moveAnimationId == Null && MoveScheduled == {} && Fresh(handle)
      requires ScrollScheduled <= Handles(scrollAnimationId)
      requires scrollSpeed == Vec(Decayed(SpeedBase.x, Decays), Decayed(SpeedBase.y, Decays))
      modifies this`duration, this`current, this`moveAnimationId, this`MoveScheduled, this`Ticks, this`Offset0
      ensures Valid() && Offset0 == Sub(target, pos) && Ticks == 1 && duration == 52
      ensures current == Add(pos, Vec(Offset0.x * 8.0 / 52.0, Offset0.y * 8.0 / 52.0))
      ensures effects == [SetPosition(Round(current.x) as real, Round(current.y) as real)]
      ensures moveAnimationId == (if SqDist(current, target) > 1.0 then Handle(handle) else Null)
    {
      current, duration := pos, AnimationMs;
      Offset0, Ticks := Sub(target, pos), 0;
      effects := AnimationTick(handle);
      FirstStep(pos, target, current, Offset0);
    }

    /** The animation's `setTimeout` callback. */
    method AnimationFired(handle: nat, next: nat) returns (effects: seq<Effect>)
      requires Valid() && handle in MoveScheduled && Fresh(next)
      modifies this`duration, this`current, this`moveAnimationId, this`MoveScheduled, this`Ticks
      ensures Valid() && duration == old(duration) - IntervalMs && Ticks == old(Ticks) + 1 && Ticks <= 8
      ensures old(duration) == 4 ==>
        effects == [SetPosition(target.x, target.y)] && moveAnimationId == Null && current == old(current)
      ensures old(duration) > 4 ==>
        && current == Add(old(current), Vec((target.x - old(current).x) / (duration as real / 8.0),
                                            (target.y - old(current).y) / (duration as real / 8.0)))
        && target.x - current.x == Offset0.x * Remaining(duration)
        && target.y - current.y == Offset0.y * Remaining(duration)
        && effects == [SetPosition(Round(current.x) as real, Round(current.y) as real)]
        && moveAnimationId == (if SqDist(current, target) > 1.0 then Handle(next) else Null)
    {
      moveAnimationId, MoveScheduled := Null, {};
      effects := AnimationTick(next);
    }

    /** What `handleScroll(delta)` leaves behind: the speed grown by the
        increments and exactly one inertia tick, `handle`, due. */
    twostate predicate ScrollAdded(delta: Vec, handle: nat)
      reads this
    {
      && scrollSpeed == Add(old(scrollSpeed), Vec(ScrollIncrement(delta.x), ScrollIncrement(delta.y)))
      && scrollAnimationId == Handle(handle) && ScrollScheduled == {handle}
    }

    /** `handleScroll`: the increments are added to the speed, a pending
        inertia timer is cleared and `handle` is scheduled. */
    method HandleScroll(delta: Vec, handle: nat)
      requires Valid() && Fresh(handle)
      modifies this`scrollSpeed, this`scrollAnimationId, this`ScrollScheduled, this`SpeedBase, this`Decays
      ensures Valid() && ScrollAdded(delta, handle)
    {
      scrollSpeed := Add(scrollSpeed, Vec(ScrollIncrement(delta.x), ScrollIncrement(delta.y)));
      SpeedBase, Decays := scrollSpeed, 0;
      scrollAnimationId, ScrollScheduled := Handle(handle), {handle};
    }

    /** The inertia `setTimeout` callback: while either speed is non-zero it
        scrolls by the speeds, decays them by 0.9 and schedules `next`;
        otherwise it zeroes them and stops. */
    method ScrollFired(handle: nat, next: nat) returns (effects: seq<Effect>)
      requires Valid() && handle in ScrollScheduled && Fresh(next)
      modifies this`scrollSpeed, this`scrollAnimationId, this`ScrollScheduled, this`Decays
      ensures Valid()
      ensures old(scrollSpeed) != Zero ==>
        && effects == [ScrollUp(old(scrollSpeed).y), ScrollRight(old(scrollSpeed).x)]
        && scrollSpeed == Vec(old(scrollSpeed).x * Inertia, old(scrollSpeed).y * Inertia)
        && scrollAnimationId == Handle(next) && ScrollScheduled == {next}
      ensures old(scrollSpeed) == Zero ==>
        && effects == [] && scrollSpeed == Zero
        && scrollAnimationId == old(scrollAnimationId) && ScrollScheduled == {}
    {
      if Abs(scrollSpeed.x) > 0.0 || Abs(scrollSpeed.y) > 0.0 {
        effects := [ScrollUp(scrollSpeed.y), ScrollRight(scrollSpeed.x)];
        scrollSpeed := Vec(scrollSpeed.x * Inertia, scrollSpeed.y * Inertia);
        Decays := Decays + 1;
        scrollAnimationId, ScrollScheduled := Handle(next), {next};
      } else {
        effects := [];
        scrollSpeed := Zero;
        ScrollScheduled := {};
      }
    }

    /** The `message` handler for one incoming message with the cursor at
        `pos`: a malformed message and the types without a host action leave
        everything as it was, `move` and `scroll` go to the animations, and
        every other type has its fixed effects. `handle` is the timer handle
        a `move` or `scroll` may need. */
    method Message(curve: real -> real, inbound: Inbound, pos: Vec, handle: nat) returns (effects: seq<Effect>)
      requires Valid() && Fresh(handle)
      modifies this
      ensures Valid()
      ensures inbound.Malformed? ==> effects == [] && unchanged(this)
      ensures inbound.Parsed? && Route(inbound.frame.kind) == MoveHandler ==>
        var f := inbound.frame;
        CursorMoved(curve, Vec(f.deltaX, f.deltaY), pos, handle, effects)
        && unchanged(this`scrollSpeed, this`scrollAnimationId, this`ScrollScheduled, this`SpeedBase, this`Decays)
      ensures inbound.Parsed? && Route(inbound.frame.kind) == ScrollHandler ==>
        var f := inbound.frame;
        && effects == [] && ScrollAdded(Vec(f.deltaX, f.deltaY), handle)
        && unchanged(this`target, this`duration, this`current, this`moveAnimationId, this`MoveScheduled,
                     this`Ticks, this`Offset0)
      ensures inbound.Parsed? && Route(inbound.frame.kind) !in {MoveHandler, ScrollHandler} ==>
        effects == StatelessEffects(Route(inbound.frame.kind), inbound.frame, pos) && unchanged(this)
    {
      if inbound.Malformed? {
        return [];
      }
      var f := inbound.frame;
      var h := Route(f.kind);
      if h == MoveHandler {
        effects := MoveCursor(curve, Vec(f.deltaX, f.deltaY), pos, handle);
      } else if h == ScrollHandler {
        HandleScroll(Vec(f.deltaX, f.deltaY), handle);
        effects := [];
      } else {
        effects := StatelessEffects(h, f, pos);
      }
    }
  }
}
