/** The phone-side connection (`useServer`): it turns the gesture callbacks
    into web-socket messages. `move` and `scroll` go through a per-key
    throttle and an accumulator, and their deltas are rounded by
    `formatDelta` before they are sent; the other callbacks each send one
    message. A call's result is the list of frames it sends. */
module Client {
  import opened Geometry
  import opened Wire

  const MovePrecision := 2
  const ScrollPrecision := 1

  /** `10 ** precision`. */
  function Pow10(p: nat): (r: real)
    ensures r >= 1.0
  {
    if p == 0 then 1.0 else 10.0 * Pow10(p - 1)
  }

  /** `10 ** precision` is a whole number: it is ten times the whole number
      of the precision below. */
  lemma {:induction false} Pow10Whole(p: nat)
    ensures Pow10(p) == Pow10(p).Floor as real
  {
    if p > 0 {
      Pow10Whole(p - 1);
      var n := Pow10(p - 1).Floor;
      assert Pow10(p) == (10 * n) as real;
    }
  }

  /** `delta * 10 ** precision`, a function of its own so that the solver
      unfolds `Pow10` inside the product once, in the same way everywhere. */
  function Scaled(delta: real, precision: nat): real
  {
    delta * Pow10(precision)
  }

  /** `formatDelta`: `Math.round(delta * 10 ** precision) / 10 ** precision`,
      which is within half a unit of the last kept digit of `delta`. */
  function FormatDelta(delta: real, precision: nat): (r: real)
    ensures Abs(r - delta) <= 0.5 / Pow10(precision)
  {
    ScaledError(delta, Pow10(precision), Round(Scaled(delta, precision)) as real);
    Round(Scaled(delta, precision)) as real / Pow10(precision)
  }

  /** Dividing a gap of at most one half by a scale of at least one. */
  lemma HalfOver(e: real, s: real)
    requires s >= 1.0 && -0.5 < e <= 0.5
    ensures -0.5 / s < e / s <= 0.5 / s
  {
  }

  /** Moving a term across a division. */
  lemma DivShift(r: real, d: real, s: real)
    requires s >= 1.0
    ensures r / s - d == (r - d * s) / s
  {
    assert (d * s) / s == d;
  }

  /** Scaling back what was divided. */
  lemma DivMul(a: real, s: real)
    requires s >= 1.0
    ensures (a / s) * s == a
  {
  }

  /** An integer within one half of `x * s`, scaled back, is within
      `0.5 / s` of `x`. */
  lemma ScaledError(x: real, s: real, r: real)
    requires s >= 1.0 && x * s - 0.5 < r <= x * s + 0.5
    ensures Abs(r / s - x) <= 0.5 / s
  {
    DivShift(r, x, s);
    HalfOver(r - x * s, s);
  }

  /** A value that already has at most `precision` decimals is kept. */
  lemma FormatDeltaExact(n: int, precision: nat)
    ensures FormatDelta(n as real / Pow10(precision), precision) == n as real / Pow10(precision)
  {
    var s := Pow10(precision);
    var x := n as real / s;
    assert Scaled(x, precision) == x * s;
    DivMul(n as real, s);
    assert Scaled(x, precision) == n as real;
    RoundInteger(n);
    assert FormatDelta(x, precision) == n as real / s;
  }

  /** Formatting twice is formatting once. */
  lemma FormatDeltaIdempotent(delta: real, precision: nat)
    ensures FormatDelta(FormatDelta(delta, precision), precision) == FormatDelta(delta, precision)
  {
    FormatDeltaExact(Round(Scaled(delta, precision)), precision);
  }

  /** Halves round up, as `Math.round` does, also below zero. */
  lemma FormatDeltaHalves()
    ensures FormatDelta(0.125, 2) == 0.13 && FormatDelta(-0.125, 2) == -0.12
    ensures FormatDelta(2.25, 1) == 2.3 && FormatDelta(-2.25, 1) == -2.2
  {
    assert Pow10(2) == 100.0 && Pow10(1) == 10.0;
  }

  /** The `move` message for an accumulation; each delta is off by at most 0.005. */
  function MoveFrame(acc: Vec): (f: Frame)
    ensures f.kind == "move"
    ensures Abs(f.deltaX - acc.x) <= 0.005 && Abs(f.deltaY - acc.y) <= 0.005
  {
    assert Pow10(MovePrecision) == 100.0;
    Frame("move", FormatDelta(acc.x, MovePrecision), FormatDelta(acc.y, MovePrecision), "", "", "")
  }

  /** The `scroll` message for an accumulation; each delta is off by at most 0.05. */
  function ScrollFrame(acc: Vec): (f: Frame)
    ensures f.kind == "scroll"
    ensures Abs(f.deltaX - acc.x) <= 0.05 && Abs(f.deltaY - acc.y) <= 0.05
  {
    assert Pow10(ScrollPrecision) == 10.0;
    Frame("scroll", FormatDelta(acc.x, ScrollPrecision), FormatDelta(acc.y, ScrollPrecision), "", "", "")
  }

  /** `click`: a `click` message for the left button. */
  function Click(): (f: Frame)
    ensures f.kind == "click" && f.button == "left"
  {
    Frame("click", 0.0, 0.0, "left", "", "")
  }

  /** `sendKey`: a `key` message naming `key`. */
  function SendKey(key: string): (f: Frame)
    ensures f.kind == "key" && f.key == key
  {
    Frame("key", 0.0, 0.0, "", key, "")
  }

  /** `rightClick`, `mouseDown`, `mouseUp`: messages without payload. */
  function RightClick(): (f: Frame)
    ensures f.kind == "rightClick" && f == Bare(f.kind)
  {
    Bare("rightClick")
  }

  function MouseDown(): (f: Frame)
    ensures f.kind == "mouseDown" && f == Bare(f.kind)
  {
    Bare("mouseDown")
  }

  function MouseUp(): (f: Frame)
    ensures f.kind == "mouseUp" && f == Bare(f.kind)
  {
    Bare("mouseUp")
  }

  /** `log`: a `log` message carrying `message`. */
  function Log(message: string): (f: Frame)
    ensures f.kind == "log" && f.message == message
  {
    Frame("log", 0.0, 0.0, "", "", message)
  }

  /** One `useServer()` instance together with the module-level throttle
      table. A key of `throttleTimeouts` maps to true while it holds a
      pending timeout and to false once that timeout has run. */
  class Remote {
    var throttleTimeouts: map<string, bool>
    var accumulatedDelta: Vec
    var accumulatedScrollDelta: Vec

    /** The sum of the deltas that reached the body of the throttled `move`,
        and the sum of the unrounded accumulations it sent. */
    ghost var Executed: Vec
    ghost var SentRaw: Vec
    /** The same two sums for `scroll`. */
    ghost var ScrollExecuted: Vec
    ghost var ScrollSentRaw: Vec

    /** `throttleTimeouts[key]` is truthy: calls under `key` are dropped. */
    predicate Blocked(key: string)
      reads this
      ensures key !in throttleTimeouts ==> !Blocked(key)
      ensures key in throttleTimeouts ==> (Blocked(key) <==> throttleTimeouts[key])
    {
      key in throttleTimeouts && throttleTimeouts[key]
    }

    /** No delta that got past a throttle is lost: it was sent or it is
        still accumulated. */
    ghost predicate Valid()
      reads this
    {
      && Add(SentRaw, accumulatedDelta) == Executed
      && Add(ScrollSentRaw, accumulatedScrollDelta) == ScrollExecuted
    }

    constructor ()
      ensures Valid() && throttleTimeouts == map[]
      ensures accumulatedDelta == Zero && accumulatedScrollDelta == Zero
      ensures Executed == Zero && ScrollExecuted == Zero
    {
      throttleTimeouts := map[];
      accumulatedDelta, accumulatedScrollDelta := Zero, Zero;
      Executed, SentRaw, ScrollExecuted, ScrollSentRaw := Zero, Zero, Zero, Zero;
    }

    /** `move` (the throttled function under key `'move'`). A call while the
        key is blocked does nothing at all; otherwise the delta is
        accumulated, an accumulation over one unit is sent rounded to two
        decimals and reset, and the key is blocked whether or not anything
        was sent. */
    method Move(delta: Vec) returns (frames: seq<Frame>)
      requires Valid()
      modifies this`throttleTimeouts, this`accumulatedDelta, this`Executed, this`SentRaw
      ensures Valid()
      ensures old(Blocked("move")) ==> frames == [] && unchanged(this)
      ensures !old(Blocked("move")) ==>
        var acc := Add(old(accumulatedDelta), delta);
        && throttleTimeouts == old(throttleTimeouts)["move" := true]
        && Executed == Add(old(Executed), delta)
        && frames == (if ExceedsUnit(acc) then [MoveFrame(acc)] else [])
        && accumulatedDelta == (if ExceedsUnit(acc) then Zero else acc)
        && SentRaw == (if ExceedsUnit(acc) then Add(old(SentRaw), acc) else old(SentRaw))
    {
      frames := [];
      if Blocked("move") {
        return;
      }
      accumulatedDelta, Executed := Add(accumulatedDelta, delta), Add(Executed, delta);
      if ExceedsUnit(accumulatedDelta) {
        frames := [MoveFrame(accumulatedDelta)];
        SentRaw := Add(SentRaw, accumulatedDelta);
        accumulatedDelta := Zero;
      }
      throttleTimeouts := throttleTimeouts["move" := true];
    }

    /** `scroll` (the throttled function under key `'scroll'`): the same rule
        with its own accumulator and one decimal. */
    method Scroll(delta: Vec) returns (frames: seq<Frame>)
      requires Valid()
      modifies this`throttleTimeouts, this`accumulatedScrollDelta, this`ScrollExecuted, this`ScrollSentRaw
      ensures Valid()
      ensures old(Blocked("scroll")) ==> frames == [] && unchanged(this)
      ensures !old(Blocked("scroll")) ==>
        var acc := Add(old(accumulatedScrollDelta), delta);
        && throttleTimeouts == old(throttleTimeouts)["scroll" := true]
        && ScrollExecuted == Add(old(ScrollExecuted), delta)
        && frames == (if ExceedsUnit(acc) then [ScrollFrame(acc)] else [])
        && accumulatedScrollDelta == (if ExceedsUnit(acc) then Zero else acc)
        && ScrollSentRaw == (if ExceedsUnit(acc) then Add(old(ScrollSentRaw), acc) else old(ScrollSentRaw))
    {
      frames := [];
      if Blocked("scroll") {
        return;
      }
      accumulatedScrollDelta, ScrollExecuted := Add(accumulatedScrollDelta, delta), Add(ScrollExecuted, delta);
      if ExceedsUnit(accumulatedScrollDelta) {
        frames := [ScrollFrame(accumulatedScrollDelta)];
        ScrollSentRaw := Add(ScrollSentRaw, accumulatedScrollDelta);
        accumulatedScrollDelta := Zero;
      }
      throttleTimeouts := throttleTimeouts["scroll" := true];
    }

    /** The throttle's `setTimeout` callback for `key`, `wait` ms after the
        call that blocked it: it unblocks that key and no other. */
    method UnblockFired(key: string)
      requires Valid() && Blocked(key)
      modifies this`throttleTimeouts
      ensures Valid()
      ensures throttleTimeouts == old(throttleTimeouts)[key := false]
      ensures !Blocked(key)
      ensures forall k :: k != key ==> (Blocked(k) <==> old(Blocked(k)))
    {
      throttleTimeouts := throttleTimeouts[key := false];
    }
  }
}
