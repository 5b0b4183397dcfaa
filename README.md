# remote-control, modelled in Dafny

The system turns a phone into a touch pad for a computer. On the phone,
`createTouchHandler` turns touch events into gesture callbacks:
- a one-finger drag becomes `move`;
- two fingers become `scroll`;
- taps become `click` or `rightClick`;
- a long press becomes `mouseDown`/`mouseUp`.

`useServer` throttles and accumulates these callbacks. It rounds their deltas and
sends them as JSON messages over a web socket. On the computer, the socket
handler in `server/routes/ws.ts` dispatches on the message type:
- it animates the cursor towards a moving target;
- it gives scrolling an inertia with decay 0.9;
- it clicks, presses buttons and taps media keys.

Each of the three core files is a closure or a module over mutable
variables. Each of them is a Dafny class whose methods change its fields:

| file | module / class | what it holds |
|---|---|---|
| `geometry.dfy` | `Geometry` | `Math.abs`, `Math.sign`, `Math.round` (as `floor(x + 1/2)`, which is what JavaScript does), points and squared distances |
| `timers.dfy` | `Timers` | a timer variable: `null` or the handle `setTimeout` returned |
| `wire.dfy` | `Wire` | the message record shared by both ends and the result of `JSON.parse` |
| `touch_handler.dfy` | `TouchHandler.Recognizer` | the gesture recogniser; a call returns the callbacks it makes |
| `use_server.dfy` | `Client.Remote` | the throttles and accumulators; a call returns the messages it sends |
| `ws_server.dfy` | `Server.Motion` | the scroll speed, the cursor target, the timers and the live animation; a call returns the driver calls it makes |
| `protocol.dfy` | `Protocol` | the two ends together |

Representation choices:
- **Time and timers.** The clock is a `now` argument in milliseconds. Every
  `setTimeout` callback is a method. The long-press and animation callbacks
  are given the handle of the timer that fires, and ghost sets of scheduled
  handles record which of them may still run. The throttle's callback is
  given the key it unblocks.
- **Coordinates.** A pair of closure variables `fooX`, `fooY` is one field
  `foo` of type `Vec`. Coordinates are reals.
- **Invariants.** Ghost tallies prove that no movement is lost in the
  gesture recogniser, and none after the throttle in the client; the
  throttle itself drops the deltas of the calls it blocks. Ghost counters
  prove how the host's animations evolve.

The model follows the code in these places:
- A touch start does not reset the accumulators.
- The end of a long press does not flush the residual movement.
- A two-finger tap is measured against the centroid stored by the latest
  move, not the one of the start.
- A throttle key is blocked after every call that gets through, whether or
  not it sent a message.
- The inertia loop stops only when both speeds are exactly zero.
- A scroll message always cancels and replaces the pending inertia timer.

## Model

| member | source | states |
|---|---|---|
| Geometry.Sign | app/server/routes/ws.ts:72-73 | `Math.sign` is -1, 0 or 1, is 0 exactly at 0, is positive exactly for positive inputs, and times the magnitude gives back the input |
| Geometry.Abs | app/composables/createTouchHandler.ts:70 | `Math.abs` is the non-negative one of `x` and `-x` |
| Geometry.SqDist | app/server/routes/ws.ts:117-119 | the squared distance, compared in place of `Math.sqrt`: never negative, and zero for equal points |
| Geometry.CloseOnBothAxes | app/composables/createTouchHandler.ts:127-129 | two points closer than `t` are within `t` of each other on each axis |
| Geometry.ExceedsUnit | app/composables/createTouchHandler.ts:70 | the gate "`Math.abs(x) > 1` or `Math.abs(y) > 1`" holds exactly when the vector leaves the square `[-1, 1] x [-1, 1]` |
| Timers.Handles | app/composables/createTouchHandler.ts:103-106 | a timer variable refers to no timer when `null` and to exactly its handle otherwise |
| Geometry.Round | app/composables/useServer.ts:19 | `Math.round` gives the integer within one half below and at most one half above the input |
| TouchHandler.Midpoint | app/composables/createTouchHandler.ts:48-49 | the centroid of two touches lies halfway: it is as far from the first as the second is from it |
| TouchHandler.IsTap | app/composables/createTouchHandler.ts:125-131 | a one-finger lift is a tap only within 10 of the start point on each axis, and a lift at the start point is always one |
| TouchHandler.IsTwoFingerTap | app/composables/createTouchHandler.ts:116-123 | a two-finger lift is a tap only within 10 of the stored centroid on each axis and under 300 ms; at the centroid itself exactly the duration decides |
| TouchHandler.PanTelescopes | app/composables/createTouchHandler.ts:77-88 | the `scroll` deltas of successive two-finger moves sum to the displacement from the start centroid to the last one (proved by induction) |
| TouchHandler.Recognizer.constructor | app/composables/createTouchHandler.ts:12-29 | the last point, the start point, the stored centroid, the accumulation and both times start at zero, with no drag, no gesture, no long press and no timer |
| TouchHandler.Recognizer.HandleTouchStart | app/composables/createTouchHandler.ts:31-52 | always starts dragging. One finger stores the point as the last and the start position and arms the long-press timer; the timer is the only one due if none was before. Two fingers set the gesture flag, its start time and the centroid. Any other count changes nothing else. The conservation invariant is kept and the accumulators are not reset |
| TouchHandler.Recognizer.ClearLongPressTimer | app/composables/createTouchHandler.ts:90-93 | the timer reference becomes null and its callback is no longer due; if there was at most one timer, none is due now |
| TouchHandler.Recognizer.Drag | app/composables/createTouchHandler.ts:60-76 | the frame delta is added to the accumulation. `move` with the whole accumulation is called and the accumulation reset iff more than 50 ms passed since the last `move` and a component exceeds 1. Otherwise nothing is called and the time of the last move is kept. What was dragged always equals what was sent plus what is accumulated |
| TouchHandler.Recognizer.SendAccumulated | app/composables/createTouchHandler.ts:71-74 | exactly one `move` carrying the accumulation, then the accumulation is zero; the sent tally grows by it |
| TouchHandler.Recognizer.Pan | app/composables/createTouchHandler.ts:77-88 | exactly one `scroll` carrying the centroid's frame delta, and the centroid is stored; the stored centroid stays the start centroid plus every scroll since |
| TouchHandler.Recognizer.HandleTouchMove | app/composables/createTouchHandler.ts:54-96 | without a live gesture the call is a no-op. Otherwise one finger drags, two fingers pan and other counts call nothing. The long-press timer is cleared in every case, and only the state of the branch taken changes |
| TouchHandler.Recognizer.FlushMove | app/composables/createTouchHandler.ts:134-138 | a residual accumulation over 1 on an axis is sent with one `move` and reset; a smaller one is kept and nothing is called |
| TouchHandler.Recognizer.TapCalls | app/composables/createTouchHandler.ts:114-132 | `rightClick` iff the gesture had two fingers, the end centroid is closer than 10 to the stored centroid and it lasted under 300 ms. `click` iff it had one finger and the lift point is closer than 10 to the start |
| TouchHandler.Recognizer.HandleTouchEnd | app/composables/createTouchHandler.ts:98-144 | dragging stops and the long-press timer is cleared. A held long press calls only `mouseUp` and keeps the accumulation. Otherwise the tap, if any, comes first, then the flush of a residual movement. The scroll flush cannot happen, because that accumulator is always zero |
| TouchHandler.Recognizer.LongPressFired | app/composables/createTouchHandler.ts:41-44 | a due long-press callback sets the long-press flag and calls exactly `mouseDown`. It is then no longer due, and with at most one timer it was the current one |
| Client.Pow10 | app/composables/useServer.ts:19 | `10 ** precision` is at least 1 |
| Client.Pow10Whole | app/composables/useServer.ts:19 | `10 ** precision` is a whole number (proved by induction) |
| Client.FormatDelta | app/composables/useServer.ts:18-20 | `formatDelta(d, p)` is within `0.5 / 10^p` of `d` |
| Client.FormatDeltaExact | app/composables/useServer.ts:18-20 | a value with at most `p` decimals is returned unchanged |
| Client.FormatDeltaIdempotent | app/composables/useServer.ts:18-20 | formatting twice equals formatting once |
| Client.FormatDeltaHalves | app/composables/useServer.ts:18-20 | halves round towards plus infinity, also for negative deltas (0.125 gives 0.13, -0.125 gives -0.12) |
| Client.MoveFrame | app/composables/useServer.ts:36 | a `move` message whose deltas are within 0.005 of the accumulation |
| Client.ScrollFrame | app/composables/useServer.ts:54 | a `scroll` message whose deltas are within 0.05 of the accumulation |
| Client.Click | app/composables/useServer.ts:46-48 | one `click` message for the `left` button |
| Client.SendKey | app/composables/useServer.ts:64-66 | one `key` message naming the key |
| Client.RightClick | app/composables/useServer.ts:68-70 | one `rightClick` message without payload |
| Client.MouseDown | app/composables/useServer.ts:72-74 | one `mouseDown` message without payload |
| Client.MouseUp | app/composables/useServer.ts:76-78 | one `mouseUp` message without payload |
| Client.Log | app/composables/useServer.ts:80-82 | one `log` message carrying the text |
| Client.Remote.constructor | app/composables/useServer.ts:23-26 | no key is throttled and the accumulators are zero |
| Client.Remote.Blocked | app/composables/useServer.ts:8-10 | a key is blocked iff its entry in the table is true; a key with no entry is not blocked |
| Client.Remote.Move | app/composables/useServer.ts:32-40 | a call while `move` is throttled sends nothing and changes nothing. Otherwise the delta is accumulated; an accumulation over 1 on an axis is sent as one `move` and reset; the key is blocked whether or not something was sent. Executed deltas always equal sent plus accumulated |
| Client.Remote.Scroll | app/composables/useServer.ts:50-58 | the same rule for `scroll`, with its own key, accumulator and one decimal |
| Client.Remote.UnblockFired | app/composables/useServer.ts:12-14 | the throttle timer unblocks its own key and leaves every other key as it was |
| Server.Route | app/server/routes/ws.ts:20-49 | the nine message types reach their own branch; any other type reaches the default branch |
| Server.RouteKindOf | app/server/routes/ws.ts:20-49 | each branch is reached by its own type and by no other |
| Server.StatelessEffects | app/server/routes/ws.ts:20-50 | `log` and an unknown type have no effect; the other branches without state have effects unless a key name is unknown |
| Server.MoveCursorUp | app/server/routes/ws.ts:65-68 | `move_up` sets the cursor to `(x, y - 10)` of the reported position |
| Server.ButtonFor | app/server/routes/ws.ts:121-124 | `'left'` selects the left button, every other string the right one |
| Server.HandleClick | app/server/routes/ws.ts:121-124 | exactly one click, of the left button iff the message names `'left'` |
| Server.HandleRightClick | app/server/routes/ws.ts:173-175 | exactly one click, of the right button |
| Server.HandleMouseDown | app/server/routes/ws.ts:177-179 | exactly one press, of the left button |
| Server.HandleMouseUp | app/server/routes/ws.ts:181-183 | exactly one release, of the left button |
| Server.KeyFor | app/server/routes/ws.ts:152-167 | exactly the three media key names are known |
| Server.KeyForInjective | app/server/routes/ws.ts:154-163 | distinct names select distinct keys |
| Server.KeyEffects | app/server/routes/ws.ts:152-171 | a known key is pressed and then released; an unknown name has no effect |
| Server.Min | app/server/routes/ws.ts:127-128 | `Math.min` is one of its arguments and at most both |
| Server.ScrollIncrement | app/server/routes/ws.ts:127-128 | the increment has the sign of the delta, is at most 500 in magnitude, is five times the delta up to 100 and is exactly 500 in magnitude from 100 on |
| Server.Normalized | app/server/routes/ws.ts:72-73 | zero stays zero, and a non-zero delta gets the curve of its magnitude as magnitude |
| Server.NormalizedSign | app/server/routes/ws.ts:72-73 | the normalised delta is 0 for 0 and keeps the sign of the delta |
| Server.DecayedClosedForm | app/server/routes/ws.ts:140-141 | after `n` ticks the speed is `speed * 0.9^n` (proved by induction) |
| Server.DecayedNeverStops | app/server/routes/ws.ts:137-146 | the decayed speed keeps the sign of the initial speed and never grows, so a non-zero speed never reaches the stopping branch |
| Server.StepOffset | app/server/routes/ws.ts:98-103 | a stepped tick at duration `d` turns an offset still to go of `d/52` of the initial offset into `(d - 8)/52` of it |
| Server.LastStepOvershoots | app/server/routes/ws.ts:98-100 | the last stepped tick (duration 4) leaves minus one thirteenth of the initial offset, overshooting the target |
| Server.Motion.constructor | app/server/routes/ws.ts:3-8 | speeds and target zero, no timer |
| Server.Motion.Step | app/server/routes/ws.ts:98-111 | the cursor moves by the distance over `duration / 8` and is set rounded. The offset follows the closed form. The next tick is scheduled iff the squared distance left exceeds 1; otherwise the id stays null |
| Server.Motion.AnimationTick | app/server/routes/ws.ts:85-112 | the duration drops by 8. At zero or below the cursor snaps to the unrounded target and the animation ends; otherwise it takes a step. At most 8 ticks happen |
| Server.Motion.MoveCursor | app/server/routes/ws.ts:70-115 | the target is extended while an animation is pending and reset to the position plus the normalised delta otherwise. A new animation starts from the position with duration 60; its first tick runs at once and sets the cursor, rounded, 8/52 of the way to the target; the new timer is stored iff the cursor is more than 1 away |
| Server.Motion.StartAnimation | app/server/routes/ws.ts:83-114 | a fresh animation from the position: after its first tick the duration is 52, the cursor is 8/52 of the way to the target and set rounded, and the id is the new timer iff it is more than 1 away, `null` otherwise |
| Server.Motion.AnimationFired | app/server/routes/ws.ts:86-111 | the duration drops by 8. A due tick at duration 4 snaps to the target, leaves the point where it was and ends the animation; a tick at a larger duration moves the point by the distance over `duration / 8`, keeps the offset's closed form, sets the cursor rounded and stores the next timer iff more than 1 is left |
| Server.Motion.HandleScroll | app/server/routes/ws.ts:126-150 | the speed grows by the increments and exactly one inertia tick is due |
| Server.Motion.ScrollFired | app/server/routes/ws.ts:136-147 | a non-zero speed scrolls vertically and then horizontally by the speeds, decays by 0.9 and schedules the next tick; a zero speed stops with nothing due |
| Server.Motion.Message | app/server/routes/ws.ts:15-54 | a malformed message, `log` and unknown types change nothing. `move` and `scroll` reach the animations and leave the other one alone. The other types have their fixed effects |
| Protocol.ClientFramesRoute | app/server/routes/ws.ts:20-47 | every message the client builds reaches the host branch of its own type |
| Protocol.ClicksAgree | app/composables/useServer.ts:46-78 | a phone click is a left click on the host, a right click a right click, and `mouseDown`/`mouseUp` press and release the left button |
| Protocol.KeysAgree | app/server/routes/ws.ts:152-171 | for every key name the phone sends, the host does exactly the key table's effects: the three media keys are pressed and released, and any other name does nothing |

## Left out

- The web socket itself, reconnection, and `JSON.stringify`/`JSON.parse`: a message is a record. The parse error caught by the handler is the `Malformed` input.
- Payload fields that are missing or of the wrong type (`undefined`, `NaN`): every field of a parsed message has its declared type.
- The mouse and keyboard driver: its calls are returned as effects, and the position it reports is an argument.
- Exceptions thrown by the driver are not modelled.
- `console.log` and `console.error` output is not modelled.
- Real timers and the event loop: every callback is a method, and the `await`s of the handlers do not interleave.
- The delays themselves (300 ms for the long press, 50 ms for the throttles, 16 ms for the inertia, 8 ms for the animation) are not modelled: a callback may run at any point after it was scheduled and before it is cleared, which covers every timing the delays allow.
- Floating point: coordinates, deltas and speeds are exact reals. Because of that, the inertia loop never stops once its speed is non-zero, whereas floats underflow to zero. The model proves it never stops rather than that it eventually stops.
- Server.Normalized: `** 1.2` is the function argument `curve`. The only property of it that is used is positivity on positive magnitudes, which is all the direction lemma needs.
- `Math.sqrt(s) < 10` and `Math.sqrt(s) > 1` are compared as `s < 100` and `s > 1`, which is the same test for the non-negative squared distance `s`.
- `touchStartTime`, `lastTouchDistance` and `getTouchDistance` are computed but never read, so they are not modelled.
- The `log` callback of `createTouchHandler` is never called.
- TouchHandler.Recognizer.HandleTouchEnd: requires at least one remaining touch when a two-finger gesture ends, because the code reads `event.touches[0]` there. When both fingers lift at once that read throws.
- TouchHandler.Recognizer.HandleTouchStart: a one-finger start while a long-press timer is pending overwrites the handle without clearing the timer, so the old callback can still fire. The model keeps both due, and proves the at-most-one-timer property only for a start with none pending.
- Client.Remote: one instance of `useServer` owns the throttle table. In the code that table lives at module level and is shared by every instance.
- Client.Remote.Move: the deltas of a call dropped by the throttle are lost. The conservation invariant counts only the calls that got through.
- Touch cancellation (`touchcancel`) and the `preventDefault` calls are not modelled.
- The Nuxt configuration and the pages that wire the handler to the connection are not part of this model.
