/** The values `setTimeout` hands out: a variable holding a timer is `null`
    or the handle of one. Each timer callback is a method of the class that
    owns the timer, called with the handle of the timer that fires. */
module Timers {

  /** A variable of the form `let t: NodeJS.Timeout | null`. The handle is
      kept after the callback ran, until the code clears it. */
  datatype TimerRef = Null | Handle(id: nat)

  /** The handles a timer variable refers to: none or one. */
  function Handles(t: TimerRef): (r: set<nat>)
    ensures t.Null? <==> r == {}
    ensures t.Handle? ==> r == {t.id}
  {
    if t.Handle? then {t.id} else {}
  }
}
