/** A digital output pin as seen from outside: the sequence of levels it was
    driven to, each with the time in microseconds it stayed at that level
    before the next `gpio_set_level`, counting busy waits and task delays
    alike.  The last segment of a trace is still open: its time is what has
    elapsed so far, so a final 0 says the firmware has not yet waited since
    setting that level. */
module Gpio {

  datatype Level = Low | High

  /** `gpio_set_level(pin, level)` followed by a busy wait of `us` microseconds
      (0 when the next pin operation follows at once). */
  datatype Segment = Segment(level: Level, us: nat)

  /** The trace after `us` more microseconds without a pin operation: the
      open last segment lasts that much longer.  A pin never driven has no
      level to hold. */
  function Held(trace: seq<Segment>, us: nat): (r: seq<Segment>)
    ensures |r| == |trace|
    ensures forall i :: 0 <= i < |r| ==> r[i].level == trace[i].level
    ensures forall i :: 0 <= i < |r| - 1 ==> r[i] == trace[i]
    ensures trace != [] ==> r[|r| - 1].us == trace[|trace| - 1].us + us
  {
    if trace == [] then []
    else trace[..|trace| - 1] + [Segment(trace[|trace| - 1].level, trace[|trace| - 1].us + us)]
  }

  class OutputPin {
    var trace: seq<Segment>

    constructor ()
      ensures trace == []
    {
      trace := [];
    }

    /** Set the level, then hold it for `us` microseconds. */
    method Drive(level: Level, us: nat)
      modifies this
      ensures trace == old(trace) + [Segment(level, us)]
    {
      trace := trace + [Segment(level, us)];
    }

    /** Leave the pin untouched for `us` microseconds (`vTaskDelay`). */
    method Wait(us: nat)
      modifies this
      ensures trace == Held(old(trace), us)
    {
      trace := Held(trace, us);
    }
  }
}
