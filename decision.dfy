/**
 * The branch conditions of one control-loop iteration, lifted out as pure
 * functions. Instants (`now`, sunrise, sunset) are integers counting
 * microseconds on one time line; the time of day is microseconds since
 * local midnight.
 */
module Decision {
  import opened Optional
  import opened Records

  /** `sunrise`, `sunset` and `sunset_with_buffer` of one calendar date. */
  datatype SolarWindow = SolarWindow(sunrise: int, sunset: int, sunsetWithBuffer: int)

  /** What an iteration asks of the door. `EarliestOpenUnset` is the
      AttributeError raised by reading `earliest_open_time` before any
      successful parse assigned it. */
  datatype Decision = NoAction | OpenAction | CloseAction | EarliestOpenUnset

  predicate InWindow(now: int, w: SolarWindow) {
    w.sunrise < now < w.sunsetWithBuffer
  }

  /** The if/elif/elif/else chain of auto mode, with Python's left-to-right
      short-circuit: `earliest_open_time` is read only once `now` is
      strictly inside the window. */
  function AutoDecision(now: int, timeOfDay: int, w: SolarWindow,
                        earliest: Option<int>, state: Option<DoorState>): (d: Decision)
    ensures d == CloseAction <==>
      state == Some(Open) && (now < w.sunrise || w.sunsetWithBuffer < now)
    ensures d == OpenAction <==>
      state == Some(Closed) && InWindow(now, w) && earliest.Some? && timeOfDay > earliest.value
    ensures d == EarliestOpenUnset <==> InWindow(now, w) && earliest.None?
    // at the boundaries of a non-degenerate window nothing happens
    ensures w.sunrise <= w.sunsetWithBuffer && (now == w.sunrise || now == w.sunsetWithBuffer)
      ==> d == NoAction
  {
    if now < w.sunrise && state == Some(Open) then CloseAction
    else if InWindow(now, w) && earliest.None? then EarliestOpenUnset
    else if InWindow(now, w) && timeOfDay > earliest.value && state == Some(Closed) then OpenAction
    else if w.sunsetWithBuffer < now && state == Some(Open) then CloseAction
    else NoAction
  }

  /** Manual mode: the record read back is a command when it differs from
      the in-memory state. A junk record (`None`) commands nothing. */
  function ManualDecision(saved: Option<DoorState>, state: Option<DoorState>): (d: Decision)
    ensures d == OpenAction <==> saved == Some(Open) && state != Some(Open)
    ensures d == CloseAction <==> saved == Some(Closed) && state != Some(Closed)
    ensures d != EarliestOpenUnset
  {
    if saved != state then
      if saved == Some(Open) then OpenAction
      else if saved == Some(Closed) then CloseAction
      else NoAction
    else NoAction
  }

  /** After the door was moved as decided, the same inputs decide nothing:
      each action falsifies the condition that triggered it. */
  lemma AutoDecisionSettles(now: int, timeOfDay: int, w: SolarWindow,
                            earliest: Option<int>, state: Option<DoorState>)
    ensures var d := AutoDecision(now, timeOfDay, w, earliest, state);
      (d == OpenAction ==> AutoDecision(now, timeOfDay, w, earliest, Some(Open)) == NoAction) &&
      (d == CloseAction ==> AutoDecision(now, timeOfDay, w, earliest, Some(Closed)) == NoAction)
  {
  }
}
