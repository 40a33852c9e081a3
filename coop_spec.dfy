/**
 * The controller's state and every operation on it, as functions from the
 * state before a call to the state after it (and the call's result). The
 * class in module Coop runs the same operations step by step and is proved
 * to agree with these functions; the lemmas here state what the operations
 * promise across calls.
 */
module CoopSpec {
  import opened Optional
  import opened Records
  import opened EarliestOpen
  import opened Decision

  /** The configuration the loop reads: `BUFFER_AFTER_SUNSET` (seconds) and
      `EARLIEST_OPEN` ("" when unset or null, both falsy in Python). */
  datatype Config = Config(bufferAfterSunset: int, earliestOpen: string)

  /** One reading of the clock: `now` as an instant, its local time of day,
      and `datetime.date.today()` as a day number. */
  datatype Clock = Clock(now: int, timeOfDay: int, date: int)

  /** What the sun calculator yields for the current date. */
  datatype SunTimes = SunTimes(sunrise: int, sunset: int)

  /** Whether an iteration ran to its end or raised (and was logged, line 248). */
  datatype Outcome = Ok | Failed

  /** One run of the motor. */
  datatype Movement = Opening | Closing

  /** Every field of `CoopController` the core reads or writes. `None` in
      `today` and `window` stands for the attributes not yet assigned, and in
      `earliestOpenTime` for `earliest_open_time` not yet assigned. The two
      records are the contents of `door_state` and `door_mode` (`None`: the
      file does not exist). `motor` lists the movements so far. */
  datatype Controller = Controller(
    state: Option<DoorState>,
    mode: Option<DoorMode>,
    stateRecord: Option<string>,
    modeRecord: Option<string>,
    gpioIsSetup: bool,
    motor: seq<Movement>,
    today: Option<int>,
    window: Option<SolarWindow>,
    earliestOpenTime: Option<int>)

  /** The record holds a recognised state token. */
  predicate RecordHolds(record: Option<string>, s: DoorState) {
    record.Some? && ParseState(ReadToken(record.value)) == Some(s)
  }

  /** The record holds a recognised mode token. */
  predicate ModeRecordHolds(record: Option<string>, m: DoorMode) {
    record.Some? && ParseMode(ReadToken(record.value)) == Some(m)
  }

  function StateToken(s: Option<DoorState>): Option<string> {
    match s
    case None => None
    case Some(v) => Some(StateName(v))
  }

  function ModeToken(m: Option<DoorMode>): Option<string> {
    match m
    case None => None
    case Some(v) => Some(ModeName(v))
  }

  /** `set_door_state(value)`: accepted exactly for the two state tokens;
      then the field and the record are both updated, otherwise nothing. */
  function SetDoorState(c: Controller, value: Option<string>): (r: (Controller, bool))
    ensures r.1 <==> exists s :: value == Some(StateName(s))
    ensures !r.1 ==> r.0 == c
    ensures forall s :: value == Some(StateName(s)) ==>
      r.0 == c.(state := Some(s), stateRecord := Some(Written(StateName(s))))
  {
    if value.Some? && ParseState(value.value).Some? then
      (c.(state := ParseState(value.value), stateRecord := Some(Written(value.value))), true)
    else (c, false)
  }

  /** `set_door_mode(value)`: accepted exactly for the two mode tokens. */
  function SetDoorMode(c: Controller, value: Option<string>): (r: (Controller, bool))
    ensures r.1 <==> exists m :: value == Some(ModeName(m))
    ensures !r.1 ==> r.0 == c
    ensures forall m :: value == Some(ModeName(m)) ==>
      r.0 == c.(mode := Some(m), modeRecord := Some(Written(ModeName(m))))
  {
    if value.Some? && ParseMode(value.value).Some? then
      (c.(mode := ParseMode(value.value), modeRecord := Some(Written(value.value))), true)
    else (c, false)
  }

  /** `open_door()`: nothing at all until GPIO is set up; otherwise one
      opening run, then the state "open" is persisted. */
  function OpenDoor(c: Controller): (r: Controller)
    ensures !c.gpioIsSetup ==> r == c
    ensures c.gpioIsSetup ==>
      r == c.(motor := c.motor + [Opening], state := Some(Open), stateRecord := Some(Written("open")))
  {
    if !c.gpioIsSetup then c
    else SetDoorState(c.(motor := c.motor + [Opening]), Some("open")).0
  }

  /** `close_door()`: nothing at all until GPIO is set up; otherwise one
      closing run, then the state "closed" is persisted. */
  function CloseDoor(c: Controller): (r: Controller)
    ensures !c.gpioIsSetup ==> r == c
    ensures c.gpioIsSetup ==>
      r == c.(motor := c.motor + [Closing], state := Some(Closed), stateRecord := Some(Written("closed")))
  {
    if !c.gpioIsSetup then c
    else SetDoorState(c.(motor := c.motor + [Closing]), Some("closed")).0
  }

  /** `check_door_state()`: a present record is only read (a junk one reads
      as `None`); only a missing record triggers recovery, which calls
      `open_door()` and answers "open" even when that call did nothing. */
  function CheckDoorState(c: Controller): (r: (Controller, Option<DoorState>))
    ensures c.stateRecord.Some? ==> r.0 == c
    ensures c.stateRecord.Some? ==>
      (r.1.Some? <==> exists s :: ReadToken(c.stateRecord.value) == StateName(s))
    ensures c.stateRecord.Some? ==>
      forall s :: r.1 == Some(s) <==> ReadToken(c.stateRecord.value) == StateName(s)
    ensures c.stateRecord.None? ==> r.1 == Some(Open) && r.0 == OpenDoor(c)
  {
    if c.stateRecord.Some? then (c, ParseState(ReadToken(c.stateRecord.value)))
    else (OpenDoor(c), Some(Open))
  }

  /** `check_door_mode()`: a present record is only read (a junk one reads
      as `None`); a missing one is recovered by persisting "auto". Never
      moves the door. */
  function CheckDoorMode(c: Controller): (r: (Controller, Option<DoorMode>))
    ensures r.0.motor == c.motor
    ensures c.modeRecord.Some? ==> r.0 == c
    ensures c.modeRecord.Some? ==>
      (r.1.Some? <==> exists m :: ReadToken(c.modeRecord.value) == ModeName(m))
    ensures c.modeRecord.Some? ==>
      forall m :: r.1 == Some(m) <==> ReadToken(c.modeRecord.value) == ModeName(m)
    ensures c.modeRecord.None? ==>
      r == (c.(mode := Some(Auto), modeRecord := Some(Written("auto"))), Some(Auto))
  {
    if c.modeRecord.Some? then (c, ParseMode(ReadToken(c.modeRecord.value)))
    else (SetDoorMode(c, Some("auto")).0, Some(Auto))
  }

  /** The sun window for a date: sunset with buffer is sunset plus
      `BUFFER_AFTER_SUNSET` seconds. */
  function WindowFor(cfg: Config, sun: SunTimes): (w: SolarWindow)
    ensures w.sunsetWithBuffer - w.sunset == cfg.bufferAfterSunset * MicrosPerSecond
    ensures w.sunrise == sun.sunrise && w.sunset == sun.sunset
  {
    SolarWindow(sun.sunrise, sun.sunset, sun.sunset + cfg.bufferAfterSunset * MicrosPerSecond)
  }

  /** `calculate_sunrise_and_sunset()`: sets the window; `earliest_open_time`
      is assigned only by a successful parse of a non-empty setting and is
      otherwise left as it was (it is never reset). */
  function CalculateSunriseAndSunset(cfg: Config, c: Controller, sun: SunTimes): (r: Controller)
    ensures r.window == Some(WindowFor(cfg, sun))
    ensures r == c.(window := r.window, earliestOpenTime := r.earliestOpenTime)
    ensures r.earliestOpenTime != c.earliestOpenTime ==>
      var parsed := ParseEarliestOpen(cfg.earliestOpen);
      parsed.Some? && r.earliestOpenTime == Some(ToMicros(parsed.value))
    ensures ParseEarliestOpen(cfg.earliestOpen).None? ==> r.earliestOpenTime == c.earliestOpenTime
    ensures ParseEarliestOpen(cfg.earliestOpen).Some? ==>
      r.earliestOpenTime == Some(ToMicros(ParseEarliestOpen(cfg.earliestOpen).value))
  {
    var parsed := if cfg.earliestOpen != "" then ParseEarliestOpen(cfg.earliestOpen) else None;
    c.(window := Some(WindowFor(cfg, sun)),
       earliestOpenTime := if parsed.Some? then Some(ToMicros(parsed.value)) else c.earliestOpenTime)
  }

  /** Lines 199-201: adopt the mode read from the record. Touches only the
      mode and its record, and never moves the door. */
  function ReconcileMode(c: Controller): (r: Controller)
    ensures r == c.(mode := r.mode, modeRecord := r.modeRecord)
    ensures c.modeRecord.None? ==> r.mode == Some(Auto) && r.modeRecord == Some(Written("auto"))
    ensures c.modeRecord.Some? && ParseMode(ReadToken(c.modeRecord.value)).None? ==> r == c
  {
    var (c1, saved) := CheckDoorMode(c);
    if c1.mode != saved then SetDoorMode(c1, ModeToken(saved)).0 else c1
  }

  /** Lines 214-216: adopt the state read from the record (auto mode). */
  function ReconcileState(c: Controller): (r: Controller)
    ensures r == c.(state := r.state, stateRecord := r.stateRecord, motor := r.motor)
    ensures r.motor == c.motor + (if c.stateRecord.None? && c.gpioIsSetup then [Opening] else [])
    ensures c.stateRecord.None? ==> r.state == Some(Open)
    ensures c.stateRecord.None? && c.gpioIsSetup ==> r.stateRecord == Some(Written("open"))
    ensures c.stateRecord.Some? && ParseState(ReadToken(c.stateRecord.value)).None? ==> r == c
  {
    var (c1, saved) := CheckDoorState(c);
    if c1.state != saved then SetDoorState(c1, StateToken(saved)).0 else c1
  }

  /** Lines 203-232, auto mode: recompute the window on a new date, adopt
      the recorded state, then act on the decision. */
  function AutoStep(cfg: Config, c: Controller, clock: Clock, sun: SunTimes): (r: (Controller, Outcome))
    ensures r.0.mode == c.mode && r.0.modeRecord == c.modeRecord && r.0.gpioIsSetup == c.gpioIsSetup
    ensures r.0.today == Some(clock.date)
    // on a date already seen the window and the earliest opening time stay
    ensures c.today == Some(clock.date) ==>
      r.0.window == c.window && r.0.earliestOpenTime == c.earliestOpenTime
    // the motor log only grows: one decision, plus one recovery of a missing record
    ensures c.motor <= r.0.motor
    ensures |r.0.motor| <= |c.motor| + (if c.stateRecord.None? then 2 else 1)
  {
    var c1 := if c.today != Some(clock.date)
      then CalculateSunriseAndSunset(cfg, c.(today := Some(clock.date)), sun)
      else c;
    Decide(ReconcileState(c1), clock)
  }

  /** Lines 218-232: the if/elif chain of auto mode acting on the door. */
  function Decide(c: Controller, clock: Clock): (r: (Controller, Outcome))
    ensures r.0 == c.(state := r.0.state, stateRecord := r.0.stateRecord, motor := r.0.motor)
    ensures r.1 == Failed ==> r.0 == c
    ensures c.motor <= r.0.motor && |r.0.motor| <= |c.motor| + 1
    // no window yet: reading `self.sunrise` raises
    ensures c.window.None? ==> r == (c, Failed)
    // otherwise the door does what the decision commands
    ensures c.window.Some? ==>
      var d := AutoDecision(clock.now, clock.timeOfDay, c.window.value, c.earliestOpenTime, c.state);
      (d == CloseAction ==> r == (CloseDoor(c), Ok)) &&
      (d == OpenAction ==> r == (OpenDoor(c), Ok)) &&
      (d == NoAction ==> r == (c, Ok)) &&
      (d == EarliestOpenUnset ==> r == (c, Failed))
  {
    if c.window.None? then (c, Failed)  // `self.sunrise` was never assigned
    else
      match AutoDecision(clock.now, clock.timeOfDay, c.window.value, c.earliestOpenTime, c.state)
      case CloseAction => (CloseDoor(c), Ok)
      case OpenAction => (OpenDoor(c), Ok)
      case NoAction => (c, Ok)
      case EarliestOpenUnset => (c, Failed)
  }

  /** Lines 233-241, manual mode: the state record is a command. */
  function ManualStep(c: Controller): (r: Controller)
    ensures r.mode == c.mode && r.modeRecord == c.modeRecord && r.gpioIsSetup == c.gpioIsSetup
    ensures r.today == c.today && r.window == c.window && r.earliestOpenTime == c.earliestOpenTime
    ensures c.motor <= r.motor && |r.motor| <= |c.motor| + 1
    // the record read back commands the movement; a junk record commands nothing
    ensures var (c1, saved) := CheckDoorState(c);
      var d := ManualDecision(saved, c1.state);
      (d == OpenAction ==> r == OpenDoor(c1)) &&
      (d == CloseAction ==> r == CloseDoor(c1)) &&
      (d == NoAction ==> r == c1)
  {
    var (c1, saved) := CheckDoorState(c);
    match ManualDecision(saved, c1.state)
    case OpenAction => OpenDoor(c1)
    case CloseAction => CloseDoor(c1)
    case _ => c1
  }

  /** One pass of the `while 1` body of `run`. A raised error ends the pass
      with `Failed`, keeping every change made before it. */
  function Iterate(cfg: Config, c: Controller, clock: Clock, sun: SunTimes): (r: (Controller, Outcome))
    ensures r.0.gpioIsSetup == c.gpioIsSetup
  {
    var c1 := ReconcileMode(c);
    if c1.mode == Some(Auto) then AutoStep(cfg, c1, clock, sun)
    else if c1.mode == Some(Manual) then (ManualStep(c1), Ok)
    else (c1, Ok)
  }

  /** Lines 58-65: with GPIO not yet set up, read both records into the
      fields. A missing state record yields "open" without persisting it. */
  function Initial(stateRecord: Option<string>, modeRecord: Option<string>): (r: Controller)
    ensures r.motor == [] && !r.gpioIsSetup && r.stateRecord == stateRecord
    ensures r.today.None? && r.window.None? && r.earliestOpenTime.None?
    ensures stateRecord.None? ==> r.state == Some(Open)
    ensures stateRecord.Some? ==> r.state == ParseState(ReadToken(stateRecord.value))
    ensures modeRecord.None? ==> r.mode == Some(Auto) && r.modeRecord == Some(Written("auto"))
    ensures modeRecord.Some? ==> r.mode == ParseMode(ReadToken(modeRecord.value)) && r.modeRecord == modeRecord
  {
    var c0 := Controller(None, None, stateRecord, modeRecord, false, [], None, None, None);
    var (c1, s) := CheckDoorState(c0);
    var c2 := c1.(state := s);
    var (c3, m) := CheckDoorMode(c2);
    c3.(mode := m)
  }
}
