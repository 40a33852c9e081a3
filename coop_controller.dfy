/**
 * `CoopController` as the object the program runs: its fields are updated
 * in place by each method, step by step as in the source, and each method
 * is proved to agree with its counterpart in CoopSpec.
 */
module Coop {
  import opened Optional
  import opened Records
  import opened EarliestOpen
  import opened Decision
  import CoopSpec

  class CoopController {
    /** `BUFFER_AFTER_SUNSET` and `EARLIEST_OPEN`, fixed at construction. */
    const config: CoopSpec.Config

    var state: Option<DoorState>
    var mode: Option<DoorMode>
    /** Contents of the `door_state` and `door_mode` files; `None` when missing. */
    var stateRecord: Option<string>
    var modeRecord: Option<string>
    var gpioIsSetup: bool
    /** The motor runs made so far. */
    var motor: seq<CoopSpec.Movement>
    var today: Option<int>
    /** `sunrise`, `sunset`, `sunset_with_buffer` once assigned. */
    var window: Option<SolarWindow>
    /** `earliest_open_time` in microseconds since midnight, once assigned. */
    var earliestOpenTime: Option<int>

    function Snapshot(): CoopSpec.Controller
      reads this
    {
      CoopSpec.Controller(state, mode, stateRecord, modeRecord, gpioIsSetup, motor,
                          today, window, earliestOpenTime)
    }

    /** The state-and-mode part of `__post_init__`: both records are read
        into the fields while GPIO is not set up. */
    constructor (config: CoopSpec.Config, stateRecord: Option<string>, modeRecord: Option<string>)
      ensures this.config == config
      ensures Snapshot() == CoopSpec.Initial(stateRecord, modeRecord)
    {
      this.config := config;
      state, mode := None, None;
      this.stateRecord, this.modeRecord := stateRecord, modeRecord;
      gpioIsSetup := false;
      motor := [];
      today, window, earliestOpenTime := None, None, None;
      new;
      var s := CheckDoorState();
      state := s;
      var m := CheckDoorMode();
      mode := m;
    }

    /** `init_gpio`, without the pin set-up: from now on the door can move. */
    method InitGpio()
      modifies this
      ensures Snapshot() == old(Snapshot()).(gpioIsSetup := true)
    {
      gpioIsSetup := true;
    }

    method CheckDoorState() returns (saved: Option<DoorState>)
      modifies this
      ensures (Snapshot(), saved) == CoopSpec.CheckDoorState(old(Snapshot()))
    {
      if stateRecord.Some? {
        saved := ParseState(ReadToken(stateRecord.value));
      } else {
        OpenDoor();
        saved := Some(Open);
      }
    }

    method SetDoorState(value: Option<string>) returns (ok: bool)
      modifies this
      ensures (Snapshot(), ok) == CoopSpec.SetDoorState(old(Snapshot()), value)
    {
      if value.Some? && ParseState(value.value).Some? {
        state := ParseState(value.value);
        stateRecord := Some(Written(value.value));
        ok := true;
      } else {
        ok := false;
      }
    }

    method CheckDoorMode() returns (saved: Option<DoorMode>)
      modifies this
      ensures (Snapshot(), saved) == CoopSpec.CheckDoorMode(old(Snapshot()))
    {
      if modeRecord.Some? {
        saved := ParseMode(ReadToken(modeRecord.value));
      } else {
        var _ := SetDoorMode(Some("auto"));
        saved := Some(Auto);
      }
    }

    method SetDoorMode(value: Option<string>) returns (ok: bool)
      modifies this
      ensures (Snapshot(), ok) == CoopSpec.SetDoorMode(old(Snapshot()), value)
    {
      if value.Some? && ParseMode(value.value).Some? {
        mode := ParseMode(value.value);
        modeRecord := Some(Written(value.value));
        ok := true;
      } else {
        ok := false;
      }
    }

    /** `calculate_sunrise_and_sunset`, given the sun times of the current date. */
    method CalculateSunriseAndSunset(sun: CoopSpec.SunTimes)
      modifies this
      ensures Snapshot() == CoopSpec.CalculateSunriseAndSunset(config, old(Snapshot()), sun)
    {
      ghost var before := Snapshot();
      window := Some(CoopSpec.WindowFor(config, sun));
      if config.earliestOpen != "" {
        var parsed := ParseEarliestOpen(config.earliestOpen);
        if parsed.Some? {
          earliestOpenTime := Some(ToMicros(parsed.value));
        }
        // a failed parse is only logged: the previous value stays
      }
      assert Snapshot() == before.(window := window, earliestOpenTime := earliestOpenTime);
    }

    method OpenDoor()
      modifies this
      ensures Snapshot() == CoopSpec.OpenDoor(old(Snapshot()))
    {
      if !gpioIsSetup {
        return;
      }
      motor := motor + [CoopSpec.Opening];
      var _ := SetDoorState(Some("open"));
    }

    method CloseDoor()
      modifies this
      ensures Snapshot() == CoopSpec.CloseDoor(old(Snapshot()))
    {
      if !gpioIsSetup {
        return;
      }
      motor := motor + [CoopSpec.Closing];
      var _ := SetDoorState(Some("closed"));
    }

    /** Lines 199-201: adopt the mode the record holds. */
    method ReconcileMode()
      modifies this
      ensures Snapshot() == CoopSpec.ReconcileMode(old(Snapshot()))
    {
      var savedMode := CheckDoorMode();
      if mode != savedMode {
        var _ := SetDoorMode(CoopSpec.ModeToken(savedMode));
      }
    }

    /** Lines 214-216: adopt the state the record holds. */
    method ReconcileState()
      modifies this
      ensures Snapshot() == CoopSpec.ReconcileState(old(Snapshot()))
    {
      var savedState := CheckDoorState();
      if state != savedState {
        var _ := SetDoorState(CoopSpec.StateToken(savedState));
      }
    }

    /** Lines 204-232, the auto-mode branch of the loop body. */
    method RunAuto(clock: CoopSpec.Clock, sun: CoopSpec.SunTimes) returns (outcome: CoopSpec.Outcome)
      modifies this
      ensures (Snapshot(), outcome) == CoopSpec.AutoStep(config, old(Snapshot()), clock, sun)
    {
      outcome := CoopSpec.Ok;
      ghost var start := Snapshot();
      if today != Some(clock.date) {
        today := Some(clock.date);
        CalculateSunriseAndSunset(sun);
      }
      assert Snapshot() == if start.today != Some(clock.date)
        then CoopSpec.CalculateSunriseAndSunset(config, start.(today := Some(clock.date)), sun)
        else start;
      ReconcileState();
      if window.None? {
        // reading `self.sunrise` raises
        return CoopSpec.Failed;
      }
      var w := window.value;
      ghost var d := AutoDecision(clock.now, clock.timeOfDay, w, earliestOpenTime, state);
      if clock.now < w.sunrise && state == Some(Open) {
        assert d == CloseAction;
        CloseDoor();
      } else if InWindow(clock.now, w) && earliestOpenTime.None? {
        // reading `self.earliest_open_time` raises
        assert d == EarliestOpenUnset;
        outcome := CoopSpec.Failed;
      } else if InWindow(clock.now, w) && clock.timeOfDay > earliestOpenTime.value
                && state == Some(Closed) {
        assert d == OpenAction;
        OpenDoor();
      } else if w.sunsetWithBuffer < clock.now && state == Some(Open) {
        assert d == CloseAction;
        CloseDoor();
      } else {
        assert d == NoAction;
      }
    }

    /** Lines 234-241, the manual-mode branch: the state record is a command. */
    method RunManual()
      modifies this
      ensures Snapshot() == CoopSpec.ManualStep(old(Snapshot()))
    {
      var savedState := CheckDoorState();
      if savedState != state {
        if savedState == Some(Open) {
          OpenDoor();
        } else if savedState == Some(Closed) {
          CloseDoor();
        }
      }
    }

    /** One pass of the body of `run`. `Failed` is the exception caught and
        logged at the bottom of the loop; changes made before it stay. */
    method RunIteration(clock: CoopSpec.Clock, sun: CoopSpec.SunTimes) returns (outcome: CoopSpec.Outcome)
      modifies this
      ensures (Snapshot(), outcome) == CoopSpec.Iterate(config, old(Snapshot()), clock, sun)
    {
      ReconcileMode();
      if mode == Some(Auto) {
        outcome := RunAuto(clock, sun);
      } else if mode == Some(Manual) {
        RunManual();
        outcome := CoopSpec.Ok;
      } else {
        outcome := CoopSpec.Ok;
      }
    }
  }
}
