/**
 * What the controller's operations promise across calls: setters and
 * checkers round-trip, actuation persists what it did, reconciliation
 * adopts the record, the sun window is fixed for a date, and an iteration
 * repeated with the same inputs changes nothing more.
 */
module CoopProperties {
  import opened Optional
  import opened Text
  import opened Records
  import opened EarliestOpen
  import opened Decision
  import opened CoopSpec

  /** A valid `set_door_state(s)` updates field and record, and a following
      `check_door_state()` returns `s` and writes nothing. */
  lemma SetThenCheckState(c: Controller, s: DoorState)
    ensures var (c1, ok) := SetDoorState(c, Some(StateName(s)));
      ok && c1.state == Some(s) && c1.stateRecord == Some(Written(StateName(s))) &&
      CheckDoorState(c1) == (c1, Some(s))
  {
    StateRoundTrip(s);
  }

  /** A valid `set_door_mode(m)` updates field and record, and a following
      `check_door_mode()` returns `m` and writes nothing. */
  lemma SetThenCheckMode(c: Controller, m: DoorMode)
    ensures var (c1, ok) := SetDoorMode(c, Some(ModeName(m)));
      ok && c1.mode == Some(m) && c1.modeRecord == Some(Written(ModeName(m))) &&
      CheckDoorMode(c1) == (c1, Some(m))
  {
    ModeRoundTrip(m);
  }

  /** After a real actuation the state record reads back the new position. */
  lemma ActuationPersists(c: Controller)
    requires c.gpioIsSetup
    ensures CheckDoorState(OpenDoor(c)) == (OpenDoor(c), Some(Open))
    ensures CheckDoorState(CloseDoor(c)) == (CloseDoor(c), Some(Closed))
  {
    StateRoundTrip(Open);
    StateRoundTrip(Closed);
  }

  /** Reconciling the mode adopts a recognised mode record, and the record
      still holds that mode afterwards. */
  lemma ReconcileModeAdopts(c: Controller, m: DoorMode)
    requires ModeRecordHolds(c.modeRecord, m)
    ensures ReconcileMode(c).mode == Some(m) && ModeRecordHolds(ReconcileMode(c).modeRecord, m)
  {
    var (c1, saved) := CheckDoorMode(c);
    assert c1 == c && saved == Some(m);
    if c.mode != saved {
      assert ModeToken(saved) == Some(ModeName(m));
      assert ReconcileMode(c) == c.(mode := Some(m), modeRecord := Some(Written(ModeName(m))));
      ModeRoundTrip(m);
    }
  }

  /** Reconciling the state (auto mode) adopts a recognised state record
      without moving the door. */
  lemma ReconcileStateAdopts(c: Controller, s: DoorState)
    requires RecordHolds(c.stateRecord, s)
    ensures ReconcileState(c).state == Some(s) && RecordHolds(ReconcileState(c).stateRecord, s)
    ensures ReconcileState(c).motor == c.motor
  {
    var (c1, saved) := CheckDoorState(c);
    assert c1 == c && saved == Some(s);
    if c.state != saved {
      assert StateToken(saved) == Some(StateName(s));
      assert ReconcileState(c) == c.(state := Some(s), stateRecord := Some(Written(StateName(s))));
      StateRoundTrip(s);
    }
  }

  /** The mode record exists and, when it names a mode, the in-memory mode
      is that one: mode reconciliation has nothing left to do. */
  predicate ModeSettled(x: Controller)
  {
    x.modeRecord.Some? &&
    var saved := ParseMode(ReadToken(x.modeRecord.value));
    saved.None? || x.mode == saved
  }

  /** Mode reconciliation leaves the mode fields settled. */
  lemma ReconcileModeSettles(c: Controller)
    ensures ModeSettled(ReconcileMode(c))
  {
    var r := ReconcileMode(c);
    if c.modeRecord.None? {
      assert ModeName(Auto) == "auto";
      ModeRoundTrip(Auto);
      assert r.mode == Some(Auto) && r.modeRecord == Some(Written(ModeName(Auto)));
    } else {
      var saved := ParseMode(ReadToken(c.modeRecord.value));
      assert CheckDoorMode(c) == (c, saved);
      if saved.Some? && c.mode != saved {
        var m := saved.value;
        assert ModeToken(saved) == Some(ModeName(m));
        assert r == c.(mode := Some(m), modeRecord := Some(Written(ModeName(m))));
        ModeRoundTrip(m);
      }
    }
  }

  /** Settled mode fields are a fixed point of mode reconciliation. */
  lemma ReconcileModeStable(x: Controller)
    requires ModeSettled(x)
    ensures ReconcileMode(x) == x
  {
    var saved := ParseMode(ReadToken(x.modeRecord.value));
    if saved.Some? {
      ModeRoundTrip(saved.value);
    }
  }

  /** A state that agrees with a recognised record is left as it is. */
  lemma ReconcileSettled(c: Controller, s: DoorState)
    requires RecordHolds(c.stateRecord, s) && c.state == Some(s)
    ensures ReconcileState(c) == c
  {
  }

  /** Reconciling the state twice is reconciling it once. */
  lemma ReconcileStateIdempotent(c: Controller)
    ensures ReconcileState(ReconcileState(c)) == ReconcileState(c)
  {
    var r := ReconcileState(c);
    if c.stateRecord.None? {
      if c.gpioIsSetup || c.state != Some(Open) {
        assert r.stateRecord == Some(Written(StateName(Open))) && r.state == Some(Open);
        StateRoundTrip(Open);
        ReconcileSettled(r, Open);
      } else {
        assert r == c;
      }
    } else {
      var saved := ParseState(ReadToken(c.stateRecord.value));
      if saved.Some? {
        ReconcileStateAdopts(c, saved.value);
        ReconcileSettled(r, saved.value);
      } else {
        assert r == c;
      }
    }
  }

  /** After a real actuation there is nothing left to reconcile. */
  lemma ReconcileAfterActuation(c: Controller)
    requires c.gpioIsSetup
    ensures ReconcileState(OpenDoor(c)) == OpenDoor(c)
    ensures ReconcileState(CloseDoor(c)) == CloseDoor(c)
  {
    StateRoundTrip(Open);
    StateRoundTrip(Closed);
  }

  /** Acting on a settled state leaves a settled state on which the same
      clock reading decides nothing more: each movement falsifies the
      condition that triggered it. */
  lemma DecideIdempotent(c: Controller, clock: Clock)
    requires ReconcileState(c) == c
    ensures var (a, o) := Decide(c, clock); ReconcileState(a) == a && Decide(a, clock) == (a, o)
  {
    var (a, o) := Decide(c, clock);
    if c.window.Some? && c.gpioIsSetup {
      ReconcileAfterActuation(c);
      AutoDecisionSettles(clock.now, clock.timeOfDay, c.window.value, c.earliestOpenTime, c.state);
    }
  }

  /** An auto-mode pass repeated with the same inputs changes nothing:
      the date is already current, the state is settled, and the decision
      is settled. */
  lemma AutoStepIdempotent(cfg: Config, c: Controller, clock: Clock, sun: SunTimes)
    ensures var (a, o) := AutoStep(cfg, c, clock, sun); AutoStep(cfg, a, clock, sun) == (a, o)
  {
    var c1 := if c.today != Some(clock.date)
      then CalculateSunriseAndSunset(cfg, c.(today := Some(clock.date)), sun)
      else c;
    var c2 := ReconcileState(c1);
    ReconcileStateIdempotent(c1);
    DecideIdempotent(c2, clock);
    var (a, o) := Decide(c2, clock);
    assert AutoStep(cfg, a, clock, sun) == Decide(ReconcileState(a), clock);
  }

  /** A manual-mode pass over a state that agrees with a recognised record
      does nothing. */
  lemma ManualStepSettled(c: Controller, s: DoorState)
    requires RecordHolds(c.stateRecord, s) && c.state == Some(s)
    ensures ManualStep(c) == c
  {
  }

  /** A manual-mode pass repeated with the record unchanged does nothing more. */
  lemma ManualStepIdempotent(c: Controller)
    ensures ManualStep(ManualStep(c)) == ManualStep(c)
  {
    var (c1, saved) := CheckDoorState(c);
    var d := ManualDecision(saved, c1.state);
    var m := ManualStep(c);
    if !c.gpioIsSetup {
      // no actuation happens, so the pass only ever reads
      assert c1 == c && m == c;
    } else if d == OpenAction || d == CloseAction {
      var s := if d == OpenAction then Open else Closed;
      assert m.stateRecord == Some(Written(StateName(s))) && m.state == Some(s);
      StateRoundTrip(s);
      ManualStepSettled(m, s);
    } else if c.stateRecord.None? {
      assert m == c1 && m.stateRecord == Some(Written(StateName(Open))) && m.state == Some(Open);
      StateRoundTrip(Open);
      ManualStepSettled(m, Open);
    } else {
      assert m == c;
    }
  }

  /** One iteration repeated with the same clock reading, the same sun times
      and no outside edit of the records in between changes nothing and
      ends the same way: at most the first of the two moves the door. */
  lemma IterateIdempotent(cfg: Config, c: Controller, clock: Clock, sun: SunTimes)
    ensures var (a, o) := Iterate(cfg, c, clock, sun); Iterate(cfg, a, clock, sun) == (a, o)
  {
    var c1 := ReconcileMode(c);
    var (a, o) := Iterate(cfg, c, clock, sun);
    ReconcileModeSettles(c);
    ReconcileModeStable(a);
    if c1.mode == Some(Auto) {
      AutoStepIdempotent(cfg, c1, clock, sun);
    } else if c1.mode == Some(Manual) {
      ManualStepIdempotent(c1);
    }
  }

  /** On a date already seen, an iteration keeps the window and the
      earliest opening time. */
  lemma WindowFixedWithinDate(cfg: Config, c: Controller, clock: Clock, sun: SunTimes)
    requires c.today == Some(clock.date)
    ensures var a := Iterate(cfg, c, clock, sun).0;
      a.today == c.today && a.window == c.window && a.earliestOpenTime == c.earliestOpenTime
  {
  }

  /** In auto mode, on a new date, the window is computed from that date's sun times. */
  lemma WindowOnNewDate(cfg: Config, c: Controller, clock: Clock, sun: SunTimes)
    requires ReconcileMode(c).mode == Some(Auto) && c.today != Some(clock.date)
    ensures var a := Iterate(cfg, c, clock, sun).0;
      a.today == Some(clock.date) && a.window == Some(WindowFor(cfg, sun))
  {
    var c1 := ReconcileMode(c);
    var c2 := ReconcileState(CalculateSunriseAndSunset(cfg, c1.(today := Some(clock.date)), sun));
    assert c2.window == Some(WindowFor(cfg, sun));
  }

  /** Two consecutive iterations on the same date compute the window at most
      once: the second keeps what the first left, whatever sun times it is given. */
  lemma WindowOncePerDate(cfg: Config, c: Controller, clock1: Clock, sun1: SunTimes,
                          clock2: Clock, sun2: SunTimes)
    requires clock1.date == clock2.date
    ensures var a := Iterate(cfg, c, clock1, sun1).0;
      Iterate(cfg, a, clock2, sun2).0.window == a.window
  {
    var c1 := ReconcileMode(c);
    var a := Iterate(cfg, c, clock1, sun1).0;
    ReconcileModeSettles(c);
    if c1.mode == Some(Auto) {
      assert a == AutoStep(cfg, c1, clock1, sun1).0;
      assert a.today == Some(clock2.date);
      ReconcileModeStable(a);
      WindowFixedWithinDate(cfg, a, clock2, sun2);
    } else if c1.mode == Some(Manual) {
      assert a == ManualStep(c1);
      ReconcileModeStable(a);
      assert Iterate(cfg, a, clock2, sun2).0 == ManualStep(a);
    } else {
      assert a == c1;
      ReconcileModeStable(a);
    }
  }

  /** An iteration only appends to the motor log: at most one movement, or
      two when a missing state record is recovered in auto mode before the
      decision acts. */
  lemma MotorBound(cfg: Config, c: Controller, clock: Clock, sun: SunTimes)
    ensures var a := Iterate(cfg, c, clock, sun).0;
      c.motor <= a.motor &&
      |a.motor| <= |c.motor| + (if c.stateRecord.None? then 2 else 1)
  {
  }

  /** Manual override: with the mode record "manual", GPIO set up, and the
      state record commanding a position the controller is not in, one
      iteration makes exactly that one movement and adopts the position. */
  lemma ManualOverride(cfg: Config, c: Controller, clock: Clock, sun: SunTimes, s: DoorState)
    requires ModeRecordHolds(c.modeRecord, Manual) && c.gpioIsSetup
    requires RecordHolds(c.stateRecord, s) && c.state != Some(s)
    ensures var (a, o) := Iterate(cfg, c, clock, sun);
      o == Ok &&
      a.motor == c.motor + [if s == Open then Opening else Closing] &&
      a.state == Some(s) && a.stateRecord == Some(Written(StateName(s)))
  {
    ReconcileModeAdopts(c, Manual);
  }

  /** An auto-mode iteration with a recognised state record `s` moves the
      door exactly as the decision on that state commands, using the window
      and earliest time of the date (recomputed on a new date); it fails
      exactly when the decision reads an unset earliest time. */
  lemma IterateAutoActs(cfg: Config, c: Controller, clock: Clock, sun: SunTimes, s: DoorState)
    requires ModeRecordHolds(c.modeRecord, Auto) && RecordHolds(c.stateRecord, s)
    requires c.today != Some(clock.date) || c.window.Some?
    ensures var sameDate := c.today == Some(clock.date);
      var parsed := ParseEarliestOpen(cfg.earliestOpen);
      var w := if sameDate then c.window.value else WindowFor(cfg, sun);
      var e := if sameDate || parsed.None? then c.earliestOpenTime else Some(ToMicros(parsed.value));
      var d := AutoDecision(clock.now, clock.timeOfDay, w, e, Some(s));
      var (a, o) := Iterate(cfg, c, clock, sun);
      (o == Failed <==> d == EarliestOpenUnset) &&
      (c.gpioIsSetup && d == CloseAction ==>
        a.motor == c.motor + [Closing] && a.state == Some(Closed) && a.stateRecord == Some(Written("closed"))) &&
      (c.gpioIsSetup && d == OpenAction ==>
        a.motor == c.motor + [Opening] && a.state == Some(Open) && a.stateRecord == Some(Written("open"))) &&
      (!c.gpioIsSetup || d == NoAction || d == EarliestOpenUnset ==>
        a.motor == c.motor && a.state == Some(s) && RecordHolds(a.stateRecord, s))
  {
    ReconcileModeAdopts(c, Auto);
    var m := ReconcileMode(c);
    assert m == c.(mode := m.mode, modeRecord := m.modeRecord);
    var c1 := if c.today != Some(clock.date)
      then CalculateSunriseAndSunset(cfg, m.(today := Some(clock.date)), sun)
      else m;
    assert c1.stateRecord == c.stateRecord && c1.motor == c.motor && c1.gpioIsSetup == c.gpioIsSetup;
    ReconcileStateAdopts(c1, s);
    var c2 := ReconcileState(c1);
    assert c2.window == c1.window && c2.earliestOpenTime == c1.earliestOpenTime;
    assert Iterate(cfg, c, clock, sun) == Decide(c2, clock);
  }

  /** A manual-mode iteration with a state record present moves the door
      exactly as the record commands; a junk record commands nothing, and
      manual mode never fails nor touches the date or the window. */
  lemma IterateManualActs(cfg: Config, c: Controller, clock: Clock, sun: SunTimes)
    requires ModeRecordHolds(c.modeRecord, Manual) && c.stateRecord.Some?
    ensures var saved := ParseState(ReadToken(c.stateRecord.value));
      var d := ManualDecision(saved, c.state);
      var (a, o) := Iterate(cfg, c, clock, sun);
      o == Ok && a.today == c.today && a.window == c.window &&
      (saved.None? ==> a == ReconcileMode(c)) &&
      (c.gpioIsSetup && d == OpenAction ==>
        a.motor == c.motor + [Opening] && a.state == Some(Open) && a.stateRecord == Some(Written("open"))) &&
      (c.gpioIsSetup && d == CloseAction ==>
        a.motor == c.motor + [Closing] && a.state == Some(Closed) && a.stateRecord == Some(Written("closed"))) &&
      (!c.gpioIsSetup || d == NoAction ==>
        a.motor == c.motor && a.state == c.state && a.stateRecord == c.stateRecord)
  {
    ReconcileModeAdopts(c, Manual);
    var m := ReconcileMode(c);
    assert m == c.(mode := m.mode, modeRecord := m.modeRecord);
    assert CheckDoorState(m) == (m, ParseState(ReadToken(c.stateRecord.value)));
    assert Iterate(cfg, c, clock, sun) == (ManualStep(m), Ok);
  }

  /** Auto mode with the state record missing and GPIO set up: recovery
      opens the door first; the decision may then close it again. */
  lemma MissingStateRecordInAuto(cfg: Config, c: Controller, clock: Clock, sun: SunTimes)
    requires c.stateRecord.None? && c.gpioIsSetup
    ensures var a := AutoStep(cfg, c, clock, sun).0;
      (a.motor == c.motor + [Opening] && a.state == Some(Open) && a.stateRecord == Some(Written("open"))) ||
      (a.motor == c.motor + [Opening, Closing] && a.state == Some(Closed) && a.stateRecord == Some(Written("closed")))
  {
    var c1 := if c.today != Some(clock.date)
      then CalculateSunriseAndSunset(cfg, c.(today := Some(clock.date)), sun)
      else c;
    var c2 := ReconcileState(c1);
    assert c2.motor == c.motor + [Opening] && c2.state == Some(Open);
    assert c2.stateRecord == Some(Written("open"));
    var a := Decide(c2, clock).0;
    if c2.window.Some? {
      var d := AutoDecision(clock.now, clock.timeOfDay, c2.window.value, c2.earliestOpenTime, c2.state);
      assert d != OpenAction;
      if d == CloseAction {
        assert a == CloseDoor(c2);
        assert c.motor + [Opening] + [Closing] == c.motor + [Opening, Closing];
      } else {
        assert a == c2;
      }
    }
  }

  /** A fresh install (neither record exists) started with GPIO set up: the
      first iteration runs in auto mode, and the first thing the motor does
      is open the door; unless the decision then closes it, the door stays
      open and "open" is persisted. */
  lemma FreshInstallOpens(cfg: Config, clock: Clock, sun: SunTimes)
    ensures var c := Initial(None, None).(gpioIsSetup := true);
      var a := Iterate(cfg, c, clock, sun).0;
      a.mode == Some(Auto) && |a.motor| >= 1 && a.motor[0] == Opening &&
      (|a.motor| == 1 ==> a.state == Some(Open) && a.stateRecord == Some(Written("open")))
  {
    var c := Initial(None, None).(gpioIsSetup := true);
    assert c.modeRecord == Some(Written(ModeName(Auto))) && c.mode == Some(Auto);
    ModeRoundTrip(Auto);
    assert ModeRecordHolds(c.modeRecord, Auto);
    ReconcileModeAdopts(c, Auto);
    assert ReconcileMode(c) == c;
    MissingStateRecordInAuto(cfg, c, clock, sun);
  }

  lemma SplitSevenOClock()
    ensures Split("07:00:00", ':') == ["07", "00", "00"]
  {
    var hh, mm: string := "07", "00";
    assert "07:00:00" == hh + [':'] + (mm + [':'] + mm);
    SplitField(hh, ':', mm + [':'] + mm);
    SplitField(mm, ':', mm);
    SplitNoSeparator(mm, ':');
  }

  lemma ParseTwoDigitFields()
    ensures ParseInt("07") == Some(7) && ParseInt("00") == Some(0)
  {
    var hh, mm: string := "07", "00";
    assert hh[..1] == "0" && mm[..1] == "0";
    assert DigitsValue(hh) == 7 && DigitsValue(mm) == 0;
    assert IsDigits(hh) && IsDigits(mm);
  }

  /** "07:00:00" parses to seven o'clock. */
  lemma SevenOClock()
    ensures ParseEarliestOpen("07:00:00") == Some(TimeOfDay(7, 0, 0))
    ensures ToMicros(TimeOfDay(7, 0, 0)) == 25_200_000_000
  {
    SplitSevenOClock();
    ParseTwoDigitFields();
  }

  /** An auto-mode pass on a new date, with the door closed and recorded so,
      acts exactly as the decision for the freshly computed window says. */
  lemma AutoStepOnNewDate(cfg: Config, c: Controller, clock: Clock, sun: SunTimes)
    requires c.gpioIsSetup && RecordHolds(c.stateRecord, Closed) && c.today != Some(clock.date)
    ensures var c1 := CalculateSunriseAndSunset(cfg, c.(today := Some(clock.date)), sun);
      var d := AutoDecision(clock.now, clock.timeOfDay, WindowFor(cfg, sun), c1.earliestOpenTime, Some(Closed));
      var (a, o) := AutoStep(cfg, c, clock, sun);
      (d == NoAction ==> o == Ok && a.motor == c.motor && a.state == Some(Closed)) &&
      (d == OpenAction ==> o == Ok && a.motor == c.motor + [Opening] && a.state == Some(Open))
  {
    var c1 := CalculateSunriseAndSunset(cfg, c.(today := Some(clock.date)), sun);
    ReconcileStateAdopts(c1, Closed);
  }

  /** Sunrise 06:00, sunset 18:00 with a 30-minute buffer, earliest opening
      at 07:00:00, door closed in auto mode on a new date whose local
      midnight is the instant `midnight`: at 06:30 nothing happens, at 07:01
      the door opens. (Times are in microseconds.) */
  lemma EarliestOpenGate(cfg: Config, c: Controller, date: int, midnight: int)
    requires cfg.bufferAfterSunset == 1800 && cfg.earliestOpen != ""
    requires ParseEarliestOpen(cfg.earliestOpen) == Some(TimeOfDay(7, 0, 0))
    requires c.gpioIsSetup && ModeRecordHolds(c.modeRecord, Auto) && RecordHolds(c.stateRecord, Closed)
    requires c.today != Some(date)
    ensures var sun := SunTimes(midnight + 21_600_000_000, midnight + 64_800_000_000);
      var (a, o) := Iterate(cfg, c, Clock(midnight + 23_400_000_000, 23_400_000_000, date), sun);
      var (b, p) := Iterate(cfg, c, Clock(midnight + 25_260_000_000, 25_260_000_000, date), sun);
      o == Ok && a.motor == c.motor && a.state == Some(Closed) &&
      p == Ok && b.motor == c.motor + [Opening] && b.state == Some(Open)
  {
    var sun := SunTimes(midnight + 21_600_000_000, midnight + 64_800_000_000);
    ReconcileModeAdopts(c, Auto);
    var m := ReconcileMode(c);
    assert m == c.(mode := m.mode, modeRecord := m.modeRecord);
    GateWindow(cfg, m.(today := Some(date)), midnight);
    GateDecisions(WindowFor(cfg, sun), midnight);
    AutoStepOnNewDate(cfg, m, Clock(midnight + 23_400_000_000, 23_400_000_000, date), sun);
    AutoStepOnNewDate(cfg, m, Clock(midnight + 25_260_000_000, 25_260_000_000, date), sun);
  }

  /** The window and earliest time of the scenario above. */
  lemma GateWindow(cfg: Config, c: Controller, midnight: int)
    requires cfg.bufferAfterSunset == 1800
    requires ParseEarliestOpen(cfg.earliestOpen) == Some(TimeOfDay(7, 0, 0))
    ensures var sun := SunTimes(midnight + 21_600_000_000, midnight + 64_800_000_000);
      var c1 := CalculateSunriseAndSunset(cfg, c, sun);
      c1.earliestOpenTime == Some(25_200_000_000) &&
      WindowFor(cfg, sun) == SolarWindow(midnight + 21_600_000_000, midnight + 64_800_000_000, midnight + 66_600_000_000)
  {
    SevenOClock();
  }

  /** The decisions of the scenario above: nothing at 06:30, open at 07:01. */
  lemma GateDecisions(w: SolarWindow, midnight: int)
    requires w == SolarWindow(midnight + 21_600_000_000, midnight + 64_800_000_000, midnight + 66_600_000_000)
    ensures AutoDecision(midnight + 23_400_000_000, 23_400_000_000, w, Some(25_200_000_000), Some(Closed)) == NoAction
    ensures AutoDecision(midnight + 25_260_000_000, 25_260_000_000, w, Some(25_200_000_000), Some(Closed)) == OpenAction
  {
  }

  /** The same with the setting written as the string "07:00:00". */
  lemma EarliestOpenScenario(c: Controller, date: int, midnight: int)
    requires c.gpioIsSetup && ModeRecordHolds(c.modeRecord, Auto) && RecordHolds(c.stateRecord, Closed)
    requires c.today != Some(date)
    ensures var sun := SunTimes(midnight + 21_600_000_000, midnight + 64_800_000_000);
      var a := Iterate(Config(1800, "07:00:00"), c, Clock(midnight + 23_400_000_000, 23_400_000_000, date), sun).0;
      var b := Iterate(Config(1800, "07:00:00"), c, Clock(midnight + 25_260_000_000, 25_260_000_000, date), sun).0;
      a.motor == c.motor && b.motor == c.motor + [Opening]
  {
    SevenOClock();
    EarliestOpenGate(Config(1800, "07:00:00"), c, date, midnight);
  }
}
