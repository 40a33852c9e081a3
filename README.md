# Coop door controller — a Dafny model

This project models the control core of `CoopController`, the program that
opens and closes a coop hatch by the sun. The controller keeps a door state
(`open`/`closed`) and a mode (`auto`/`manual`) both in memory and in two text
records, `door_state` and `door_mode`. Anyone may edit these records between
iterations; in manual mode that is how an operator commands the door. Each
pass of the control loop does four things:

- it adopts the mode the record holds;
- in auto mode, it recomputes the sun window when the date changes, adopts
  the recorded state, and then opens or closes the door by comparing the
  current time with sunrise, sunset plus a buffer, and a configured earliest
  opening time;
- in manual mode, it treats the state record as a command;
- any error ends the pass, is logged, and the loop carries on.

Layout:

- `optional.dfy`: `Option`, which stands for Python's `None` versus a value.
- `text.dfy`: `str.strip`, `readline`, `str.split` and decimal digits.
- `records.dfy`: door state and mode tokens, how a record is read back, and
  the write/read round trip.
- `earliest_open.dfy`: the `"HH:MM:SS"` parse of `EARLIEST_OPEN`.
- `decision.dfy`: the auto-mode if/elif chain and the manual command, as pure
  functions.
- `coop_spec.dfy`: the controller's fields as a datatype, and every operation
  as a function from the state before to the state after.
- `coop_properties.dfy`: lemmas that relate several calls. These cover round
  trips, idempotence of an iteration, the window being fixed per date, a
  bound on motor runs, manual override, and the sunrise/earliest-open
  scenario.
- `coop_controller.dfy`: the class `CoopController`. Its fields are updated in
  place, step by step as in the source. Each method is proved equal to its
  counterpart in `coop_spec.dfy`.

Modelling choices:

- Instants and times of day are integers in microseconds, the resolution of
  Python's `datetime`.
- A clock reading supplies `now`, its local time of day and today's date.
- The sun times for the current date are passed in to an iteration. They are
  used only when the date has changed.
- The motor is a log of `Opening`/`Closing` runs.
- `Failed` stands for an exception caught at line 248. Changes made earlier
  in the pass are kept.

Behaviour of the code worth knowing, all of it modelled as written:

- A record that exists but holds junk is not recovered. The checkers return
  `None` and write nothing (lines 84-86, 106-108). Only a missing record
  triggers recovery.
- A missing state record makes `check_door_state` call `open_door`. That call
  does nothing until GPIO is set up, so "open" is returned but not persisted
  (lines 87-89, 157-158). In auto mode the following `set_door_state("open")`
  at line 216 still persists it when the in-memory state differs.
- An unset or unparsable earliest-open setting does not mean "no lower
  bound". Line 223 reads `earliest_open_time`, which only a successful parse
  assigns (line 143), so inside the window the pass raises and the door never
  opens in auto mode. Line 138 resets a different attribute. A failed parse
  keeps any earlier value.
- Closing after sunset needs `sunset_with_buffer < now`, strictly (line 228).
  When sunrise <= sunset_with_buffer, nothing happens at `now == sunrise` or
  `now == sunset_with_buffer`.
- Only the first line of a record counts, with its surrounding whitespace
  removed (line 83, line 105). Later lines of an edited record are ignored.
- In auto mode, one pass can move the motor twice. This happens when the
  state record is missing: recovery opens the door, then the pre-dawn or
  after-sunset branch closes it (`MotorBound`, `MissingStateRecordInAuto`).

## Model

| member | source | states |
|---|---|---|
| Text.TrimStart | coop_controller.py:83 | leading whitespace only is dropped; the result is a suffix that does not start with whitespace |
| Text.TrimEnd | coop_controller.py:83 | trailing whitespace only is dropped; the result is a prefix that does not end with whitespace |
| Text.IsSpace | coop_controller.py:83 | the blank, tab, '\n' and '\r' are whitespace; no printable ASCII character other than the blank is |
| Text.Strip | coop_controller.py:83 | `strip()` returns a slice of its input preceded and followed only by whitespace in the input, with no whitespace at either end of the slice; a string with none at its ends is kept |
| Text.FirstLine | coop_controller.py:83 | `readline()` returns a prefix that holds no '\n' except possibly its last character, and ends in '\n' unless it is the whole text |
| Text.FirstLineOfLine | coop_controller.py:96 | the first line of `line + "\n" + rest` is `line + "\n"` when `line` holds no newline |
| Text.Split | coop_controller.py:142 | `split(":")` gives one field more than there are colons, and no field contains a colon |
| Text.SplitField | coop_controller.py:142 | splitting `field + ":" + rest` gives `field` followed by the fields of `rest` |
| Text.SplitNoSeparator | coop_controller.py:142 | a string without a colon splits into itself alone |
| Text.DigitsValue | coop_controller.py:142 | the value of an n-digit decimal string is below 10^n |
| Text.TwoDigits | coop_controller.py:147 | the two-digit rendering of n < 100 is all digits and has value n |
| Records.ParseState | coop_controller.py:84 | `state in self.door_states` recognises exactly the tokens "open" and "closed", both ways |
| Records.ParseMode | coop_controller.py:106 | `mode in self.door_modes` recognises exactly the tokens "auto" and "manual", both ways |
| Records.Written | coop_controller.py:96 | the record written is the token followed by exactly one '\n' (read back by `ReadWritten`) |
| Records.ReadToken | coop_controller.py:83 | `readline().strip()` yields the record's first line with only its surrounding whitespace removed, so it holds no '\n' and no whitespace at either end; later lines are ignored; a bare one-line token reads as itself |
| Records.ReadWritten | coop_controller.py:95-96 | a token without whitespace, written with a newline, reads back as itself through readline and strip |
| Records.StateRoundTrip | coop_controller.py:80-97 | writing a door state and reading the record back yields that state |
| Records.ModeRoundTrip | coop_controller.py:102-119 | writing a mode and reading the record back yields that mode |
| EarliestOpen.ParseInt | coop_controller.py:142 | `int()` succeeds exactly when the stripped field is ASCII digits with an optional sign, and then yields its signed decimal value |
| EarliestOpen.ParseEarliestOpen | coop_controller.py:140-152 | a time results exactly when the setting splits at ':' into three integer fields forming hour 0..23, minute and second 0..59, and it is those three values; anything else (wrong field count, a non-integer field, out of range) gives none |
| EarliestOpen.ToMicros | coop_controller.py:143-145 | a valid time of day lies within one day and on a whole second |
| EarliestOpen.ToMicrosOrder | coop_controller.py:223 | microseconds since midnight order valid times exactly as `datetime.time` compares them, by (hour, minute, second) |
| EarliestOpen.ParseFormatted | coop_controller.py:142-145 | every valid time written as "HH:MM:SS" parses back to itself |
| Decision.AutoDecision | coop_controller.py:218-232 | close iff the door is open and `now` is before sunrise or after sunset+buffer; open iff closed, strictly inside the window, earliest time set and passed; raise iff inside the window with no earliest time; nothing at a boundary of a non-degenerate window |
| Decision.ManualDecision | coop_controller.py:233-241 | open iff the record says open and the state is not open; close iff the record says closed and the state is not closed; never raises |
| Decision.AutoDecisionSettles | coop_controller.py:218-230 | after the decided movement, the same inputs decide no further action |
| CoopSpec.SetDoorState | coop_controller.py:91-100 | accepted iff the value is a state token; then the field and record hold it; otherwise nothing changes |
| CoopSpec.SetDoorMode | coop_controller.py:113-122 | accepted iff the value is a mode token; then the field and record hold it; otherwise nothing changes |
| CoopSpec.OpenDoor | coop_controller.py:154-173 | without GPIO nothing changes; with it, exactly one Opening run, and the state and record become "open" |
| CoopSpec.CloseDoor | coop_controller.py:175-194 | without GPIO nothing changes; with it, exactly one Closing run, and the state and record become "closed" |
| CoopSpec.CheckDoorState | coop_controller.py:80-89 | a present record is only read, and yields state s exactly when it reads as the token of s (a junk record yields none); a missing record yields "open" after `open_door` |
| CoopSpec.CheckDoorMode | coop_controller.py:102-111 | a present record is only read, and yields mode m exactly when it reads as the token of m (a junk record yields none); a missing one persists "auto"; the door never moves |
| CoopSpec.WindowFor | coop_controller.py:127-131 | sunset with buffer is sunset plus `BUFFER_AFTER_SUNSET` seconds |
| CoopSpec.CalculateSunriseAndSunset | coop_controller.py:124-152 | the window is set; a successful parse of the setting becomes the earliest time, a failed or skipped one keeps the old value; nothing else changes |
| CoopSpec.ReconcileMode | coop_controller.py:199-201 | only the mode and its record change; a missing record gives auto; a junk record changes nothing |
| CoopSpec.ReconcileState | coop_controller.py:214-216 | only the state, its record and the motor change; the motor runs only to recover a missing record; a missing record leaves the state open; a junk record changes nothing |
| CoopSpec.AutoStep | coop_controller.py:203-232 | today becomes the current date; on a date already seen, the window and earliest time stay; at most one movement, or two when the state record is missing |
| CoopSpec.Decide | coop_controller.py:218-232 | with no window the pass fails unchanged; otherwise it closes, opens, does nothing or fails exactly as `AutoDecision` commands; only the state, its record and the motor change |
| CoopSpec.ManualStep | coop_controller.py:233-241 | the door opens, closes or stays exactly as `ManualDecision` on the record read back commands, so a junk record commands nothing; the mode, date and window are untouched |
| CoopSpec.Iterate | coop_controller.py:197-250 | one iteration never changes whether GPIO is set up |
| CoopSpec.Initial | coop_controller.py:58-65 | start-up reads both records with GPIO off; no movement; a missing state record gives "open" but is not written; a missing mode record is written as "auto" |
| CoopProperties.SetThenCheckState | coop_controller.py:80-97 | a valid `set_door_state(s)` succeeds, and a following check returns s and writes nothing |
| CoopProperties.SetThenCheckMode | coop_controller.py:102-119 | a valid `set_door_mode(m)` succeeds, and a following check returns m and writes nothing |
| CoopProperties.ActuationPersists | coop_controller.py:154-194 | with GPIO set up, the state record after opening (closing) reads back open (closed) |
| CoopProperties.ReconcileModeAdopts | coop_controller.py:199-201 | a recognised mode record is adopted and still holds that mode afterwards |
| CoopProperties.ReconcileStateAdopts | coop_controller.py:214-216 | a recognised state record is adopted without moving the door |
| CoopProperties.ReconcileModeSettles | coop_controller.py:199-201 | after mode reconciliation the mode record exists, and when it names a mode the in-memory mode is that mode |
| CoopProperties.ReconcileModeStable | coop_controller.py:199-201 | settled mode fields are a fixed point of mode reconciliation |
| CoopProperties.ReconcileSettled | coop_controller.py:214-216 | a state that agrees with its recognised record is left alone |
| CoopProperties.ReconcileStateIdempotent | coop_controller.py:214-216 | reconciling the state twice is the same as once |
| CoopProperties.ReconcileAfterActuation | coop_controller.py:172-193 | after a real movement, there is nothing left to reconcile |
| CoopProperties.DecideIdempotent | coop_controller.py:218-232 | acting on a settled state leaves a settled state, and the same clock reading then decides nothing more |
| CoopProperties.AutoStepIdempotent | coop_controller.py:203-232 | repeating an auto-mode pass with the same inputs changes nothing |
| CoopProperties.ManualStepSettled | coop_controller.py:233-241 | a state that agrees with its recognised record commands nothing in manual mode |
| CoopProperties.ManualStepIdempotent | coop_controller.py:233-241 | repeating a manual-mode pass with the record unchanged does nothing more |
| CoopProperties.IterateIdempotent | coop_controller.py:199-241 | a second iteration with the same clock, the same sun times and no outside edit changes nothing and ends the same way |
| CoopProperties.WindowFixedWithinDate | coop_controller.py:205-212 | on a date already seen, the window and earliest time are unchanged |
| CoopProperties.WindowOnNewDate | coop_controller.py:205-212 | in auto mode, on a new date, the window comes from that date's sun times |
| CoopProperties.WindowOncePerDate | coop_controller.py:205-212 | of two consecutive iterations on one date, the second keeps the window the first left, whatever sun times it is given |
| CoopProperties.MotorBound | coop_controller.py:199-241 | an iteration only appends to the motor log: at most one run, or two when the state record was missing |
| CoopProperties.ManualOverride | coop_controller.py:233-241 | in manual mode with GPIO set up, a record commanding the other position makes exactly that one movement, which is then adopted and persisted |
| CoopProperties.IterateAutoActs | coop_controller.py:199-232 | in auto mode with a recognised state record, the iteration makes exactly the movement the decision on the date's window and earliest time commands, and fails exactly when that decision reads an unset earliest time |
| CoopProperties.IterateManualActs | coop_controller.py:199-241 | in manual mode with a state record present, the iteration succeeds and moves the door exactly as the record commands; a junk record leaves everything but the mode reconciliation alone |
| CoopProperties.MissingStateRecordInAuto | coop_controller.py:214-230 | in auto mode with a missing state record, the door is opened first and at most closed again |
| CoopProperties.FreshInstallOpens | coop_controller.py:86-89 | on a fresh install with GPIO set up, the first iteration is in auto mode and its first movement opens the door |
| CoopProperties.SevenOClock | coop_controller.py:142-145 | "07:00:00" parses to 07:00:00 |
| CoopProperties.AutoStepOnNewDate | coop_controller.py:205-227 | on a new date with the door recorded closed, the pass does what the decision for the fresh window says |
| CoopProperties.EarliestOpenGate | coop_controller.py:218-227 | with sunrise 06:00, sunset+buffer 18:30 and earliest 07:00: nothing at 06:30, the door opens at 07:01 |
| CoopProperties.EarliestOpenScenario | coop_controller.py:140-145 | the same, with the setting given as the string "07:00:00" |
| Coop.CoopController.constructor | coop_controller.py:58-65 | the fields after start-up are `CoopSpec.Initial` of the two records |
| Coop.CoopController.InitGpio | coop_controller.py:78 | only `gpio_is_setup` changes, to true |
| Coop.CoopController.CheckDoorState | coop_controller.py:80-89 | new fields and result are `CoopSpec.CheckDoorState` of the old fields |
| Coop.CoopController.SetDoorState | coop_controller.py:91-100 | new fields and result are `CoopSpec.SetDoorState` of the old fields |
| Coop.CoopController.CheckDoorMode | coop_controller.py:102-111 | new fields and result are `CoopSpec.CheckDoorMode` of the old fields |
| Coop.CoopController.SetDoorMode | coop_controller.py:113-122 | new fields and result are `CoopSpec.SetDoorMode` of the old fields |
| Coop.CoopController.CalculateSunriseAndSunset | coop_controller.py:124-152 | new fields are `CoopSpec.CalculateSunriseAndSunset` of the old ones |
| Coop.CoopController.OpenDoor | coop_controller.py:154-173 | new fields are `CoopSpec.OpenDoor` of the old ones |
| Coop.CoopController.CloseDoor | coop_controller.py:175-194 | new fields are `CoopSpec.CloseDoor` of the old ones |
| Coop.CoopController.ReconcileMode | coop_controller.py:199-201 | new fields are `CoopSpec.ReconcileMode` of the old ones |
| Coop.CoopController.ReconcileState | coop_controller.py:214-216 | new fields are `CoopSpec.ReconcileState` of the old ones |
| Coop.CoopController.RunAuto | coop_controller.py:203-232 | the if/elif chain run in place equals `CoopSpec.AutoStep` |
| Coop.CoopController.RunManual | coop_controller.py:233-241 | new fields are `CoopSpec.ManualStep` of the old ones |
| Coop.CoopController.RunIteration | coop_controller.py:196-250 | new fields and outcome are `CoopSpec.Iterate` of the old fields |

## Left out

- GPIO and PWM: pin set-up in `init_gpio`, pin writes in `open_door`/`close_door`, and `GPIO.cleanup`. These are hardware I/O. Only the `gpio_is_setup` flag is kept, and a motor run is one log entry. A hardware failure mid-movement is not modelled.
- `sleep` calls (motor run time and poll interval). Wall-clock delays have no logical content here.
- `suntime.Sun` at fixed coordinates. This is a foreign floating-point astronomy library, so the sunrise and sunset of the current date are inputs to an iteration.
- Time zones. `datetime.now().astimezone()`, `timetz()` and the `local_tz` attached to the earliest time are replaced by a clock reading that carries its own local time of day. Comparing aware times whose UTC offsets differ (a DST change after the window was computed) is not modelled.
- Config loading, `setattr` of config keys, and logging set-up. `BUFFER_AFTER_SUNSET` is taken as whole seconds. `EARLIEST_OPEN` is taken as a string, with "" standing for unset or null. A config that lacks the key entirely, which raises at line 140 after the window is set, is not modelled.
- `self.earliest_open = None` (line 138). No code ever reads this attribute.
- The unbounded `while 1` loop and `KeyboardInterrupt` shutdown. The model is one iteration, and the caller repeats it. Outside edits of the records between iterations are plain assignments to the record fields.
- Errors from file I/O itself (permissions, a full disk). They are not modelled; only the exceptions the model names lead to `Failed`.
- The `__main__` dispatcher. Its "open"/"close" commands call `set_door_mode("manual")` and then `set_door_state(...)`, both of which are modelled.
- The record file paths `state_file`/`mode_file`. Records are read as text after Python's universal-newline translation.
- Text.IsSpace: covers whitespace only up to U+00FF, while Python's `str.isspace` also accepts the other Unicode spaces.
- EarliestOpen.ParseInt: does not accept '_' between digits or non-ASCII digits, both of which Python's `int()` accepts.
