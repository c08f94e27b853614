# Microwave oven controller, modelled in Dafny

A model of `microwave.py`, a poll-driven state machine for a simulated microwave
oven. A `MicrowaveMachine` keeps the following:

- a registry of states keyed by name;
- the current state;
- the key read on this tick (`event`);
- the cook time;
- once COOKING has been entered, a deadline (`stop_time`).

There are three states:

- IDLE: accumulates typed digits into the cook time and starts cooking on `S`.
- COOKING: returns to IDLE when the deadline passes or on `Q`, and pauses on `P`.
  When it pauses it keeps the remaining time as the new cook time.
- `Pause`: resumes on `S`, which sets a fresh deadline from the remaining time,
  and cancels on `Q`.

`go_to_state` exits the old state, looks the new name up and enters the new state.

The project has four modules:

- `Events` (`events.dfy`): the key alphabet and IDLE's digit test. Python's
  `event in "0123456789"` is a substring test, modelled as `IsSubstring` and proved
  equal to a definition by slicing. The module also has the decimal value of a digit run.
- `Semantics` (`semantics.dfy`): the machine as values.
  - A `Config` holds the machine's fields.
  - Each operation returns an `Outcome`: the new fields, the enter/exit hooks it ran
    in order, and the exception it raised, if any.
  - `UnknownState` models the `KeyError` of an unregistered name.
  - `MissingStopTime` models the `AttributeError` of a `stop_time` that was never set.
  - `Run` is the driver loop over a finite script of ticks. It stops at the first
    exception, because the loop catches only `KeyboardInterrupt`.
- `Properties` (`properties.dfy`): what the controller promises.
  - The invariant `WellFormed`, preserved by every operation: the current state is
    registered, COOKING has a deadline, the cook time is never negative, and in IDLE
    it is a whole number of seconds.
  - The priorities of each state's update and the effect of each enter hook.
  - Typing digits spells the decimal number.
  - Pausing and resuming shifts the deadline by exactly the time spent paused.
  - Two end-to-end scenarios: type 1, 5, Start and cook fifteen seconds; type 9, 9, Start and pause two seconds in.
- `Machine` (`machine.dfy`): the `MicrowaveMachine` class.
  - Its fields are updated in place, and a ghost trace records the hooks.
  - `AddState`, `GoToState`, the three per-state updates, `Update`, `HandleTick`,
    `Drive` and `SetUp` are proved to keep `Valid()` and to leave exactly the fields,
    hooks and exception the `Semantics` function gives.
  - `Enter` is proved to have the effect `EnterEffect` gives and to record its hook.
    It assumes no invariant, because it runs after the new state is made current
    and before COOKING's deadline is set.
  - `Exit` changes no field and only records its hook.

Time is a parameter: each update takes one reading `now: real` of the monotonic clock.

## Model

| member | source | states |
|---|---|---|
| Events.IsDigitRun | microwave.py:113 | a key passes IDLE's digit guard only if it is non-empty and made of decimal digits |
| Events.SubstringIffSlice | microwave.py:113 | Python's `in` on strings, as modelled, holds exactly when the key is some slice `s[i..j]` |
| Events.DigitRunsAreDigits | microwave.py:113-114 | every run of "0123456789" is all decimal digits, so `int(event)` is defined on it |
| Events.DigitsAreDecimalDigits | microwave.py:113 | the characters of "0123456789" are exactly `'0'..'9'` |
| Events.SingleKeyIsDigitRun | microwave.py:113 | a one-character key passes the digit guard if and only if it is a decimal digit |
| Events.EmptyEventPassesSubstringTest | microwave.py:113 | the empty event is `in` "0123456789", and the non-emptiness guard is what rejects it |
| Events.DecimalValue | microwave.py:114 | `int(s)` of k decimal digits is a natural number below 10^k |
| Events.IsSubstring | microwave.py:113 | Python's `in` on two strings; it has no contract of its own, and `Events.SubstringIffSlice` proves it holds exactly when the key is a slice of the string |
| Semantics.StateKind.Name | microwave.py:98-145 | each state's `name` property (lines 98-100, 121-123, 143-145): "IDLE", "COOKING", "Pause"; no contract of its own, described by `Properties.NameIdentifiesState` |
| Semantics.AddState | microwave.py:54-55 | the registry gains the state under its name; a state of the same name is replaced; every other entry and field is unchanged |
| Semantics.GoTo | microwave.py:57-63 | the transition fails exactly when the name is unregistered, and then changes no field; otherwise the named state becomes current; registry and event are untouched; hooks are exit of the old state (if any) then enter of the new one |
| Semantics.EnterEffect | microwave.py:102-150 | the three `enter` hooks (lines 102-103, 125-126, 147-150); no contract of its own, described by `Properties.EnteringIdleResetsCookTime`, `Properties.EnteringCookingSetsDeadline` and `Properties.EnteringPauseKeepsTimes` |
| Semantics.TypeDigits | microwave.py:113-114 | IDLE's digit branch changes only the cook time, which does not shrink |
| Semantics.StepIdle | microwave.py:109-115 | IdleState.update; no contract of its own, described by `Properties.IdleStartCooks`, `Properties.IdleDigitAccumulates`, `Properties.IdleIgnoresOtherEvents` and `Properties.StepIdleKeepsWellFormed` |
| Semantics.StepCooking | microwave.py:156-167 | COOKING's update never leaves a negative cook time (one clock reading, see Findings) |
| Semantics.StepPause | microwave.py:128-132 | PauseState.update; no contract of its own, described by `Properties.PauseCases` and `Properties.StepPauseKeepsWellFormed` |
| Semantics.Step | microwave.py:65-68 | `update`; no contract of its own, described by `Properties.UpdateWithoutStateDoesNothing` and `Properties.StepKeepsWellFormed` |
| Semantics.Run | microwave.py:187-193 | the driver loop over a finite script; no contract of its own, described by `Properties.RunSingleTick`, `Properties.RunAppend`, `Properties.RunOneMore`, `Properties.RunStopsAtFault` and `Properties.RunKeepsWellFormed` |
| Semantics.Continue | microwave.py:187-193 | the rest of the driver loop after one update: stop on an exception, otherwise run on and append the hooks; described by the same lemmas as `Semantics.Run` |
| Semantics.Boot | microwave.py:175-184 | the start-up sequence; no contract of its own, described by `Properties.BootIsReady` |
| Properties.NameIdentifiesState | microwave.py:98-145 | the three names "IDLE", "COOKING", "Pause" are distinct, so a name determines its state |
| Properties.AddStateKeepsWellFormed | microwave.py:54-55 | registering a state keeps the invariant and the current state's entry |
| Properties.GoToKeepsWellFormed | microwave.py:57-63 | every transition, failed or not, keeps the invariant |
| Properties.EnteringIdleResetsCookTime | microwave.py:102-103 | entering IDLE sets the cook time to 0, from any state |
| Properties.EnteringCookingSetsDeadline | microwave.py:147-150 | entering COOKING sets the deadline to now plus the cook time and keeps the cook time |
| Properties.EnteringPauseKeepsTimes | microwave.py:125-126 | entering Pause changes nothing but the current state |
| Properties.UpdateWithoutStateDoesNothing | microwave.py:65-68 | `update` with no current state changes nothing and runs no hook |
| Properties.StepIdleKeepsWellFormed | microwave.py:109-114 | IDLE's update keeps the invariant and the registry; with all states registered it raises nothing |
| Properties.TypingKeepsWellFormed | microwave.py:113-114 | typing digits keeps the IDLE cook time whole and non-negative |
| Properties.StepCookingKeepsWellFormed | microwave.py:156-167 | COOKING's update keeps the invariant and never finds the deadline missing |
| Properties.StepPauseKeepsWellFormed | microwave.py:128-132 | Pause's update keeps the invariant |
| Properties.StepKeepsWellFormed | microwave.py:65-68 | every update keeps the invariant, the registry, the event and a current state; with all states registered nothing is raised |
| Properties.IdleDigitAccumulates | microwave.py:113-114 | in IDLE a digit key d makes the cook time `cook_time * 10 + d` and changes nothing else |
| Properties.IdleStartCooks | microwave.py:111-112 | in IDLE, S goes to COOKING with deadline now + cook time; hooks are exit IDLE, enter COOKING |
| Properties.IdleIgnoresOtherEvents | microwave.py:109-114 | in IDLE every other event, the empty one included, changes nothing |
| Properties.CookingPriorities | microwave.py:156-167 | COOKING tests the deadline first, then Q, then P. The first two go to IDLE with cook time 0, running exit COOKING then enter IDLE. P goes to Pause keeping exactly the positive time left, running exit COOKING then enter Pause. Anything else changes nothing |
| Properties.PauseCases | microwave.py:128-132 | Pause: S resumes COOKING with deadline now + remaining time, running exit Pause then enter COOKING; Q goes to IDLE with cook time 0, running exit Pause then enter IDLE; anything else changes nothing |
| Properties.RunAppend | microwave.py:187-190 | running the loop over `a + b` is running over `a`, then over `b` from where `a` stopped, unless `a` raised |
| Properties.RunOneMore | microwave.py:187-190 | one more pass of the loop applies one update after the previous ones and appends its hooks |
| Properties.RunStopsAtFault | microwave.py:187-193 | once an update raises, the rest of the script has no effect |
| Properties.RunSingleTick | microwave.py:189-190 | one pass of the loop is: store the key, then update |
| Properties.RunKeepsWellFormed | microwave.py:187-190 | any run from a well-formed machine stays well formed and keeps its registry; with all states registered it never raises |
| Properties.BootIsReady | microwave.py:175-184 | start-up ends in IDLE with cook time 0, all three states registered, the invariant holding, and only IDLE's enter hook run |
| Properties.TypeOneDigit | microwave.py:113-114 | one digit key appends that digit to the decimal number the cook time spells |
| Properties.TypingDigitsSpellsNumber | microwave.py:113-114 | typing the digits `ds` one per tick turns a cook time spelling `typed` into the number spelled by `typed + ds`, with no transition and no hook |
| Properties.TypingAfterBoot | microwave.py:113-114 | after start-up, typing the digits `ds` leaves IDLE with cook time `int(ds)` |
| Properties.StartCooksForTypedTime | microwave.py:111-112 | S in IDLE cooks for the typed time, counted from the moment S is read |
| Properties.PauseThenResumeShiftsDeadline | microwave.py:147-164 | pause then resume moves the deadline later by exactly the time spent paused (never earlier, on a monotonic clock); hooks are exit COOKING, enter Pause, exit Pause, enter COOKING |
| Properties.CookFifteenSeconds | microwave.py:147-158 | typing 1, 5, S cooks with deadline t + 15; a quiet tick at t + 10 keeps heating; the tick at t + 15 returns to IDLE with cook time 0 |
| Properties.PauseAfterTwoSeconds | microwave.py:147-164 | typing 9, 9, S, then P two seconds in leaves 97 seconds; S later sets the deadline 97 seconds after the resume |
| Properties.StepCookingTwoReads | microwave.py:156-167 | CookingState.update as written, with two clock readings; no contract of its own, described by `Properties.TwoReadsCanLeaveNegativeTime` |
| Properties.TwoReadsCanLeaveNegativeTime | microwave.py:156-164 | with the two clock readings as written, a pause that straddles the deadline stores cook time -0.5 and breaks the invariant |
| Machine.MicrowaveMachine.constructor | microwave.py:48-52 | a new machine has no state, an empty registry, no event, cook time 0 and no deadline; its fields equal `Semantics.Initial`, the value form of `__init__` |
| Machine.MicrowaveMachine.AddState | microwave.py:54-55 | the fields afterwards are `Semantics.AddState` of the fields before: the registry entry for the state's name is set and no other field changes |
| Machine.MicrowaveMachine.Exit | microwave.py:152-153 | an exit hook changes no field of the machine (only COOKING's prints; IDLE's and Pause's run the base `pass` at lines 86-87) |
| Machine.MicrowaveMachine.Enter | microwave.py:102-150 | each enter hook changes the fields as `EnterEffect` says: IDLE clears the cook time, COOKING sets the deadline, Pause changes nothing |
| Machine.MicrowaveMachine.GoToState | microwave.py:57-63 | updates the fields in place exactly as `Semantics.GoTo`, with the same hooks and fault, keeping the invariant |
| Machine.MicrowaveMachine.UpdateIdle | microwave.py:109-115 | IDLE's update in place equals `Semantics.Step` on the old fields |
| Machine.MicrowaveMachine.UpdateCooking | microwave.py:156-167 | COOKING's update in place equals `Semantics.Step` on the old fields |
| Machine.MicrowaveMachine.UpdatePause | microwave.py:128-132 | Pause's update in place equals `Semantics.Step` on the old fields |
| Machine.MicrowaveMachine.Update | microwave.py:65-68 | `update` in place equals `Semantics.Step` on the old fields and keeps the invariant |
| Machine.MicrowaveMachine.HandleTick | microwave.py:189-190 | storing the key and updating equals a one-tick `Semantics.Run` |
| Machine.MicrowaveMachine.Drive | microwave.py:187-193 | the driver loop over a finite script equals `Semantics.Run`, stopping at the first exception |
| Machine.SetUp | microwave.py:175-184 | start-up yields a fresh, well-formed machine in IDLE with cook time 0 and all three states registered |

## Left out

- Reading the keyboard (`get_event`, `msvcrt`): a foreign call. Each tick's key is an input of `Tick`. The upper-casing of the key happens there and is not modelled.
- `log`, the `TESTING` flag and every `print`: console output only, except for the `ValueError` noted below. The hooks that only print are still recorded in the hook trace.
- `time.sleep(0.2)` in COOKING's idle branch: it only throttles polling and changes no field.
- The real clock `time.monotonic()`: replaced by a `now: real` argument, read once per update. As written, COOKING's pause branch reads the clock a second time. That behaviour is modelled separately, see Findings.
- Floating point: times and the cook time are exact `real`s. Rounding of `float` arithmetic is not modelled.
- Properties.StepKeepsWellFormed, Properties.RunKeepsWellFormed and Properties.TypingDigitsSpellsNumber: "raises nothing" means none of the model's two faults. The cook time here is an unbounded `real` that never fails. Two Python exceptions that a very long typed cook time can cause are not modelled:
  - `OverflowError` at microwave.py:150: `time.monotonic() + cook_time` converts the int cook time to float, which fails from 2**1024 on (about 309 typed digits, then S).
  - `ValueError` at microwave.py:115: `print(cook_time)` refuses an int of more than 4300 digits on Python 3.11 and later.

  The driver loop does not catch either exception, so either one would end the program.
- The endless `while True` loop and the `KeyboardInterrupt` handler: the loop is modelled over a finite script of ticks (`Run`, `Drive`). A process interrupt is not an event of the model.
- The abstract `State` base class: each concrete state is a constructor of `StateKind`. Exit hooks change no field; only COOKING's prints.
- The enter/exit hooks are a ghost trace in the class, not a field of the Python object.
- Semantics.StepCooking: models the code with one clock reading. The two-reading version is `Properties.StepCookingTwoReads`.
- Python's typing allows the cook time to go from `int` to `float` after a pause. Both are `real` here.

Where the code and its own prose disagree, the model follows the code:

- The module docstring names only two states. The code registers three.
- The comment at line 149 says the cook time is divided by ten. The code does not divide.
- IDLE's guard is a substring test, not a single-digit test. A multi-character key such as "45" would be accumulated as 45. The keyboard reader only ever produces single keys.
- An unknown state name raises after the old state's exit hook has run. In the pause branch it also raises after the cook time was overwritten. `GoTo` and `StepCooking` keep those updates in the `Outcome` of the fault.

## Findings

| source | as written | input that shows it | evidently intended | confidence | as-written member | corrected member |
|---|---|---|---|---|---|---|
| microwave.py:157,163 | COOKING reads the clock once for the deadline test and again for the remaining time | stop_time = 10.0, event "P", first reading 9.5, second reading 10.5: the deadline test passes, cook_time becomes -0.5, and resuming at 11.0 sets a deadline (10.5) already in the past | the remaining time stored on pause is positive, that is, both uses see one clock reading | low; not executed | Properties.TwoReadsCanLeaveNegativeTime | Semantics.StepCooking |
