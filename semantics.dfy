/** The microwave controller's state machine as values: a snapshot of the
    machine's fields and one function per operation, each returning the new
    snapshot together with the enter/exit hooks it ran and the exception it
    raised, if any. `now` is the reading of the monotonic clock. */
module Semantics {
  import opened Events

  datatype Option<T> = None | Some(value: T)

  /** The three concrete states (microwave.py:93-167). */
  datatype StateKind = Idle | Cooking | Pause {
    /** The `name` property each state exposes; note the mixed case of "Pause". */
    function Name(): string
    {
      match this
      case Idle => "IDLE"
      case Cooking => "COOKING"
      case Pause => "Pause"
    }
  }

  /** A lifecycle hook run by `go_to_state`. */
  datatype Hook = Exited(kind: StateKind) | Entered(kind: StateKind)

  /** The exceptions the core can raise: a `KeyError` for an unregistered
      state name, an `AttributeError` when COOKING reads a `stop_time` that
      was never set. */
  datatype Fault = UnknownState(name: string) | MissingStopTime

  /** The fields of a `MicrowaveMachine`. `stopTime` is `None` while the
      attribute does not exist yet (only COOKING's enter creates it). */
  datatype Config = Config(
    state: Option<StateKind>,
    states: map<string, StateKind>,
    event: string,
    cookTime: real,
    stopTime: Option<real>)

  /** What one operation leaves behind: the new fields, the hooks it ran in
      order, and the exception that ended it (the fields keep every update
      made before the exception was raised). */
  datatype Outcome = Outcome(after: Config, hooks: seq<Hook>, fault: Option<Fault>)

  /** The machine as `__init__` leaves it. */
  const Initial := Config(None, map[], "", 0.0, None)

  function Stay(c: Config): Outcome
  {
    Outcome(c, [], None)
  }

  /** `add_state`: store the state under its own name. */
  function AddState(c: Config, k: StateKind): (d: Config)
    ensures d.states.Keys == c.states.Keys + {k.Name()} && d.states[k.Name()] == k
    ensures forall n :: n in c.states && n != k.Name() ==> d.states[n] == c.states[n]
    ensures d.(states := c.states) == c
  {
    c.(states := c.states[k.Name() := k])
  }

  /** The `enter` hook of each state. Exit hooks change no field. */
  function EnterEffect(c: Config, k: StateKind, now: real): Config
  {
    match k
    case Idle => c.(cookTime := 0.0)
    case Cooking => c.(stopTime := Some(now + c.cookTime))
    case Pause => c
  }

  function ExitHooks(c: Config): seq<Hook>
  {
    if c.state.Some? then [Exited(c.state.value)] else []
  }

  /** `go_to_state`: exit the current state (if any), look the name up, make
      that state current and enter it. The lookup fails after the exit hook
      has run. */
  function GoTo(c: Config, name: string, now: real): (o: Outcome)
    ensures o.fault.None? <==> name in c.states
    ensures o.fault.Some? ==> o.fault == Some(UnknownState(name)) && o.after == c
    ensures o.fault.None? ==> o.after.state == Some(c.states[name])
    ensures o.after.states == c.states && o.after.event == c.event
    ensures o.hooks == (if c.state.Some? then [Exited(c.state.value)] else [])
                       + (if name in c.states then [Entered(c.states[name])] else [])
  {
    if name !in c.states then
      Outcome(c, ExitHooks(c), Some(UnknownState(name)))
    else
      var k := c.states[name];
      Outcome(EnterEffect(c.(state := Some(k)), k, now), ExitHooks(c) + [Entered(k)], None)
  }

  /** IDLE's digit branch: the cook time is multiplied by ten and the
      value of the event added; no other field changes. */
  function TypeDigits(c: Config): (d: Config)
    requires IsDigitRun(c.event)
    ensures d.(cookTime := c.cookTime) == c
    ensures c.cookTime >= 0.0 ==> d.cookTime >= c.cookTime * 10.0
  {
    c.(cookTime := c.cookTime * 10.0 + DecimalValue(c.event) as real)
  }

  /** IdleState.update. */
  function StepIdle(c: Config, now: real): Outcome
  {
    if c.event == Start then
      GoTo(c, "COOKING", now)
    else if IsDigitRun(c.event) then
      Stay(TypeDigits(c))
    else
      Stay(c)
  }

  /** CookingState.update, reading the clock once: the remaining time it
      stores when pausing is never negative. */
  function StepCooking(c: Config, now: real): (o: Outcome)
    ensures c.cookTime >= 0.0 ==> o.after.cookTime >= 0.0
  {
    match c.stopTime
    case None => Outcome(c, [], Some(MissingStopTime))
    case Some(stop) =>
      if stop <= now then
        GoTo(c, "IDLE", now)
      else if c.event == Quit then
        GoTo(c, "IDLE", now)
      else if c.event == PauseKey then
        GoTo(c.(cookTime := stop - now), "Pause", now)
      else
        Stay(c)
  }

  /** PauseState.update. */
  function StepPause(c: Config, now: real): Outcome
  {
    if c.event == Start then
      GoTo(c, "COOKING", now)
    else if c.event == Quit then
      GoTo(c, "IDLE", now)
    else
      Stay(c)
  }

  /** `MicrowaveMachine.update`: dispatch to the current state, if there is one. */
  function Step(c: Config, now: real): Outcome
  {
    match c.state
    case None => Stay(c)
    case Some(Idle) => StepIdle(c, now)
    case Some(Cooking) => StepCooking(c, now)
    case Some(Pause) => StepPause(c, now)
  }

  /** One iteration of the driver loop: the key read this tick and the clock. */
  datatype Tick = Tick(event: string, now: real)

  /** The driver loop over a finite script of ticks: store the event, update,
      and stop at the first exception (the loop does not catch it). */
  function Run(c: Config, ticks: seq<Tick>): Outcome
    decreases |ticks|, 0
  {
    if ticks == [] then Stay(c)
    else Continue(Step(c.(event := ticks[0].event), ticks[0].now), ticks[1..])
  }

  /** The rest of a run once one update has produced `o`. */
  function Continue(o: Outcome, rest: seq<Tick>): Outcome
    decreases |rest|, 1
  {
    if o.fault.Some? then o
    else var r := Run(o.after, rest); Outcome(r.after, o.hooks + r.hooks, r.fault)
  }

  /** The start-up sequence: register the three states, then go to IDLE. */
  function Boot(now: real): Outcome
  {
    GoTo(AddState(AddState(AddState(Initial, Idle), Cooking), Pause), "IDLE", now)
  }

  // ---------------------------------------------------------------------
  // The machine's invariant

  /** Every registered state sits under its own name. */
  predicate WellKeyed(states: map<string, StateKind>)
  {
    forall n :: n in states ==> states[n].Name() == n
  }

  /** All three states are registered. */
  predicate Complete(states: map<string, StateKind>)
  {
    WellKeyed(states) && "IDLE" in states && "COOKING" in states && "Pause" in states
  }

  predicate IsWhole(r: real)
  {
    r.Floor as real == r
  }

  /** What holds of every machine built by the constructor and changed only
      by the operations: the current state is registered, COOKING has a
      deadline, the cook time is never negative, and in IDLE it is a whole
      number of seconds. */
  predicate WellFormed(c: Config)
  {
    && WellKeyed(c.states)
    && (c.state.Some? ==> c.state.value.Name() in c.states)
    && (c.state == Some(Cooking) ==> c.stopTime.Some?)
    && c.cookTime >= 0.0
    && (c.state == Some(Idle) ==> IsWhole(c.cookTime))
  }
}
