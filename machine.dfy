/** The controller object of microwave.py: one `MicrowaveMachine` whose
    fields the states update in place, with each method proved to do what
    the value semantics in module Semantics says. */
module Machine {
  import opened Events
  import opened Semantics
  import Properties

  class MicrowaveMachine {
    /** The current state; `None` until the first transition. */
    var state: Option<StateKind>
    /** The registry: each added state under its name. */
    var states: map<string, StateKind>
    /** The key read this tick, stored by the driver before `Update`. */
    var event: string
    var cookTime: real
    /** The deadline; `None` until COOKING is first entered. */
    var stopTime: Option<real>
    /** Every enter and exit hook run so far, in order. */
    ghost var hooks: seq<Hook>

    function Snapshot(): Config
      reads this
    {
      Config(state, states, event, cookTime, stopTime)
    }

    ghost predicate Valid()
      reads this
    {
      WellFormed(Snapshot())
    }

    constructor ()
      ensures Valid()
      ensures Snapshot() == Initial && hooks == []
    {
      state := None;
      states := map[];
      event := "";
      cookTime := 0.0;
      stopTime := None;
      hooks := [];
    }

    /** Store `k` under its name, replacing a state of the same name. */
    method AddState(k: StateKind)
      requires Valid()
      modifies this
      ensures Valid()
      ensures Snapshot() == Semantics.AddState(old(Snapshot()), k)
      ensures hooks == old(hooks)
    {
      Properties.AddStateKeepsWellFormed(Snapshot(), k);
      states := states[k.Name() := k];
    }

    /** Exit hooks change no field; only COOKING's prints. */
    method Exit(k: StateKind)
      modifies this`hooks
      ensures hooks == old(hooks) + [Exited(k)]
    {
      hooks := hooks + [Exited(k)];
    }

    method Enter(k: StateKind, now: real)
      modifies this
      ensures Snapshot() == EnterEffect(old(Snapshot()), k, now)
      ensures hooks == old(hooks) + [Entered(k)]
    {
      hooks := hooks + [Entered(k)];
      match k {
        case Idle =>
          cookTime := 0.0;
        case Cooking =>
          stopTime := Some(now + cookTime);
        case Pause =>
      }
    }

    /** Exit the current state, look `name` up (an unknown name fails here,
        after the exit hook), then make it current and enter it. */
    method GoToState(name: string, now: real) returns (fault: Option<Fault>)
      requires Valid()
      modifies this
      ensures Valid()
      ensures Snapshot() == GoTo(old(Snapshot()), name, now).after
      ensures hooks == old(hooks) + GoTo(old(Snapshot()), name, now).hooks
      ensures fault == GoTo(old(Snapshot()), name, now).fault
    {
      ghost var before := Snapshot();
      Properties.GoToKeepsWellFormed(before, name, now);
      if state.Some? {
        Exit(state.value);
      }
      if name !in states {
        fault := Some(UnknownState(name));
        return;
      }
      var k := states[name];
      state := Some(k);
      Enter(k, now);
      fault := None;
    }

    /** IdleState.update. */
    method UpdateIdle(now: real) returns (fault: Option<Fault>)
      requires Valid() && state == Some(Idle)
      modifies this
      ensures Valid()
      ensures Snapshot() == Step(old(Snapshot()), now).after
      ensures hooks == old(hooks) + Step(old(Snapshot()), now).hooks
      ensures fault == Step(old(Snapshot()), now).fault
    {
      Properties.StepIdleKeepsWellFormed(Snapshot(), now);
      if event == Start {
        fault := GoToState("COOKING", now);
      } else if IsDigitRun(event) {
        cookTime := cookTime * 10.0 + DecimalValue(event) as real;
        fault := None;
      } else {
        fault := None;
      }
    }

    /** CookingState.update, with one clock reading. */
    method UpdateCooking(now: real) returns (fault: Option<Fault>)
      requires Valid() && state == Some(Cooking)
      modifies this
      ensures Valid()
      ensures Snapshot() == Step(old(Snapshot()), now).after
      ensures hooks == old(hooks) + Step(old(Snapshot()), now).hooks
      ensures fault == Step(old(Snapshot()), now).fault
    {
      Properties.StepCookingKeepsWellFormed(Snapshot(), now);
      var stop := stopTime.value;
      if stop <= now {
        fault := GoToState("IDLE", now);
      } else if event == Quit {
        fault := GoToState("IDLE", now);
      } else if event == PauseKey {
        cookTime := stop - now;
        fault := GoToState("Pause", now);
      } else {
        fault := None;
      }
    }

    /** PauseState.update. */
    method UpdatePause(now: real) returns (fault: Option<Fault>)
      requires Valid() && state == Some(Pause)
      modifies this
      ensures Valid()
      ensures Snapshot() == Step(old(Snapshot()), now).after
      ensures hooks == old(hooks) + Step(old(Snapshot()), now).hooks
      ensures fault == Step(old(Snapshot()), now).fault
    {
      Properties.StepPauseKeepsWellFormed(Snapshot(), now);
      if event == Start {
        fault := GoToState("COOKING", now);
      } else if event == Quit {
        fault := GoToState("IDLE", now);
      } else {
        fault := None;
      }
    }

    /** `update`: hand the tick to the current state, if there is one. */
    method Update(now: real) returns (fault: Option<Fault>)
      requires Valid()
      modifies this
      ensures Valid()
      ensures Snapshot() == Step(old(Snapshot()), now).after
      ensures hooks == old(hooks) + Step(old(Snapshot()), now).hooks
      ensures fault == Step(old(Snapshot()), now).fault
    {
      match state {
        case None =>
          fault := None;
        case Some(Idle) =>
          fault := UpdateIdle(now);
        case Some(Cooking) =>
          fault := UpdateCooking(now);
        case Some(Pause) =>
          fault := UpdatePause(now);
      }
    }

    /** One pass of the driver loop: store the key read this tick, then
        update. */
    method HandleTick(t: Tick) returns (fault: Option<Fault>)
      requires Valid()
      modifies this
      ensures Valid()
      ensures Snapshot() == Run(old(Snapshot()), [t]).after
      ensures hooks == old(hooks) + Run(old(Snapshot()), [t]).hooks
      ensures fault == Run(old(Snapshot()), [t]).fault
    {
      Properties.RunSingleTick(Snapshot(), t);
      event := t.event;
      fault := Update(t.now);
    }

    /** The driver loop over a finite script of ticks, stopping at the
        first exception. */
    method Drive(ticks: seq<Tick>) returns (fault: Option<Fault>)
      requires Valid()
      modifies this
      ensures Valid()
      ensures Snapshot() == Run(old(Snapshot()), ticks).after
      ensures hooks == old(hooks) + Run(old(Snapshot()), ticks).hooks
      ensures fault == Run(old(Snapshot()), ticks).fault
    {
      ghost var start := Snapshot();
      fault := None;
      var i := 0;
      while i < |ticks| && fault.None?
        invariant 0 <= i <= |ticks|
        invariant Valid()
        invariant Snapshot() == Run(start, ticks[..i]).after
        invariant hooks == old(hooks) + Run(start, ticks[..i]).hooks
        invariant fault == Run(start, ticks[..i]).fault
      {
        ghost var done := Run(start, ticks[..i]);
        ghost var next := Run(done.after, [ticks[i]]);
        fault := HandleTick(ticks[i]);
        Properties.RunOneMore(start, ticks, i);
        assert hooks == old(hooks) + (done.hooks + next.hooks);
        i := i + 1;
      }
      if fault.Some? {
        Properties.RunStopsAtFault(start, ticks, i);
      } else {
        assert ticks[..i] == ticks;
      }
    }
  }

  /** The start-up of microwave.py's main program: a new machine, the three
      states registered, then IDLE entered. */
  method SetUp(now: real) returns (m: MicrowaveMachine)
    ensures fresh(m) && m.Valid()
    ensures m.Snapshot() == Boot(now).after && m.hooks == Boot(now).hooks
    ensures m.state == Some(Idle) && m.cookTime == 0.0 && Complete(m.states)
  {
    m := new MicrowaveMachine();
    m.AddState(Idle);
    m.AddState(Cooking);
    m.AddState(Pause);
    var fault := m.GoToState("IDLE", now);
    Properties.BootIsReady(now);
  }
}
