/** What the microwave controller promises, proved of the value semantics. */
module Properties {
  import opened Events
  import opened Semantics

  // ---------------------------------------------------------------------
  // The registry and the transition protocol

  /** The three names are distinct, so a state is determined by its name. */
  lemma NameIdentifiesState(k1: StateKind, k2: StateKind)
    ensures k1.Name() == k2.Name() <==> k1 == k2
  {
  }

  lemma AddStateKeepsWellFormed(c: Config, k: StateKind)
    requires WellFormed(c)
    ensures WellFormed(AddState(c, k))
    ensures c.state.Some? ==> AddState(c, k).states[c.state.value.Name()] == c.state.value
  {
  }

  /** A transition lands in a well-formed machine, whatever the previous state. */
  lemma GoToKeepsWellFormed(c: Config, name: string, now: real)
    requires WellFormed(c)
    ensures WellFormed(GoTo(c, name, now).after)
  {
    if name in c.states {
      var k := c.states[name];
      assert k.Name() == name;
      if k == Idle {
        assert IsWhole(0.0);
      }
    }
  }

  /** Entering IDLE sets the cook time to zero, whatever it was and
      whichever state was current before. */
  lemma EnteringIdleResetsCookTime(c: Config, name: string, now: real)
    requires name in c.states && c.states[name] == Idle
    ensures var o := GoTo(c, name, now);
      o.fault.None? && o.after.state == Some(Idle) && o.after.cookTime == 0.0
  {
  }

  /** Entering COOKING sets the deadline from the cook time as it is at that
      moment, and leaves the cook time alone. */
  lemma EnteringCookingSetsDeadline(c: Config, name: string, now: real)
    requires name in c.states && c.states[name] == Cooking
    ensures var o := GoTo(c, name, now);
      o.fault.None? && o.after.state == Some(Cooking)
      && o.after.stopTime == Some(now + c.cookTime) && o.after.cookTime == c.cookTime
  {
  }

  /** Entering Pause changes nothing but the current state. */
  lemma EnteringPauseKeepsTimes(c: Config, name: string, now: real)
    requires name in c.states && c.states[name] == Pause
    ensures GoTo(c, name, now) == Outcome(c.(state := Some(Pause)), ExitHooks(c) + [Entered(Pause)], None)
  {
  }

  // ---------------------------------------------------------------------
  // update

  /** With no current state, `update` does nothing. */
  lemma UpdateWithoutStateDoesNothing(c: Config, now: real)
    requires c.state.None?
    ensures Step(c, now) == Outcome(c, [], None)
  {
  }

  /** What one update keeps: the machine stays well formed, the current
      state is never lost, the registry and the event are untouched, no
      deadline is found missing, and with all three states registered
      nothing is raised. */
  ghost predicate UpdateKeeps(c: Config, o: Outcome)
  {
    && WellFormed(o.after)
    && o.after.states == c.states
    && o.after.event == c.event
    && (c.state.Some? ==> o.after.state.Some?)
    && o.fault != Some(MissingStopTime)
    && (Complete(c.states) ==> o.fault.None?)
  }

  lemma StepIdleKeepsWellFormed(c: Config, now: real)
    requires WellFormed(c) && c.state == Some(Idle)
    ensures UpdateKeeps(c, StepIdle(c, now))
  {
    if c.event == Start {
      GoToKeepsWellFormed(c, "COOKING", now);
    } else if IsDigitRun(c.event) {
      TypingKeepsWellFormed(c);
    }
  }

  /** Typing digits keeps the cook time a whole number of seconds. */
  lemma TypingKeepsWellFormed(c: Config)
    requires WellFormed(c) && c.state == Some(Idle) && IsDigitRun(c.event)
    ensures WellFormed(TypeDigits(c))
  {
    WholeShift(c.cookTime, DecimalValue(c.event));
  }

  lemma StepCookingKeepsWellFormed(c: Config, now: real)
    requires WellFormed(c) && c.state == Some(Cooking)
    ensures UpdateKeeps(c, StepCooking(c, now))
  {
    var stop := c.stopTime.value;
    if stop <= now || c.event == Quit {
      GoToKeepsWellFormed(c, "IDLE", now);
    } else if c.event == PauseKey {
      GoToKeepsWellFormed(c.(cookTime := stop - now), "Pause", now);
    }
  }

  lemma StepPauseKeepsWellFormed(c: Config, now: real)
    requires WellFormed(c) && c.state == Some(Pause)
    ensures UpdateKeeps(c, StepPause(c, now))
  {
    if c.event == Start {
      GoToKeepsWellFormed(c, "COOKING", now);
    } else if c.event == Quit {
      GoToKeepsWellFormed(c, "IDLE", now);
    }
  }

  /** One update keeps the machine well formed, in every state. */
  lemma StepKeepsWellFormed(c: Config, now: real)
    requires WellFormed(c)
    ensures UpdateKeeps(c, Step(c, now))
  {
    match c.state
    case None =>
    case Some(Idle) => StepIdleKeepsWellFormed(c, now);
    case Some(Cooking) => StepCookingKeepsWellFormed(c, now);
    case Some(Pause) => StepPauseKeepsWellFormed(c, now);
  }

  lemma WholeShift(x: real, n: nat)
    requires IsWhole(x)
    ensures IsWhole(x * 10.0 + n as real)
  {
    var k := x.Floor;
    assert x * 10.0 + n as real == (k * 10 + n) as real;
  }

  /** In IDLE a single digit key shifts the cook time one decimal place left
      and adds the digit; the machine stays in IDLE. */
  lemma IdleDigitAccumulates(c: Config, d: char, now: real)
    requires c.state == Some(Idle) && c.event == [d] && IsDigit(d)
    ensures Step(c, now) == Stay(c.(cookTime := c.cookTime * 10.0 + DigitValue(d) as real))
  {
    SingleKeyIsDigitRun(d);
    assert [d][..0] == [];
  }

  /** In IDLE the Start key goes to COOKING, whose deadline is the cook time
      typed so far from now. */
  lemma IdleStartCooks(c: Config, now: real)
    requires Complete(c.states) && c.state == Some(Idle) && c.event == Start
    ensures var o := Step(c, now);
      && o.fault.None? && o.after.state == Some(Cooking) && o.after.states == c.states
      && o.after.cookTime == c.cookTime && o.after.stopTime == Some(now + c.cookTime)
      && o.hooks == [Exited(Idle), Entered(Cooking)]
  {
    assert c.states["COOKING"].Name() == "COOKING";
  }

  /** In IDLE every event that is neither Start nor a digit run, the empty
      event included, changes nothing. */
  lemma IdleIgnoresOtherEvents(c: Config, now: real)
    requires c.state == Some(Idle) && c.event != Start && !IsDigitRun(c.event)
    ensures Step(c, now) == Stay(c)
  {
  }

  /** COOKING checks the deadline first, then Quit, then Pause; pausing keeps
      exactly the time that was left, which is positive; anything else keeps
      heating without changing a field. */
  lemma CookingPriorities(c: Config, now: real)
    requires Complete(c.states) && c.state == Some(Cooking) && c.stopTime.Some?
    ensures var stop, o := c.stopTime.value, Step(c, now);
      && o.fault.None? && o.after.states == c.states
      && (stop <= now ==>
            o.after.state == Some(Idle) && o.after.cookTime == 0.0
            && o.hooks == [Exited(Cooking), Entered(Idle)])
      && (stop > now && c.event == Quit ==>
            o.after.state == Some(Idle) && o.after.cookTime == 0.0
            && o.hooks == [Exited(Cooking), Entered(Idle)])
      && (stop > now && c.event == PauseKey ==>
            o.after.state == Some(Pause) && o.after.cookTime == stop - now > 0.0
            && o.after.stopTime == c.stopTime
            && o.hooks == [Exited(Cooking), Entered(Pause)])
      && (stop > now && c.event != Quit && c.event != PauseKey ==> o == Stay(c))
  {
    assert c.states["IDLE"].Name() == "IDLE";
    assert c.states["Pause"].Name() == "Pause";
  }

  /** Pause resumes on Start with a fresh deadline from the remaining time,
      cancels to IDLE on Quit, and ignores everything else. */
  lemma PauseCases(c: Config, now: real)
    requires Complete(c.states) && c.state == Some(Pause)
    ensures var o := Step(c, now);
      && o.fault.None? && o.after.states == c.states
      && (c.event == Start ==>
            o.after.state == Some(Cooking) && o.after.cookTime == c.cookTime
            && o.after.stopTime == Some(now + c.cookTime)
            && o.hooks == [Exited(Pause), Entered(Cooking)])
      && (c.event == Quit ==>
            o.after.state == Some(Idle) && o.after.cookTime == 0.0
            && o.hooks == [Exited(Pause), Entered(Idle)])
      && (c.event != Start && c.event != Quit ==> o == Stay(c))
  {
    assert c.states["IDLE"].Name() == "IDLE";
    assert c.states["COOKING"].Name() == "COOKING";
  }

  // ---------------------------------------------------------------------
  // Runs of the driver loop

  /** A run over `a + b` is the run over `a` followed by the run over `b`. */
  lemma {:induction false} RunAppend(c: Config, a: seq<Tick>, b: seq<Tick>)
    ensures var ra := Run(c, a);
      Run(c, a + b) ==
        if ra.fault.Some? then ra
        else var rb := Run(ra.after, b); Outcome(rb.after, ra.hooks + rb.hooks, rb.fault)
    decreases |a|
  {
    if a == [] {
      assert a + b == b;
    } else {
      assert (a + b)[0] == a[0];
      assert (a + b)[1..] == a[1..] + b;
      var o := Step(c.(event := a[0].event), a[0].now);
      assert Run(c, a + b) == Continue(o, a[1..] + b);
      if o.fault.None? {
        RunAppend(o.after, a[1..], b);
        var ra, rb := Run(o.after, a[1..]), Run(Run(o.after, a[1..]).after, b);
        if ra.fault.None? {
          assert o.hooks + (ra.hooks + rb.hooks) == (o.hooks + ra.hooks) + rb.hooks;
        }
      }
    }
  }

  /** The driver loop one tick further: the next update starts from where
      the earlier ticks left the machine, and its hooks come after theirs. */
  lemma RunOneMore(c: Config, ticks: seq<Tick>, i: nat)
    requires i < |ticks| && Run(c, ticks[..i]).fault.None?
    ensures var done := Run(c, ticks[..i]);
      var o := Run(done.after, [ticks[i]]);
      Run(c, ticks[..i + 1]) == Outcome(o.after, done.hooks + o.hooks, o.fault)
  {
    RunAppend(c, ticks[..i], [ticks[i]]);
    assert ticks[..i] + [ticks[i]] == ticks[..i + 1];
  }

  /** Once an update raises, the rest of the script is never read. */
  lemma RunStopsAtFault(c: Config, ticks: seq<Tick>, i: nat)
    requires i <= |ticks| && Run(c, ticks[..i]).fault.Some?
    ensures Run(c, ticks) == Run(c, ticks[..i])
  {
    RunAppend(c, ticks[..i], ticks[i..]);
    assert ticks[..i] + ticks[i..] == ticks;
  }

  /** Started from a well-formed machine, a run of the driver loop keeps it
      well formed, never leaves it without a state, never touches the
      registry, and with all three states registered never raises. */
  lemma {:induction false} RunKeepsWellFormed(c: Config, ticks: seq<Tick>)
    requires WellFormed(c)
    ensures var o := Run(c, ticks);
      && WellFormed(o.after)
      && o.after.states == c.states
      && (c.state.Some? ==> o.after.state.Some?)
      && o.fault != Some(MissingStopTime)
      && (Complete(c.states) ==> o.fault.None?)
    decreases |ticks|
  {
    if ticks != [] {
      var c' := c.(event := ticks[0].event);
      StepKeepsWellFormed(c', ticks[0].now);
      var o := Step(c', ticks[0].now);
      if o.fault.None? {
        RunKeepsWellFormed(o.after, ticks[1..]);
      }
    }
  }

  /** Start-up leaves the machine in IDLE with a zero cook time, all three
      states registered, and only IDLE's enter hook run. */
  lemma BootIsReady(now: real)
    ensures var o := Boot(now);
      && o.fault.None?
      && o.after.state == Some(Idle) && o.after.cookTime == 0.0
      && Complete(o.after.states) && WellFormed(o.after)
      && o.hooks == [Entered(Idle)]
  {
    var c := AddState(AddState(AddState(Initial, Idle), Cooking), Pause);
    assert c.states == map["IDLE" := Idle, "COOKING" := Cooking, "Pause" := Pause];
    assert IsWhole(0.0);
  }

  /** The keys of `ds`, one per tick, at the given clock readings. */
  function KeyPresses(ds: string, times: seq<real>): (ticks: seq<Tick>)
    requires |times| == |ds|
    ensures |ticks| == |ds|
    ensures forall i :: 0 <= i < |ds| ==> ticks[i] == Tick([ds[i]], times[i])
  {
    if ds == [] then [] else [Tick([ds[0]], times[0])] + KeyPresses(ds[1..], times[1..])
  }

  /** A tick whose update changes nothing but the fields leaves the rest of
      the run to start from the new fields. */
  lemma RunPastQuietTick(c: Config, ticks: seq<Tick>, next: Config)
    requires ticks != [] && Step(c.(event := ticks[0].event), ticks[0].now) == Stay(next)
    ensures Run(c, ticks) == Run(next, ticks[1..])
  {
    var r := Run(next, ticks[1..]);
    assert Run(c, ticks) == Outcome(r.after, [] + r.hooks, r.fault);
  }

  /** One digit key in IDLE appends that digit to the number the cook time spells. */
  lemma TypeOneDigit(c: Config, typed: string, d: char, now: real)
    requires c.state == Some(Idle) && AllDigits(typed) && IsDigit(d)
    requires c.cookTime == DecimalValue(typed) as real
    ensures AllDigits(typed + [d])
    ensures Step(c.(event := [d]), now) == Stay(c.(event := [d], cookTime := DecimalValue(typed + [d]) as real))
  {
    var t := typed + [d];
    assert AllDigits(t) by {
      forall k | 0 <= k < |t| ensures IsDigit(t[k]) {
        if k < |typed| { assert t[k] == typed[k]; }
      }
    }
    assert t[..|t| - 1] == typed;
    IdleDigitAccumulates(c.(event := [d]), d, now);
  }

  lemma ShiftFirst(typed: string, ds: string)
    requires ds != []
    ensures (typed + [ds[0]]) + ds[1..] == typed + ds
  {
    assert ds == [ds[0]] + ds[1..];
  }

  /** Typing digits in IDLE, one key per tick, extends the decimal number
      the cook time spells: starting from the number spelled by `typed`, the
      cook time afterwards is the number spelled by `typed + ds`. */
  lemma {:induction false} TypingDigitsSpellsNumber(c: Config, typed: string, ds: string, times: seq<real>)
    requires c.state == Some(Idle) && AllDigits(typed) && AllDigits(ds) && |times| == |ds|
    requires c.cookTime == DecimalValue(typed) as real
    ensures AllDigits(typed + ds)
    ensures var o := Run(c, KeyPresses(ds, times));
      && o.fault.None? && o.hooks == []
      && o.after.state == Some(Idle) && o.after.states == c.states
      && o.after.cookTime == DecimalValue(typed + ds) as real
    decreases |ds|
  {
    var ticks := KeyPresses(ds, times);
    if ds == [] {
      assert ticks == [];
      assert typed + ds == typed;
    } else {
      var d, rest := ds[0], ds[1..];
      assert AllDigits(rest) by {
        forall k | 0 <= k < |rest| ensures IsDigit(rest[k]) {
          assert rest[k] == ds[k + 1];
        }
      }
      assert ticks[0] == Tick([d], times[0]);
      assert ticks[1..] == KeyPresses(rest, times[1..]);
      TypeOneDigit(c, typed, d, times[0]);
      var typed' := typed + [d];
      var next := c.(event := [d], cookTime := DecimalValue(typed') as real);
      RunPastQuietTick(c, ticks, next);
      TypingDigitsSpellsNumber(next, typed', rest, times[1..]);
      ShiftFirst(typed, ds);
    }
  }

  /** Pausing and then resuming moves the deadline back by exactly the time
      spent paused; with a clock that never runs backwards the deadline
      never moves earlier. */
  lemma PauseThenResumeShiftsDeadline(c: Config, pausedAt: real, resumedAt: real)
    requires Complete(c.states) && c.state == Some(Cooking) && c.stopTime.Some?
    requires pausedAt < c.stopTime.value
    ensures var o := Run(c, [Tick(PauseKey, pausedAt), Tick(Start, resumedAt)]);
      && o.fault.None? && o.after.state == Some(Cooking)
      && o.after.cookTime == c.stopTime.value - pausedAt
      && o.after.stopTime == Some(c.stopTime.value + (resumedAt - pausedAt))
      && (pausedAt <= resumedAt ==> o.after.stopTime.value >= c.stopTime.value)
      && o.hooks == [Exited(Cooking), Entered(Pause), Exited(Pause), Entered(Cooking)]
  {
    var t1, t2 := Tick(PauseKey, pausedAt), Tick(Start, resumedAt);
    var c1 := c.(event := PauseKey);
    CookingPriorities(c1, pausedAt);
    var o1 := Step(c1, pausedAt);
    assert o1.hooks == [Exited(Cooking), Entered(Pause)];
    var c2 := o1.after.(event := Start);
    PauseCases(c2, resumedAt);
    var o2 := Step(c2, resumedAt);
    assert o2.hooks == [Exited(Pause), Entered(Cooking)];
    RunSingleTick(c, t1);
    RunSingleTick(o1.after, t2);
    RunAppend(c, [t1], [t2]);
    assert [t1] + [t2] == [t1, t2];
  }

  /** A run of one tick is one update. */
  lemma RunSingleTick(c: Config, t: Tick)
    ensures Run(c, [t]) == Step(c.(event := t.event), t.now)
  {
    var o := Step(c.(event := t.event), t.now);
    assert [t][1..] == [];
    assert o.hooks + [] == o.hooks;
  }

  // ---------------------------------------------------------------------
  // End-to-end scenarios

  /** From start-up, typing the digits `ds` leaves IDLE with the number
      they spell as the cook time. */
  lemma TypingAfterBoot(t: real, ds: string, times: seq<real>)
    requires AllDigits(ds) && |times| == |ds|
    ensures var typed := Run(Boot(t).after, KeyPresses(ds, times));
      && typed.fault.None? && typed.after.state == Some(Idle)
      && typed.after.cookTime == DecimalValue(ds) as real
      && Complete(typed.after.states)
  {
    BootIsReady(t);
    var b := Boot(t).after;
    assert b.cookTime == DecimalValue("") as real;
    TypingDigitsSpellsNumber(b, "", ds, times);
    assert "" + ds == ds;
  }

  /** Start in IDLE cooks for the cook time typed so far, counted from the
      moment Start is read. */
  lemma StartCooksForTypedTime(c: Config, startAt: real)
    requires Complete(c.states) && c.state == Some(Idle)
    ensures var started := Run(c, [Tick(Start, startAt)]);
      && started.fault.None? && started.after.state == Some(Cooking)
      && started.after.cookTime == c.cookTime
      && started.after.stopTime == Some(startAt + c.cookTime)
      && started.after.states == c.states
  {
    RunSingleTick(c, Tick(Start, startAt));
    IdleStartCooks(c.(event := Start), startAt);
  }

  /** Type 1, 5, Start: fifteen seconds of cooking; a tick with no key ten
      seconds in keeps heating; the tick at the deadline goes back to IDLE. */
  lemma CookFifteenSeconds(t: real)
    ensures var typed := Run(Boot(t).after, KeyPresses("15", [t, t]));
      var started := Run(typed.after, [Tick(Start, t)]);
      var heating := Run(started.after, [Tick("", t + 10.0)]);
      var done := Run(heating.after, [Tick("", t + 15.0)]);
      && typed.after.state == Some(Idle) && typed.after.cookTime == 15.0
      && started.after.state == Some(Cooking) && started.after.stopTime == Some(t + 15.0)
      && heating.after.state == Some(Cooking)
      && done.fault.None? && done.after.state == Some(Idle) && done.after.cookTime == 0.0
  {
    assert DecimalValue("15") == 15 by {
      assert "15"[..1] == "1";
    }
    TypingAfterBoot(t, "15", [t, t]);
    var typed := Run(Boot(t).after, KeyPresses("15", [t, t])).after;
    StartCooksForTypedTime(typed, t);
    var started := Run(typed, [Tick(Start, t)]).after;
    RunSingleTick(started, Tick("", t + 10.0));
    CookingPriorities(started.(event := ""), t + 10.0);
    var heating := Run(started, [Tick("", t + 10.0)]).after;
    RunSingleTick(heating, Tick("", t + 15.0));
    CookingPriorities(heating.(event := ""), t + 15.0);
  }

  /** Type 9, 9, Start; pause two seconds in: 97 seconds remain; resume
      later: the new deadline is 97 seconds after the resume. */
  lemma PauseAfterTwoSeconds(t: real, resumedAt: real)
    ensures var typed := Run(Boot(t).after, KeyPresses("99", [t, t]));
      var started := Run(typed.after, [Tick(Start, t)]);
      var paused := Run(started.after, [Tick(PauseKey, t + 2.0)]);
      var resumed := Run(paused.after, [Tick(Start, resumedAt)]);
      && typed.after.cookTime == 99.0
      && started.after.state == Some(Cooking) && started.after.stopTime == Some(t + 99.0)
      && paused.after.state == Some(Pause) && paused.after.cookTime == 97.0
      && resumed.after.state == Some(Cooking) && resumed.after.stopTime == Some(resumedAt + 97.0)
  {
    assert DecimalValue("99") == 99 by {
      assert "99"[..1] == "9";
    }
    TypingAfterBoot(t, "99", [t, t]);
    var typed := Run(Boot(t).after, KeyPresses("99", [t, t])).after;
    StartCooksForTypedTime(typed, t);
    var started := Run(typed, [Tick(Start, t)]).after;
    RunSingleTick(started, Tick(PauseKey, t + 2.0));
    CookingPriorities(started.(event := PauseKey), t + 2.0);
    var paused := Run(started, [Tick(PauseKey, t + 2.0)]).after;
    RunSingleTick(paused, Tick(Start, resumedAt));
    PauseCases(paused.(event := Start), resumedAt);
  }

  // ---------------------------------------------------------------------
  // Two clock readings in COOKING's update

  /** CookingState.update as written: the deadline test reads the clock
      once (`checkedAt`) and the pause branch reads it again (`readAt`). */
  function StepCookingTwoReads(c: Config, checkedAt: real, readAt: real): Outcome
    requires checkedAt <= readAt
  {
    match c.stopTime
    case None => Outcome(c, [], Some(MissingStopTime))
    case Some(stop) =>
      if stop <= checkedAt then
        GoTo(c, "IDLE", checkedAt)
      else if c.event == Quit then
        GoTo(c, "IDLE", checkedAt)
      else if c.event == PauseKey then
        GoTo(c.(cookTime := stop - readAt), "Pause", readAt)
      else
        Stay(c)
  }

  /** When the deadline passes between the two readings, Pause is entered
      with a negative remaining time, and resuming sets a deadline that has
      already gone by. */
  lemma TwoReadsCanLeaveNegativeTime()
    ensures var c := Config(Some(Cooking), map["IDLE" := Idle, "COOKING" := Cooking, "Pause" := Pause],
                            PauseKey, 10.0, Some(10.0));
      var o := StepCookingTwoReads(c, 9.5, 10.5);
      && WellFormed(c)
      && o.fault.None? && o.after.state == Some(Pause)
      && o.after.cookTime == -0.5 && !WellFormed(o.after)
      && StepPause(o.after.(event := Start), 11.0).after.stopTime == Some(10.5)
  {
  }
}
