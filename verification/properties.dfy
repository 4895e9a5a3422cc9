/**
 Properties of the timer controller over single events and event sequences:
 the reachable-state invariant, where each counter may change, the cyclic
 setting cursor, the countdown and its alarm, and a complete usage scenario.
 */
module Properties {
  import opened Clock
  import opened TimerState
  import opened UnitMarker
  import opened Handlers
  import opened Events

  /** Running a concatenation is running its parts one after the other. */
  lemma {:induction false} RunAppend(t: Timer, a: seq<Event>, b: seq<Event>)
    ensures Run(t, a + b) == Run(Run(t, a), b)
    decreases |a|
  {
    if |a| == 0 {
      assert a + b == b;
    } else {
      assert (a + b)[0] == a[0];
      assert (a + b)[1..] == a[1..] + b;
      RunAppend(Step(t, a[0]), a[1..], b);
    }
  }

  /** One more tick at the front of a run of ticks. */
  lemma TicksUnfold(t: Timer, n: nat)
    requires n > 0
    ensures Run(t, Ticks(n)) == Run(SecondTick(t), Ticks(n - 1))
  {
    assert Ticks(n)[1..] == Ticks(n - 1);
  }

  /** Each gesture reaches its own handler and only that one: the select
      click, long press and double click, the up and down clicks and the tick
      each run their handler, and every other press changes nothing. */
  lemma StepDispatch(t: Timer, b: Button, g: Gesture)
    ensures Step(t, Press(Select, Click)) == SelectPressed(t)
    ensures Step(t, Press(Select, LongClick)) == ToggleSettingMode(t)
    ensures Step(t, Press(Select, MultiClick)) == ResetTimer(t)
    ensures Step(t, Press(Up, Click)) == ButtonUp(t)
    ensures Step(t, Press(Down, Click)) == ButtonDown(t)
    ensures Step(t, Tick) == SecondTick(t)
    ensures b != Select && g != Click ==> Step(t, Press(b, g)) == t
  {
  }

  /** Every event keeps the invariant. */
  lemma StepPreservesInv(t: Timer, e: Event)
    requires Inv(t)
    ensures Inv(Step(t, e))
  {
  }

  /** Every sequence of events keeps the invariant; in particular every state
      reachable from start-up has its configured duration in [0, 100 hours),
      remaining seconds at most the configured ones, and a countdown text in
      step with the remaining seconds. */
  lemma {:induction false} RunPreservesInv(t: Timer, es: seq<Event>)
    requires Inv(t)
    ensures Inv(Run(t, es))
    decreases |es|
  {
    if |es| > 0 {
      StepPreservesInv(t, es[0]);
      RunPreservesInv(Step(t, es[0]), es[1..]);
    }
  }

  lemma ReachableStatesSatisfyInv(es: seq<Event>)
    ensures Inv(Run(Startup(), es))
  {
    RunPreservesInv(Startup(), es);
  }

  /** The remaining seconds go down only by a tick while counting down (by
      exactly one) or by a down press while setting. */
  lemma RemainingOnlyDecreasesWhenCountingOrSetting(t: Timer, e: Event)
    requires Inv(t)
    ensures Step(t, e).current < t.current ==>
              || (t.mode == CountingDown && e == Tick && Step(t, e).current == t.current - 1)
              || (t.mode == Setting && e == Press(Down, Click))
  {
  }

  /** The alarm is requested only by the tick that takes a countdown from one
      second to zero, which also stops it; no event requests it twice. */
  lemma AlarmOnlyOnCompletion(t: Timer, e: Event)
    ensures Step(t, e).alarms == t.alarms || Step(t, e).alarms == t.alarms + 1
    ensures Step(t, e).alarms != t.alarms <==>
              e == Tick && t.mode == CountingDown && t.current == 1
    ensures Step(t, e).alarms != t.alarms ==> Step(t, e).mode == Done
  {
  }

  /** While setting, three select clicks bring the cursor back to the unit it
      started on, leaving the durations alone. */
  lemma ThreeSelectsCycleCursor(t: Timer)
    requires t.mode == Setting
    ensures var r := Run(t, [Press(Select, Click), Press(Select, Click), Press(Select, Click)]);
            r.unit == t.unit && r.mode == Setting && r.total == t.total && r.current == t.current
  {
  }

  /** Entering setting and leaving it again, with no up/down press between,
      keeps the configured duration and ends stopped, with the remaining
      seconds reloaded and the cursor on minutes. */
  lemma EnterThenExitSetting(t: Timer)
    requires t.mode != Setting
    ensures var r := Run(t, [Press(Select, LongClick), Press(Select, LongClick)]);
            r.mode == Done && r.total == t.total && r.current == t.total && r.unit == Minute
  {
  }

  /** A double click outside setting always leaves the remaining seconds equal
      to the configured duration, stopped; while setting it does nothing. */
  lemma ResetReloads(t: Timer)
    ensures t.mode != Setting ==>
              Step(t, Press(Select, MultiClick)).current == t.total
              && Step(t, Press(Select, MultiClick)).mode == Done
    ensures t.mode == Setting ==> Step(t, Press(Select, MultiClick)) == t
  {
  }

  /** While counting down from n > 0, k < n ticks take exactly k seconds off
      and neither stop the countdown nor request the alarm. */
  lemma {:induction false} CountdownTicks(t: Timer, k: nat)
    requires t.mode == CountingDown && k < t.current
    ensures var r := Run(t, Ticks(k));
            && r.mode == CountingDown && r.current == t.current - k
            && r.total == t.total && r.alarms == t.alarms
    decreases k
  {
    if k > 0 {
      TicksUnfold(t, k);
      CountdownTicks(SecondTick(t), k - 1);
    }
  }

  /** Started with n > 0 seconds left, n ticks bring the countdown to zero,
      stop it and request the alarm exactly once. */
  lemma CountdownCompletes(t: Timer)
    requires t.mode == CountingDown && t.current > 0
    ensures var r := Run(t, Ticks(t.current));
            && r.mode == Done && r.current == 0
            && r.total == t.total && r.alarms == t.alarms + 1
  {
    var n := t.current;
    assert Ticks(n) == Ticks(n - 1) + [Tick];
    RunAppend(t, Ticks(n - 1), [Tick]);
    CountdownTicks(t, n - 1);
  }

  /** A countdown started with nothing left (a zero duration, or select
      pressed right after an alarm before the next tick reloads it) runs below
      zero for ever: it never stops and never requests the alarm. */
  lemma {:induction false} CountdownFromZeroNeverAlarms(t: Timer, k: nat)
    requires t.mode == CountingDown && t.current <= 0
    ensures var r := Run(t, Ticks(k));
            r.mode == CountingDown && r.current == t.current - k && r.alarms == t.alarms
    decreases k
  {
    if k > 0 {
      TicksUnfold(t, k);
      CountdownFromZeroNeverAlarms(SecondTick(t), k - 1);
    }
  }

  /** Once stopped, ticks keep the timer stopped and never re-request the
      alarm. */
  lemma {:induction false} NoAlarmWhileDone(t: Timer, k: nat)
    requires t.mode == Done
    ensures var r := Run(t, Ticks(k));
            r.mode == Done && r.alarms == t.alarms && r.current == (if k == 0 then t.current else t.total)
    decreases k
  {
    if k > 0 {
      TicksUnfold(t, k);
      NoAlarmWhileDone(SecondTick(t), k - 1);
    }
  }

  /** A tick while stopped and already in step formats nothing again: the
      memo suppresses the redundant text update. */
  lemma IdleTickIsSilent(t: Timer)
    requires Inv(t) && t.mode == Done && t.current == t.total
    ensures Step(t, Tick) == t
  {
  }

  /** Whenever an event moves the cursor or flips its blink phase, a marker
      redraw is requested; redraws are requested only around setting. */
  lemma MarkerRedrawnOnCursorChange(t: Timer, e: Event)
    ensures var r := Step(t, e);
            (r.unit != t.unit || r.blink != t.blink) ==> r.markerRedraws == t.markerRedraws + 1
    ensures var r := Step(t, e);
            r.markerRedraws != t.markerRedraws ==> r.mode == Setting
  {
  }

  /** Leaving setting hides the marker without a redraw request: the marker
      layer is not marked dirty on that path. */
  lemma ExitSettingHidesMarkerWithoutRedraw(t: Timer)
    requires t.mode == Setting && t.blink
    ensures var r := Step(t, Press(Select, LongClick));
            Marker(t).Bar? && r.markerRedraws == t.markerRedraws && r.(mode := Setting) == t
            && Marker(r) == Hidden
  {
  }

  /** Five minutes configured; enter setting, one up press on minutes makes it
      six; leave setting and start: 360 ticks later the timer is stopped and
      the alarm was requested once. */
  lemma SixMinuteScenario()
    ensures var prefix := [Press(Select, LongClick), Press(Up, Click),
                           Press(Select, LongClick), Press(Select, Click)];
            var r := Run(Startup(), prefix + Ticks(360));
            && Run(Startup(), prefix).total == 360
            && r.mode == Done && r.current == 0 && r.total == 360
            && r.alarms == Startup().alarms + 1
  {
    var prefix := [Press(Select, LongClick), Press(Up, Click),
                   Press(Select, LongClick), Press(Select, Click)];
    var s0 := Startup();
    var s1 := Step(s0, prefix[0]);
    assert s1.mode == Setting && s1.unit == Minute && s1.total == 300;
    var s2 := Step(s1, prefix[1]);
    assert s2.total == 360 && s2.mode == Setting;
    var s3 := Step(s2, prefix[2]);
    var s4 := Step(s3, prefix[3]);
    assert s4.mode == CountingDown && s4.current == 360 && s4.alarms == s0.alarms;
    assert Run(s0, prefix) == s4;
    RunAppend(s0, prefix, Ticks(360));
    CountdownCompletes(s4);
  }
}
