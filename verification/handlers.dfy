/**
 One function per handler of the timer controller. Each takes the state
 before the handler runs and returns the state after it; device effects
 (vibration, text updates, marker redraws) show up as counters in the state.
 */
module Handlers {
  import opened Clock
  import opened TimerState

  /** The parts of the state that the countdown display's memo never touches. */
  predicate SameControl(t: Timer, r: Timer)
  {
    && r.mode == t.mode && r.total == t.total && r.current == t.current
    && r.unit == t.unit && r.blink == t.blink
    && r.alarms == t.alarms && r.markerRedraws == t.markerRedraws
  }

  /** Re-formats the countdown text from the remaining seconds, unless it was
      last formatted from that same value. */
  function UpdateCountdown(t: Timer): (r: Timer)
    ensures SameControl(t, r)
    ensures r.lastSet == t.current
    ensures t.current == t.lastSet ==> r == t
    ensures t.current != t.lastSet ==>
              Seconds(r.shown) == t.current && r.textUpdates == t.textUpdates + 1
    ensures t.current != t.lastSet && InRange(t.current) ==> Canonical(r.shown)
  {
    if t.current == t.lastSet then t
    else t.(shown := Split(t.current), lastSet := t.current, textUpdates := t.textUpdates + 1)
  }

  /** The first formatting of the countdown text, done when the window is
      set up. */
  function Startup(): (r: Timer)
    ensures r.mode == Done && r.total == r.current == 5 * SecondsPerMinute
    ensures r.shown == Hms(0, 5, 0)
    ensures Inv(r)
  {
    UpdateCountdown(Initial())
  }

  /** Long-press of select: leaves setting for Done, or enters setting with
      the remaining seconds reloaded from the configured duration and the
      cursor back on minutes. */
  function ToggleSettingMode(t: Timer): (r: Timer)
    ensures t.mode == Setting ==> r == t.(mode := Done)
    ensures t.mode != Setting ==>
              && r.mode == Setting && r.total == t.total && r.current == t.total
              && r.unit == Minute && r.blink == t.blink && r.alarms == t.alarms
              && r.lastSet == t.total && r.markerRedraws == t.markerRedraws + 1
    ensures Inv(t) ==> Inv(r)
  {
    if t.mode == Setting then t.(mode := Done)
    else
      var r := UpdateCountdown(t.(current := t.total));
      r.(mode := Setting, unit := Minute, markerRedraws := r.markerRedraws + 1)
  }

  /** Click of select: while setting, moves the cursor one unit to the right,
      wrapping from seconds to hours, and restarts the blink in its visible
      phase; otherwise starts or resumes a stopped countdown and pauses a
      running one. */
  function SelectPressed(t: Timer): (r: Timer)
    ensures r.total == t.total && r.current == t.current && r.lastSet == t.lastSet
    ensures r.shown == t.shown && r.alarms == t.alarms && r.textUpdates == t.textUpdates
    ensures t.mode == Setting ==>
              && r.mode == Setting && Index(r.unit) == (Index(t.unit) + 1) % 3
              && r.blink && r.markerRedraws == t.markerRedraws + 1
    ensures t.mode != Setting ==>
              && r.unit == t.unit && r.blink == t.blink && r.markerRedraws == t.markerRedraws
              && (r.mode == CountingDown <==> t.mode in {Done, Paused})
              && (r.mode == Paused <==> t.mode == CountingDown)
    ensures Inv(t) ==> Inv(r)
  {
    match t.mode
    case Setting =>
      t.(unit := UnitAt((Index(t.unit) + 1) % 3), blink := true,
         markerRedraws := t.markerRedraws + 1)
    case Paused | Done => t.(mode := CountingDown)
    case CountingDown => t.(mode := Paused)
  }

  /** The step of one up/down press as the handler computes it: the direction
      is multiplied by 60 for hours and again by 60 for hours or minutes, the
      switch cases falling through into each other. */
  function ScaledStep(u: Unit, direction: int): (d: int)
    ensures d == direction * UnitSeconds(u)
  {
    var afterHour := if u == Hour then direction * 60 else direction;
    if u == Hour || u == Minute then afterHour * 60 else afterHour
  }

  /** Up/down: outside setting nothing happens. While setting, the configured
      duration moves by the cursor's unit in the given direction when the
      result stays in [0, 100 hours), and the remaining seconds follow it;
      a step that would leave the range is rejected and changes nothing at all. */
  function IncrementTime(t: Timer, direction: int): (r: Timer)
    ensures t.mode != Setting ==> r == t
    ensures t.mode == Setting && !InRange(t.total + direction * UnitSeconds(t.unit)) ==> r == t
    ensures t.mode == Setting && InRange(t.total + direction * UnitSeconds(t.unit)) ==>
              && r.total == t.total + direction * UnitSeconds(t.unit)
              && r.current == r.total && r.lastSet == r.total
              && r.mode == Setting && r.unit == t.unit && r.blink == t.blink
              && r.alarms == t.alarms && r.markerRedraws == t.markerRedraws
    ensures InRange(t.total) ==> InRange(r.total)
    ensures Inv(t) ==> Inv(r)
  {
    if t.mode == Setting then
      var newSeconds := t.total + ScaledStep(t.unit, direction);
      if 0 <= newSeconds && newSeconds < 100 * 60 * 60 then
        UpdateCountdown(t.(total := newSeconds, current := newSeconds))
      else t
    else t
  }

  /** Up press: one unit more, if that stays in range, and only while setting. */
  function ButtonUp(t: Timer): (r: Timer)
    ensures t.mode == Setting && InRange(t.total + UnitSeconds(t.unit)) ==>
              r.total == t.total + UnitSeconds(t.unit)
    ensures t.mode != Setting || !InRange(t.total + UnitSeconds(t.unit)) ==> r == t
  {
    IncrementTime(t, 1)
  }

  /** Down press: one unit less, if that stays nonnegative, and only while
      setting. */
  function ButtonDown(t: Timer): (r: Timer)
    ensures t.mode == Setting && InRange(t.total - UnitSeconds(t.unit)) ==>
              r.total == t.total - UnitSeconds(t.unit)
    ensures t.mode != Setting || !InRange(t.total - UnitSeconds(t.unit)) ==> r == t
  {
    IncrementTime(t, -1)
  }

  /** Double-click of select: outside setting, stops the countdown and reloads
      the remaining seconds from the configured duration; while setting it does
      nothing. */
  function ResetTimer(t: Timer): (r: Timer)
    ensures t.mode == Setting ==> r == t
    ensures t.mode != Setting ==>
              && r.mode == Done && r.total == t.total && r.current == t.total
              && r.lastSet == t.total && r.unit == t.unit && r.blink == t.blink
              && r.alarms == t.alarms && r.markerRedraws == t.markerRedraws
    ensures Inv(t) ==> Inv(r)
  {
    if t.mode != Setting then UpdateCountdown(t.(mode := Done, current := t.total))
    else t
  }

  /** A second while counting down: one second less, and when that leaves
      exactly zero the alarm is requested and the timer stops. Only zero is
      tested, so a countdown below zero keeps going. */
  function SecondCountingDown(t: Timer): (r: Timer)
    ensures r.current == t.current - 1 && r.total == t.total && r.lastSet == r.current
    ensures r.unit == t.unit && r.blink == t.blink && r.markerRedraws == t.markerRedraws
    ensures r.current == 0 ==> r.mode == Done && r.alarms == t.alarms + 1
    ensures r.current != 0 ==> r.mode == t.mode && r.alarms == t.alarms
    ensures Inv(t) && t.mode == CountingDown ==> Inv(r)
  {
    var r := UpdateCountdown(t.(current := t.current - 1));
    if r.current == 0 then r.(alarms := r.alarms + 1, mode := Done) else r
  }

  /** A second while stopped: the remaining seconds are reloaded from the
      configured duration. */
  function SecondWaiting(t: Timer): (r: Timer)
    ensures r.current == t.total && r.lastSet == t.total
    ensures r.mode == t.mode && r.total == t.total && r.unit == t.unit && r.blink == t.blink
    ensures r.alarms == t.alarms && r.markerRedraws == t.markerRedraws
    ensures t.current == t.total && t.lastSet == t.total ==> r == t
    ensures Inv(t) ==> Inv(r)
  {
    UpdateCountdown(t.(current := t.total))
  }

  /** A second while setting: the marker changes blink phase and is redrawn. */
  function SecondSetting(t: Timer): (r: Timer)
    ensures r.blink != t.blink && r.markerRedraws == t.markerRedraws + 1
    ensures r.(blink := t.blink, markerRedraws := t.markerRedraws) == t
    ensures Inv(t) ==> Inv(r)
  {
    t.(blink := !t.blink, markerRedraws := t.markerRedraws + 1)
  }

  /** The once-a-second tick, dispatched on the mode; paused ignores it. */
  function SecondTick(t: Timer): (r: Timer)
    ensures t.mode == Done ==> r.mode == Done && r.current == t.total && r.alarms == t.alarms
    ensures t.mode == CountingDown ==> r.current == t.current - 1
    ensures t.mode == CountingDown ==> (r.alarms == t.alarms + 1 <==> r.current == 0)
    ensures t.mode == CountingDown ==> (r.mode == Done <==> r.current == 0)
    ensures t.mode == Setting ==> r.blink != t.blink && r.(blink := t.blink, markerRedraws := t.markerRedraws) == t
    ensures t.mode == Paused ==> r == t
    ensures r.total == t.total
    ensures Inv(t) ==> Inv(r)
  {
    match t.mode
    case Done => SecondWaiting(t)
    case CountingDown => SecondCountingDown(t)
    case Setting => SecondSetting(t)
    case Paused => t
  }
}
