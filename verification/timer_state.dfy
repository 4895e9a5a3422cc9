/**
 The state of the countdown timer: its mode, the configured and remaining
 durations, the memo of the countdown display, the setting cursor and its
 blink flag, and counters for the effects the controller asks of the device.
 */
module TimerState {
  import opened Clock

  /** The four modes; exactly one is active and it decides how every button
      gesture and tick is read. */
  datatype Mode = Done | Setting | Paused | CountingDown

  /** The unit that up/down adjust while setting, left to right on screen. */
  datatype Unit = Hour | Minute | Second

  /** The enumerator value of a unit: HOUR = 0, MINUTE = 1, SECOND = 2. */
  function Index(u: Unit): (i: nat)
    ensures i < 3
  {
    match u
    case Hour => 0
    case Minute => 1
    case Second => 2
  }

  /** The unit with a given enumerator value. */
  function UnitAt(i: nat): (u: Unit)
    requires i < 3
    ensures Index(u) == i
  {
    if i == 0 then Hour else if i == 1 then Minute else Second
  }

  /** UnitAt undoes Index, so the three enumerator values name three
      different units. */
  lemma IndexRoundTrip(u: Unit)
    ensures UnitAt(Index(u)) == u
  {
  }

  /** The number of seconds one up/down step changes the duration by. */
  function UnitSeconds(u: Unit): int
  {
    match u
    case Hour => SecondsPerHour
    case Minute => SecondsPerMinute
    case Second => 1
  }

  /** Durations are kept strictly below 100 hours. */
  const MaxSeconds: int := 100 * SecondsPerHour

  predicate InRange(seconds: int)
  {
    0 <= seconds < MaxSeconds
  }

  /**
   The controller's whole state.
   - total: the configured duration a countdown restarts from;
   - current: the seconds left in the running countdown (it may go negative);
   - lastSet: the value the countdown text was last formatted from (-1 before
     the first formatting);
   - shown: the broken-down duration in the countdown text buffer;
   - unit, blink: the setting cursor and whether its marker is in its visible
     phase;
   - alarms: how many times the vibration alarm has been requested;
   - textUpdates: how many times the countdown text was re-set;
   - markerRedraws: how many times a redraw of the cursor marker was requested.
   */
  datatype Timer = Timer(
    mode: Mode,
    total: int,
    current: int,
    lastSet: int,
    shown: Hms,
    unit: Unit,
    blink: bool,
    alarms: nat,
    textUpdates: nat,
    markerRedraws: nat
  )

  /** The state before any handler has run: not counting, five minutes
      configured and remaining, nothing formatted yet, cursor on minutes. */
  function Initial(): (t: Timer)
    ensures t.mode == Done && InRange(t.total) && t.current == t.total == 300
    ensures t.lastSet != t.current && t.lastSet < 0
    ensures Index(t.unit) == 1 && t.blink
    ensures t.alarms == 0 && t.textUpdates == 0 && t.markerRedraws == 0
  {
    Timer(Done, 5 * SecondsPerMinute, 5 * SecondsPerMinute, -1, Hms(0, 0, 0),
          Minute, true, 0, 0, 0)
  }

  /**
   What every reachable state satisfies: the configured duration is in range,
   the remaining seconds never exceed it and equal it while setting, and the
   countdown text was last formatted from the remaining seconds.
   */
  predicate Inv(t: Timer)
  {
    && InRange(t.total)
    && t.current <= t.total
    && (t.mode == Setting ==> t.current == t.total)
    && t.lastSet == t.current
    && t.shown == Split(t.current)
  }
}
