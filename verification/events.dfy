/**
 How button gestures and ticks reach the handlers: the click configuration of
 the main window binds each (button, gesture) pair to at most one handler,
 and every tick goes to the mode-dispatched second handler.
 */
module Events {
  import opened TimerState
  import opened Handlers

  datatype Button = Select | Up | Down

  /** Gestures as the input layer delivers them, already disambiguated. */
  datatype Gesture = Click | LongClick | MultiClick

  datatype Event = Press(button: Button, gesture: Gesture) | Tick

  datatype Handler = OnSelect | OnToggleSetting | OnReset | OnUp | OnDown

  datatype Binding = Unbound | Bound(handler: Handler)

  /** The click configuration: select's click, long click and double click go
      to three different handlers; up and down bind only their click. */
  function ClickConfig(b: Button, g: Gesture): (h: Binding)
    ensures h.Bound? <==> b == Select || g == Click
    ensures b == Select ==>
              h == Bound(match g
                         case Click => OnSelect
                         case LongClick => OnToggleSetting
                         case MultiClick => OnReset)
    ensures h == Bound(OnUp) <==> b == Up && g == Click
    ensures h == Bound(OnDown) <==> b == Down && g == Click
  {
    match (b, g)
    case (Select, Click) => Bound(OnSelect)
    case (Select, LongClick) => Bound(OnToggleSetting)
    case (Select, MultiClick) => Bound(OnReset)
    case (Up, Click) => Bound(OnUp)
    case (Down, Click) => Bound(OnDown)
    case _ => Unbound
  }

  function Apply(h: Handler, t: Timer): Timer
  {
    match h
    case OnSelect => SelectPressed(t)
    case OnToggleSetting => ToggleSettingMode(t)
    case OnReset => ResetTimer(t)
    case OnUp => ButtonUp(t)
    case OnDown => ButtonDown(t)
  }

  /** One event, run to completion. A gesture nothing is bound to is ignored.
      The configured duration only changes while setting, and up and down
      never act outside setting. */
  function Step(t: Timer, e: Event): (r: Timer)
    ensures r.total != t.total ==> t.mode == Setting && r.mode == Setting
    ensures e.Press? && e.button != Select && t.mode != Setting ==> r == t
    ensures InRange(t.total) ==> InRange(r.total)
  {
    match e
    case Tick => SecondTick(t)
    case Press(b, g) =>
      match ClickConfig(b, g)
      case Unbound => t
      case Bound(h) => Apply(h, t)
  }

  /** The events of a sequence, processed strictly in order. */
  function Run(t: Timer, es: seq<Event>): Timer
    decreases |es|
  {
    if |es| == 0 then t else Run(Step(t, es[0]), es[1..])
  }

  /** n consecutive ticks. */
  function Ticks(n: nat): (es: seq<Event>)
    ensures |es| == n
    ensures forall i :: 0 <= i < n ==> es[i] == Tick
  {
    seq(n, _ => Tick)
  }
}
