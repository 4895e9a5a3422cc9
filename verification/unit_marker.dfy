/**
 The setting-cursor marker: a bar under the hours, minutes or seconds of the
 countdown text, drawn only while setting and only in the visible blink phase.
 */
module UnitMarker {
  import opened TimerState

  const MarkerLeft: int := 8
  const MarkerWidth: int := 32
  const MarkerGap: int := 14
  const ScreenWidth: int := 144

  /** The left edge of the marker under a unit: one slot of width plus gap
      per unit, counted from the left margin. */
  function MarkerStart(u: Unit): (x: int)
    ensures MarkerLeft <= x && x + MarkerWidth <= ScreenWidth
  {
    MarkerLeft + (MarkerWidth + MarkerGap) * Index(u)
  }

  /** What the marker layer draws: nothing, or a bar starting at some x. */
  datatype MarkerView = Hidden | Bar(start: int)

  /** The drawing rule of the marker layer. */
  function Marker(t: Timer): (v: MarkerView)
    ensures v.Bar? <==> t.mode == Setting && t.blink
    ensures v.Bar? ==> v.start == MarkerStart(t.unit)
    ensures v.Bar? ==> MarkerLeft <= v.start && v.start + MarkerWidth <= ScreenWidth
  {
    if t.mode == Setting && t.blink then Bar(MarkerStart(t.unit)) else Hidden
  }

  /** The three slots lie left to right in unit order (hour, minute, second)
      and never overlap, so each unit has its own visibly distinct marker. */
  lemma SlotsOrderedAndDisjoint(u: Unit, w: Unit)
    requires Index(u) < Index(w)
    ensures MarkerStart(u) + MarkerWidth < MarkerStart(w)
  {
  }
}
