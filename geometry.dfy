/** Monitor geometry as the test harness sees it: lookup by logical index,
    monitor-relative and absolute coordinates, the expected rectangle of a
    half-monitor tile, and the tiling a window's rectangle indicates. */
module Geometry {
  import opened Wrappers

  /** Fallback monitor size used when a monitor cannot be looked up. */
  const DefaultScreenWidth: int := 1280
  const DefaultScreenHeight: int := 1024
  /** Height of the shell's top bar, present on the primary monitor only. */
  const TopBarHeight: int := 32

  datatype TilePosition = Left | Right

  /** One logical monitor: its index and its rectangle in screen coordinates. */
  datatype MonitorGeometry = MonitorGeometry(index: int, x: int, y: int, width: int, height: int)

  datatype Rect = Rect(x: int, y: int, width: int, height: int)

  datatype MonitorError = MonitorNotFound(index: int)

  /** Position in `monitors` of the first monitor whose index is `index`. */
  function MonitorPosition(monitors: seq<MonitorGeometry>, index: int): (r: Option<nat>)
    ensures r.Some? ==> r.value < |monitors| && monitors[r.value].index == index
    ensures r.Some? ==> forall k :: 0 <= k < r.value ==> monitors[k].index != index
    ensures r.None? ==> forall k :: 0 <= k < |monitors| ==> monitors[k].index != index
  {
    if monitors == [] then None
    else if monitors[0].index == index then Some(0)
    else match MonitorPosition(monitors[1..], index)
      case None => None
      case Some(k) => Some(k + 1)
  }

  /** The geometry get_monitor_geometry returns for `index`, if any. */
  function MonitorByIndex(monitors: seq<MonitorGeometry>, index: int): Option<MonitorGeometry> {
    match MonitorPosition(monitors, index)
    case None => None
    case Some(k) => Some(monitors[k])
  }

  /** get_monitor_geometry over an already fetched monitor list: the first
      monitor with that index, or the ValueError it raises. */
  method GetMonitorGeometry(monitors: seq<MonitorGeometry>, index: int)
    returns (r: Result<MonitorGeometry, MonitorError>)
    ensures r.Ok? ==> r.value in monitors && r.value.index == index
    ensures r.Ok? <==> MonitorByIndex(monitors, index).Some?
    ensures r.Ok? ==> MonitorByIndex(monitors, index) == Some(r.value)
    ensures r.Err? ==> r.error == MonitorNotFound(index)
  {
    var i := 0;
    while i < |monitors|
      invariant 0 <= i <= |monitors|
      invariant forall k :: 0 <= k < i ==> monitors[k].index != index
    {
      if monitors[i].index == index {
        return Ok(monitors[i]);
      }
      i := i + 1;
    }
    return Err(MonitorNotFound(index));
  }

  /** Absolute screen coordinates of a point given relative to `mon`'s origin
      (the conversion place_and_settle performs). The point lies on the
      monitor exactly when the relative point lies within its size. */
  function ToAbsolute(mon: MonitorGeometry, relX: int, relY: int): (p: (int, int))
    ensures OnMonitor(mon, p.0, p.1) <==> 0 <= relX < mon.width && 0 <= relY < mon.height
  {
    (mon.x + relX, mon.y + relY)
  }

  /** Coordinates of an absolute point relative to `mon`'s origin
      (the conversion dump_window_details performs). It undoes ToAbsolute. */
  function ToRelative(mon: MonitorGeometry, absX: int, absY: int): (p: (int, int))
    ensures ToAbsolute(mon, p.0, p.1) == (absX, absY)
  {
    (absX - mon.x, absY - mon.y)
  }

  /** Converting to absolute coordinates and back gives the relative point again. */
  lemma RelativeRoundTrip(mon: MonitorGeometry, relX: int, relY: int)
    ensures var a := ToAbsolute(mon, relX, relY); ToRelative(mon, a.0, a.1) == (relX, relY)
  {
  }

  /** Whether a point lies on a monitor (the test dump_window_details applies). */
  predicate OnMonitor(mon: MonitorGeometry, x: int, y: int) {
    mon.x <= x < mon.x + mon.width && mon.y <= y < mon.y + mon.height
  }

  /** Position of the first monitor the point lies on. */
  function FirstMonitorUnder(monitors: seq<MonitorGeometry>, x: int, y: int): (r: Option<nat>)
    ensures r.Some? ==> r.value < |monitors| && OnMonitor(monitors[r.value], x, y)
    ensures r.Some? ==> forall k :: 0 <= k < r.value ==> !OnMonitor(monitors[k], x, y)
    ensures r.None? ==> forall k :: 0 <= k < |monitors| ==> !OnMonitor(monitors[k], x, y)
  {
    if monitors == [] then None
    else if OnMonitor(monitors[0], x, y) then Some(0)
    else match FirstMonitorUnder(monitors[1..], x, y)
      case None => None
      case Some(k) => Some(k + 1)
  }

  /** The loop of dump_window_details that finds which monitor a window's
      position actually lies within; it reports that monitor's index. */
  method MonitorUnderPoint(monitors: seq<MonitorGeometry>, x: int, y: int) returns (r: Option<int>)
    ensures r.None? <==> FirstMonitorUnder(monitors, x, y).None?
    ensures r.Some? ==> exists k :: FirstMonitorUnder(monitors, x, y) == Some(k) && r.value == monitors[k].index
  {
    r := None;
    var i := 0;
    while i < |monitors|
      invariant 0 <= i <= |monitors|
      invariant forall k :: 0 <= k < i ==> !OnMonitor(monitors[k], x, y)
    {
      var mon := monitors[i];
      if mon.x <= x < mon.x + mon.width && mon.y <= y < mon.y + mon.height {
        r := Some(mon.index);
        assert FirstMonitorUnder(monitors, x, y) == Some(i);
        break;
      }
      i := i + 1;
    }
  }

  /** The rectangle a window tiled to one half of `mon` is expected to have
      (assert_tiled): half the monitor's width, the left or right half, and the
      full height below the top bar, which only the primary monitor has. */
  function TileRect(mon: MonitorGeometry, position: TilePosition, onPrimary: bool): (r: Rect)
    ensures position == Left ==> r.x == mon.x
    ensures position == Right ==> r.x == mon.x + r.width
    ensures mon.width >= 0 ==> 0 <= mon.width - 2 * r.width <= 1
    ensures r.y - mon.y == (if onPrimary then TopBarHeight else 0)
    ensures r.y + r.height == mon.y + mon.height
  {
    var half := mon.width / 2;
    var yOffset := if onPrimary then TopBarHeight else 0;
    Rect(if position == Left then mon.x else mon.x + half, mon.y + yOffset, half, mon.height - yOffset)
  }

  /** The two tiles of a monitor sit side by side without overlapping. */
  lemma TilesAdjacent(mon: MonitorGeometry, onPrimary: bool)
    ensures var l, r := TileRect(mon, Left, onPrimary), TileRect(mon, Right, onPrimary);
      l.x + l.width == r.x && l.y == r.y && l.width == r.width && l.height == r.height
  {
  }

  /** The tiling dump_window_details reports for a window whose left edge is
      `relX` from its monitor's left edge, given half the monitor's width. */
  function ClassifyTiling(relX: int, width: int, half: int): (t: Option<TilePosition>)
    ensures t == Some(Left) <==> relX == 0 && width == half
    ensures t == Some(Right) <==> relX == half && width == half && relX != 0
    ensures t.Some? ==> width == half
  {
    if relX == 0 && width == half then Some(Left)
    else if relX == half && width == half then Some(Right)
    else None
  }

  /** A window exactly at a tile's expected rectangle is classified as tiled
      to that side, except that on a monitor less than two pixels wide both
      tiles start at the left edge and the LEFT test wins. */
  lemma {:induction false} ClassifyTileRect(mon: MonitorGeometry, position: TilePosition, onPrimary: bool)
    requires mon.width >= 0
    ensures var t := TileRect(mon, position, onPrimary);
      ClassifyTiling(ToRelative(mon, t.x, t.y).0, t.width, mon.width / 2)
        == if mon.width / 2 == 0 then Some(Left) else Some(position)
  {
    var t := TileRect(mon, position, onPrimary);
    assert t.width == mon.width / 2;
  }

  /** The tile-mode number tile_window sends for a position
      (0 = none, 1 = left, 2 = right in the Tile call). */
  function TileMode(position: Option<TilePosition>): (mode: int)
    ensures 0 <= mode <= 2
    ensures TilePositionOfMode(mode) == position
  {
    match position
    case Some(Left) => 1
    case Some(Right) => 2
    case None => 0
  }

  /** The position a tile-mode number means to the Tile call. */
  function TilePositionOfMode(mode: int): Option<TilePosition> {
    if mode == 1 then Some(Left) else if mode == 2 then Some(Right) else None
  }
}
