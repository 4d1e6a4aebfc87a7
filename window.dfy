/** Window details as the WindowControl D-Bus interface reports them, and the
    harness computations over one window: decoding GetDetails, the
    wait_for_details predicate, the placement place_and_settle issues and the
    analysis dump_window_details prints. */
module Window {
  import opened Wrappers
  import opened Geometry

  datatype WindowDetails = WindowDetails(
    id: int, wmClass: string, title: string,
    x: int, y: int, width: int, height: int,
    workspace: int, monitor: int, maximized: int, fullscreen: bool)

  /** The decoded `frame_rect` object of GetDetails: each key present or absent. */
  datatype FrameRectDict = FrameRectDict(x: Option<int>, y: Option<int>, width: Option<int>, height: Option<int>)

  /** The decoded GetDetails object: each key present or absent. */
  datatype DetailsDict = DetailsDict(
    id: Option<int>, wmClass: Option<string>, title: Option<string>,
    frameRect: Option<FrameRectDict>,
    workspace: Option<int>, monitor: Option<int>, maximized: Option<int>, fullscreen: Option<bool>)

  const NoFrameRect := FrameRectDict(None, None, None, None)
  const EmptyDetailsDict := DetailsDict(None, None, None, None, None, None, None, None)

  /** WindowDetails.from_dict: missing keys take their defaults (0, '', False,
      an empty frame_rect), and a non-zero `winid` overrides the object's id. */
  function FromDict(data: DetailsDict, winid: int := 0): (d: WindowDetails)
    ensures winid != 0 ==> d.id == winid
    ensures winid == 0 && data.id.Some? ==> d.id == data.id.value
    ensures winid == 0 && data.id.None? ==> d.id == 0
    ensures data.wmClass.Some? ==> d.wmClass == data.wmClass.value
    ensures data.wmClass.None? ==> d.wmClass == ""
    ensures data.title.Some? ==> d.title == data.title.value
    ensures data.title.None? ==> d.title == ""
    ensures data.frameRect.Some? && data.frameRect.value.x.Some? ==> d.x == data.frameRect.value.x.value
    ensures data.frameRect.Some? && data.frameRect.value.y.Some? ==> d.y == data.frameRect.value.y.value
    ensures data.frameRect.Some? && data.frameRect.value.width.Some? ==> d.width == data.frameRect.value.width.value
    ensures data.frameRect.Some? && data.frameRect.value.height.Some? ==> d.height == data.frameRect.value.height.value
    ensures data.frameRect.None? || data.frameRect.value.x.None? ==> d.x == 0
    ensures data.frameRect.None? || data.frameRect.value.y.None? ==> d.y == 0
    ensures data.frameRect.None? || data.frameRect.value.width.None? ==> d.width == 0
    ensures data.frameRect.None? || data.frameRect.value.height.None? ==> d.height == 0
    ensures data.workspace.Some? ==> d.workspace == data.workspace.value
    ensures data.workspace.None? ==> d.workspace == 0
    ensures data.monitor.Some? ==> d.monitor == data.monitor.value
    ensures data.monitor.None? ==> d.monitor == 0
    ensures data.maximized.Some? ==> d.maximized == data.maximized.value
    ensures data.maximized.None? ==> d.maximized == 0
    ensures data.fullscreen.Some? ==> d.fullscreen == data.fullscreen.value
    ensures data.fullscreen.None? ==> !d.fullscreen
    ensures data == EmptyDetailsDict ==> d == WindowDetails(winid, "", "", 0, 0, 0, 0, 0, 0, 0, false)
  {
    var frame := data.frameRect.GetOr(NoFrameRect);
    WindowDetails(
      if winid != 0 then winid else data.id.GetOr(0),
      data.wmClass.GetOr(""), data.title.GetOr(""),
      frame.x.GetOr(0), frame.y.GetOr(0), frame.width.GetOr(0), frame.height.GetOr(0),
      data.workspace.GetOr(0), data.monitor.GetOr(0), data.maximized.GetOr(0),
      data.fullscreen.GetOr(false))
  }

  /** The object the shell sends for a window with these details. */
  function ToDict(d: WindowDetails): (data: DetailsDict)
    ensures FromDict(data) == d
    ensures forall winid :: winid != 0 ==> FromDict(data, winid) == d.(id := winid)
  {
    DetailsDict(
      Some(d.id), Some(d.wmClass), Some(d.title),
      Some(FrameRectDict(Some(d.x), Some(d.y), Some(d.width), Some(d.height))),
      Some(d.workspace), Some(d.monitor), Some(d.maximized), Some(d.fullscreen))
  }

  /** The details with every field wait_for_details does not compare cleared. */
  function Placement(d: WindowDetails): WindowDetails {
    d.(id := 0, wmClass := "", title := "", maximized := 0, fullscreen := false)
  }

  /** The test wait_for_details polls: position, size, workspace and monitor
      agree with the expected details (id, class, title, maximize and
      fullscreen are not compared). */
  function MatchesExpected(d: WindowDetails, expected: WindowDetails): (b: bool)
    ensures b <==> Placement(d) == Placement(expected)
  {
    d.x == expected.x && d.y == expected.y &&
    d.width == expected.width && d.height == expected.height &&
    d.workspace == expected.workspace && d.monitor == expected.monitor
  }

  /** Window-manager calls issued by the harness. */
  datatype WmCall =
    | Place(winid: int, x: int, y: int, width: int, height: int)
    | Move(winid: int, x: int, y: int)
    | Tile(winid: int, mode: int, monitor: int)

  /** The absolute point place_and_settle places a window at, or the error of
      the monitor lookup. */
  function PlacementTarget(monitors: seq<MonitorGeometry>, target: int, x: int, y: int)
    : Result<(int, int), MonitorError>
  {
    match MonitorByIndex(monitors, target)
    case None => Err(MonitorNotFound(target))
    case Some(mon) => Ok(ToAbsolute(mon, x, y))
  }

  /** place_and_settle: the target monitor defaults to the window's current one;
      the monitor-relative (x, y) is converted to absolute coordinates, and the
      window is placed and then moved there. */
  method PlaceAndSettle(monitors: seq<MonitorGeometry>, current: WindowDetails, winid: int,
                        x: int, y: int, width: int, height: int, monitor: Option<int>)
    returns (r: Result<seq<WmCall>, MonitorError>)
    ensures var target := monitor.GetOr(current.monitor);
      match PlacementTarget(monitors, target, x, y)
      case Err(e) => r == Err(e)
      case Ok(p) => r == Ok([Place(winid, p.0, p.1, width, height), Move(winid, p.0, p.1)])
    ensures r.Ok? ==>
      (exists mon :: mon in monitors && mon.index == monitor.GetOr(current.monitor) &&
                     ToRelative(mon, r.value[0].x, r.value[0].y) == (x, y))
  {
    var target := if monitor.None? then current.monitor else monitor.value;
    var geometry := GetMonitorGeometry(monitors, target);
    if geometry.Err? {
      return Err(geometry.error);
    }
    var mon := geometry.value;
    var absX := mon.x + x;
    var absY := mon.y + y;
    r := Ok([Place(winid, absX, absY, width, height), Move(winid, absX, absY)]);
  }

  /** tile_window: the Tile call for a position, on `monitor` (-1 for the current one). */
  function TileWindowCall(winid: int, position: Option<TilePosition>, monitor: int := -1): (c: WmCall)
    ensures c.Tile? && TilePositionOfMode(c.mode) == position
    ensures c.winid == winid && c.monitor == monitor
  {
    Tile(winid, TileMode(position), monitor)
  }

  /** Python's `xs[i]` on a list of `length` elements: the position it reads,
      counting from the end for a negative index, or None for IndexError. */
  function PyIndex(length: nat, i: int): (r: Option<nat>)
    ensures r.Some? ==> r.value < length
    ensures r.Some? ==> r.value == (if i >= 0 then i else length + i)
    ensures r.None? <==> i >= length || i + length < 0
  {
    if 0 <= i < length then Some(i) else if 0 <= i + length && i < 0 then Some(length + i) else None
  }

  /** What dump_window_details reports about tiling on the window's monitor. */
  datatype TilingInfo = TilingInfo(monitorIndex: int, relX: int, relY: int, tiling: Option<TilePosition>)

  /** `monitors[details.monitor]` raised IndexError. */
  datatype DumpError = MonitorIndexError(monitor: int)

  /** The tiling section of dump_window_details: skipped when the window's
      monitor number is not below the number of monitors; otherwise the monitor
      at that list position (Python indexing, so a negative number counts from
      the end), the window's position relative to it and its tiling class. */
  function TilingStatus(details: WindowDetails, monitors: seq<MonitorGeometry>)
    : (r: Result<Option<TilingInfo>, DumpError>)
    ensures r == Ok(None) <==> details.monitor >= |monitors|
    ensures r.Err? <==> details.monitor + |monitors| < 0
    ensures r.Ok? && r.value.Some? ==> PyIndex(|monitors|, details.monitor).Some?
    ensures r.Ok? && r.value.Some? ==>
      var mon := monitors[PyIndex(|monitors|, details.monitor).value];
      var info := r.value.value;
      info.monitorIndex == mon.index &&
      ToAbsolute(mon, info.relX, info.relY) == (details.x, details.y) &&
      info.tiling == ClassifyTiling(info.relX, details.width, mon.width / 2)
  {
    if details.monitor >= |monitors| then Ok(None)
    else match PyIndex(|monitors|, details.monitor)
      case None => Err(MonitorIndexError(details.monitor))
      case Some(k) =>
        var mon := monitors[k];
        var half := mon.width / 2;
        var rel := ToRelative(mon, details.x, details.y);
        Ok(Some(TilingInfo(mon.index, rel.0, rel.1, ClassifyTiling(rel.0, details.width, half))))
  }

  datatype DumpReport = DumpReport(positionMonitor: Option<int>, tiling: Option<TilingInfo>)

  /** The analysis dump_window_details prints for a window: the monitor its
      position lies within (by a scan over all monitors) and the tiling status. */
  method DumpWindowDetails(details: WindowDetails, monitors: seq<MonitorGeometry>)
    returns (r: Result<DumpReport, DumpError>)
    ensures r.Err? <==> TilingStatus(details, monitors).Err?
    ensures r.Ok? ==> r.value.tiling == TilingStatus(details, monitors).value
    ensures r.Ok? ==> (r.value.positionMonitor.None? <==> FirstMonitorUnder(monitors, details.x, details.y).None?)
    ensures r.Ok? && r.value.positionMonitor.Some? ==>
      exists k :: FirstMonitorUnder(monitors, details.x, details.y) == Some(k) &&
        r.value.positionMonitor.value == monitors[k].index
  {
    var actual := MonitorUnderPoint(monitors, details.x, details.y);
    var status := TilingStatus(details, monitors);
    if status.Err? {
      return Err(status.error);
    }
    r := Ok(DumpReport(actual, status.value));
  }

  /** Monitor list in the form GetAllMonitorDetails gives: sorted by index,
      the indices being 0, 1, 2, ... */
  ghost predicate IndexedByPosition(monitors: seq<MonitorGeometry>) {
    forall k :: 0 <= k < |monitors| ==> monitors[k].index == k
  }

  /** A window placed by place_and_settle at monitor-relative (x, y) on `target`
      and found there afterwards is reported by dump_window_details at the same
      relative (x, y) on the same monitor. */
  lemma {:induction false} PlaceThenDump(monitors: seq<MonitorGeometry>, target: int, x: int, y: int, d: WindowDetails)
    requires IndexedByPosition(monitors) && 0 <= target < |monitors|
    requires PlacementTarget(monitors, target, x, y) == Ok((d.x, d.y)) && d.monitor == target
    ensures TilingStatus(d, monitors).Ok? && TilingStatus(d, monitors).value.Some?
    ensures var info := TilingStatus(d, monitors).value.value;
      info.monitorIndex == target && (info.relX, info.relY) == (x, y)
  {
    var k := MonitorPosition(monitors, target);
    assert monitors[target].index == target;
    assert k == Some(target);
  }

  /** A window at the expected rectangle of a tile on its monitor is reported
      by dump_window_details as tiled to that side when the monitor is at least
      two pixels wide. */
  lemma {:induction false} DumpOfTiledWindow(monitors: seq<MonitorGeometry>, d: WindowDetails,
                                             position: TilePosition, onPrimary: bool)
    requires 0 <= d.monitor < |monitors| && monitors[d.monitor].width >= 2
    requires var t := TileRect(monitors[d.monitor], position, onPrimary);
      (d.x, d.y, d.width, d.height) == (t.x, t.y, t.width, t.height)
    ensures TilingStatus(d, monitors).Ok? && TilingStatus(d, monitors).value.Some?
    ensures TilingStatus(d, monitors).value.value.tiling == Some(position)
  {
    ClassifyTileRect(monitors[d.monitor], position, onPrimary);
  }
}
