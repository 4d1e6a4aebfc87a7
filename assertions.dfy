/** The PositionAssertion helpers: each compares a window's reported details
    with expected values and collects one entry per field that differs; the
    assertion fails exactly when that list is not empty. */
module PositionAssertion {
  import opened Wrappers
  import opened Geometry
  import opened Window
  import Gdctl

  datatype Field = X | Y | Width | Height | WorkspaceField | MonitorField | MaximizedField | FullscreenField

  datatype FieldValue = IntValue(i: int) | BoolValue(b: bool)

  /** One "field: expected E, got G" entry of an assertion message. */
  datatype Mismatch = Mismatch(field: Field, expected: FieldValue, got: FieldValue)

  function IntMismatch(field: Field, expected: int, got: int): Mismatch {
    Mismatch(field, IntValue(expected), IntValue(got))
  }

  /** Every entry reports a field whose value really differs. */
  predicate Genuine(errors: seq<Mismatch>) {
    forall m :: m in errors ==> m.expected != m.got
  }

  /** `errors` holds exactly the comparisons of `checks` that fail, and nothing else. */
  predicate Reports(errors: seq<Mismatch>, checks: seq<Mismatch>) {
    && (forall c :: c in checks ==> (c in errors <==> c.expected != c.got))
    && (forall m :: m in errors ==> m in checks)
  }

  /** An assertion fails (its list is not empty) exactly when some comparison
      fails, and it only ever reports real differences. */
  lemma ReportsVerdict(errors: seq<Mismatch>, checks: seq<Mismatch>)
    requires Reports(errors, checks)
    ensures errors == [] <==> forall c :: c in checks ==> c.expected == c.got
    ensures Genuine(errors)
  {
    if errors != [] {
      assert errors[0] in checks;
    }
  }

  /** The list an assertion has built after making the comparisons `checks`
      in order: the ones that failed, in the same order. */
  function Failures(checks: seq<Mismatch>): seq<Mismatch>
    decreases |checks|
  {
    if checks == [] then []
    else
      var last := checks[|checks| - 1];
      Failures(checks[..|checks| - 1]) + (if last.expected != last.got then [last] else [])
  }

  /** The failures of a list of comparisons are what it reports. */
  lemma {:induction false} FailuresReport(checks: seq<Mismatch>)
    ensures Reports(Failures(checks), checks)
    decreases |checks|
  {
    if checks != [] {
      var init := checks[..|checks| - 1];
      FailuresReport(init);
      assert checks == init + [checks[|checks| - 1]];
    }
  }

  /** One step of an assertion: `if got != expected: errors.append(...)`,
      where `c` is comparison number `k` of the assertion's `checks`. */
  method Compare(errors: seq<Mismatch>, ghost checks: seq<Mismatch>, ghost k: nat, c: Mismatch)
    returns (after: seq<Mismatch>)
    requires k < |checks| && c == checks[k] && errors == Failures(checks[..k])
    ensures after == if c.expected != c.got then errors + [c] else errors
    ensures after == Failures(checks[..k + 1])
    ensures k + 1 == |checks| ==> after == Failures(checks)
  {
    after := errors;
    if c.expected != c.got {
      after := after + [c];
    }
    assert checks[..k + 1][..k] == checks[..k];
    assert k + 1 == |checks| ==> checks[..k + 1] == checks;
  }

  // ---------------------------------------------------------------------------
  // assert_position

  /** The comparisons assert_position makes: x and y always, width and height
      only when an expected value is given. */
  function PositionChecks(details: WindowDetails, expectedX: int, expectedY: int,
                          expectedWidth: Option<int>, expectedHeight: Option<int>): seq<Mismatch>
  {
    [IntMismatch(X, expectedX, details.x), IntMismatch(Y, expectedY, details.y)]
    + (if expectedWidth.Some? then [IntMismatch(Width, expectedWidth.value, details.width)] else [])
    + (if expectedHeight.Some? then [IntMismatch(Height, expectedHeight.value, details.height)] else [])
  }

  /** assert_position: the failing comparisons of x, y and any given width and height. */
  method AssertPosition(details: WindowDetails, expectedX: int, expectedY: int,
                        expectedWidth: Option<int>, expectedHeight: Option<int>)
    returns (errors: seq<Mismatch>)
    ensures errors == Failures(PositionChecks(details, expectedX, expectedY, expectedWidth, expectedHeight))
    ensures Reports(errors, PositionChecks(details, expectedX, expectedY, expectedWidth, expectedHeight))
  {
    errors := [];
    ghost var checks := PositionChecks(details, expectedX, expectedY, expectedWidth, expectedHeight);
    ghost var k := 0;
    errors := Compare(errors, checks, k, IntMismatch(X, expectedX, details.x));
    k := k + 1;
    errors := Compare(errors, checks, k, IntMismatch(Y, expectedY, details.y));
    k := k + 1;
    if expectedWidth.Some? {
      errors := Compare(errors, checks, k, IntMismatch(Width, expectedWidth.value, details.width));
      k := k + 1;
    }
    if expectedHeight.Some? {
      errors := Compare(errors, checks, k, IntMismatch(Height, expectedHeight.value, details.height));
      k := k + 1;
    }
    assert checks[..k] == checks;
    FailuresReport(checks);
  }

  /** assert_position fails exactly when x or y differs or a given width or
      height differs, and reports nothing but those four fields. */
  lemma PositionVerdict(details: WindowDetails, expectedX: int, expectedY: int,
                        expectedWidth: Option<int>, expectedHeight: Option<int>, errors: seq<Mismatch>)
    requires Reports(errors, PositionChecks(details, expectedX, expectedY, expectedWidth, expectedHeight))
    ensures errors == [] <==>
      details.x == expectedX && details.y == expectedY &&
      (expectedWidth.Some? ==> details.width == expectedWidth.value) &&
      (expectedHeight.Some? ==> details.height == expectedHeight.value)
    ensures IntMismatch(X, expectedX, details.x) in errors <==> details.x != expectedX
    ensures forall m :: m in errors ==> m.field in {X, Y, Width, Height}
    ensures Genuine(errors)
  {
    var checks := PositionChecks(details, expectedX, expectedY, expectedWidth, expectedHeight);
    ReportsVerdict(errors, checks);
    assert IntMismatch(X, expectedX, details.x) in checks;
    assert IntMismatch(Y, expectedY, details.y) in checks;
    assert expectedWidth.Some? ==> IntMismatch(Width, expectedWidth.value, details.width) in checks;
    assert expectedHeight.Some? ==> IntMismatch(Height, expectedHeight.value, details.height) in checks;
  }

  // ---------------------------------------------------------------------------
  // assert_monitor, assert_workspace, assert_maximized

  /** assert_monitor: the one mismatch, if the monitor differs. */
  function AssertMonitor(details: WindowDetails, expectedMonitor: int): (r: Option<Mismatch>)
    ensures r.None? <==> details.monitor == expectedMonitor
    ensures r.Some? ==> r.value.field == MonitorField && r.value.expected != r.value.got
    ensures r.Some? ==> r.value.got == IntValue(details.monitor) && r.value.expected == IntValue(expectedMonitor)
  {
    if details.monitor != expectedMonitor then Some(IntMismatch(MonitorField, expectedMonitor, details.monitor)) else None
  }

  /** assert_workspace: the one mismatch, if the workspace differs. */
  function AssertWorkspace(details: WindowDetails, expectedWorkspace: int): (r: Option<Mismatch>)
    ensures r.None? <==> details.workspace == expectedWorkspace
    ensures r.Some? ==> r.value.field == WorkspaceField && r.value.expected != r.value.got
    ensures r.Some? ==> r.value.got == IntValue(details.workspace) && r.value.expected == IntValue(expectedWorkspace)
  {
    if details.workspace != expectedWorkspace then Some(IntMismatch(WorkspaceField, expectedWorkspace, details.workspace)) else None
  }

  /** assert_maximized: the one mismatch, if the maximize state differs. */
  function AssertMaximized(details: WindowDetails, expectedState: int): (r: Option<Mismatch>)
    ensures r.None? <==> details.maximized == expectedState
    ensures r.Some? ==> r.value.field == MaximizedField && r.value.expected != r.value.got
    ensures r.Some? ==> r.value.got == IntValue(details.maximized) && r.value.expected == IntValue(expectedState)
  {
    if details.maximized != expectedState then Some(IntMismatch(MaximizedField, expectedState, details.maximized)) else None
  }

  // ---------------------------------------------------------------------------
  // assert_details

  /** The eight comparisons assert_details makes, in its order. */
  function DetailsChecks(details: WindowDetails, expected: WindowDetails): seq<Mismatch> {
    [IntMismatch(X, expected.x, details.x), IntMismatch(Y, expected.y, details.y),
     IntMismatch(Width, expected.width, details.width), IntMismatch(Height, expected.height, details.height),
     IntMismatch(WorkspaceField, expected.workspace, details.workspace),
     IntMismatch(MonitorField, expected.monitor, details.monitor),
     IntMismatch(MaximizedField, expected.maximized, details.maximized),
     Mismatch(FullscreenField, BoolValue(expected.fullscreen), BoolValue(details.fullscreen))]
  }

  /** assert_details: the failing comparisons among all eight fields. */
  method AssertDetails(details: WindowDetails, expected: WindowDetails) returns (errors: seq<Mismatch>)
    ensures errors == Failures(DetailsChecks(details, expected))
    ensures Reports(errors, DetailsChecks(details, expected))
  {
    errors := [];
    ghost var checks := DetailsChecks(details, expected);
    ghost var k := 0;
    errors := Compare(errors, checks, k, IntMismatch(X, expected.x, details.x));
    k := k + 1;
    errors := Compare(errors, checks, k, IntMismatch(Y, expected.y, details.y));
    k := k + 1;
    errors := Compare(errors, checks, k, IntMismatch(Width, expected.width, details.width));
    k := k + 1;
    errors := Compare(errors, checks, k, IntMismatch(Height, expected.height, details.height));
    k := k + 1;
    errors := Compare(errors, checks, k, IntMismatch(WorkspaceField, expected.workspace, details.workspace));
    k := k + 1;
    errors := Compare(errors, checks, k, IntMismatch(MonitorField, expected.monitor, details.monitor));
    k := k + 1;
    errors := Compare(errors, checks, k, IntMismatch(MaximizedField, expected.maximized, details.maximized));
    k := k + 1;
    errors := Compare(errors, checks, k,
      Mismatch(FullscreenField, BoolValue(expected.fullscreen), BoolValue(details.fullscreen)));
    k := k + 1;
    FailuresReport(checks);
  }

  /** assert_details passes exactly when the wait_for_details predicate holds
      and the maximize and fullscreen states agree as well; a window
      wait_for_details accepts can only fail it on those two fields. */
  lemma DetailsVerdict(details: WindowDetails, expected: WindowDetails, errors: seq<Mismatch>)
    requires Reports(errors, DetailsChecks(details, expected))
    ensures errors == [] <==>
      MatchesExpected(details, expected) &&
      details.maximized == expected.maximized && details.fullscreen == expected.fullscreen
    ensures MatchesExpected(details, expected) ==>
      forall m :: m in errors ==> m.field in {MaximizedField, FullscreenField}
    ensures Genuine(errors)
  {
    ReportsVerdict(errors, DetailsChecks(details, expected));
  }

  // ---------------------------------------------------------------------------
  // assert_tiled

  /** The monitor assert_tiled measures against: the monitor with the expected
      index (the given one, else the window's own), or a default-sized monitor
      at the origin when no monitor has that index. */
  function TiledMonitor(monitors: seq<MonitorGeometry>, details: WindowDetails, monitor: Option<int>)
    : (mon: MonitorGeometry)
    ensures MonitorByIndex(monitors, monitor.GetOr(details.monitor)).Some? ==>
      mon == MonitorByIndex(monitors, monitor.GetOr(details.monitor)).value &&
      mon in monitors && mon.index == monitor.GetOr(details.monitor)
    ensures MonitorByIndex(monitors, monitor.GetOr(details.monitor)).None? ==>
      mon == MonitorGeometry(monitor.GetOr(0), 0, 0, DefaultScreenWidth, DefaultScreenHeight)
  {
    match MonitorByIndex(monitors, monitor.GetOr(details.monitor))
    case Some(m) => m
    case None => MonitorGeometry(monitor.GetOr(0), 0, 0, DefaultScreenWidth, DefaultScreenHeight)
  }

  /** The rectangle assert_tiled expects: the tile of `position` on the
      measured monitor, with the top bar only when the expected monitor is the
      primary monitor. */
  function ExpectedTile(monitors: seq<MonitorGeometry>, primary: int, details: WindowDetails,
                        position: TilePosition, monitor: Option<int>): Rect
  {
    TileRect(TiledMonitor(monitors, details, monitor), position, monitor.GetOr(details.monitor) == primary)
  }

  /** The try/except of assert_tiled: get_monitor_geometry for the expected
      monitor, or the default screen when it raises. */
  method MeasuredMonitor(monitors: seq<MonitorGeometry>, details: WindowDetails, monitor: Option<int>)
    returns (mon: MonitorGeometry)
    ensures mon == TiledMonitor(monitors, details, monitor)
  {
    var lookup := GetMonitorGeometry(monitors, if monitor.Some? then monitor.value else details.monitor);
    mon := if lookup.Ok? then lookup.value
      else MonitorGeometry(if monitor.Some? then monitor.value else 0, 0, 0, DefaultScreenWidth, DefaultScreenHeight);
  }

  /** The comparisons assert_tiled makes against the expected tile `t`: the
      monitor when one is given, then absolute x, y, width and height. */
  function TiledChecks(details: WindowDetails, t: Rect, monitor: Option<int>): seq<Mismatch> {
    (if monitor.Some? then [IntMismatch(MonitorField, monitor.value, details.monitor)] else [])
    + [IntMismatch(X, t.x, details.x), IntMismatch(Y, t.y, details.y),
       IntMismatch(Width, t.width, details.width), IntMismatch(Height, t.height, details.height)]
  }

  /** TiledChecks with the monitor comparison always made: when no monitor is
      given it compares the window's monitor with itself, which never fails. */
  function FullTiledChecks(details: WindowDetails, t: Rect, monitor: Option<int>): seq<Mismatch> {
    [IntMismatch(MonitorField, monitor.GetOr(details.monitor), details.monitor),
     IntMismatch(X, t.x, details.x), IntMismatch(Y, t.y, details.y),
     IntMismatch(Width, t.width, details.width), IntMismatch(Height, t.height, details.height)]
  }

  /** Reporting the full comparisons is reporting assert_tiled's. */
  lemma FullTiledReports(errors: seq<Mismatch>, details: WindowDetails, t: Rect, monitor: Option<int>)
    requires Reports(errors, FullTiledChecks(details, t, monitor))
    ensures Reports(errors, TiledChecks(details, t, monitor))
  {
    var full := FullTiledChecks(details, t, monitor);
    forall m | m in errors ensures m in TiledChecks(details, t, monitor) {
      assert m in full && m.expected != m.got;
    }
  }

  /** A comparison that passes, made first, adds nothing to the failures. */
  lemma {:induction false} PassingFirst(c: Mismatch, rest: seq<Mismatch>)
    requires c.expected == c.got
    ensures Failures([c] + rest) == Failures(rest)
    decreases |rest|
  {
    if rest == [] {
      assert [c] + rest == [] + [c];
    } else {
      var init := rest[..|rest| - 1];
      PassingFirst(c, init);
      assert [c] + rest == ([c] + init) + [rest[|rest| - 1]];
      assert rest == init + [rest[|rest| - 1]];
    }
  }

  /** The full comparisons fail exactly where assert_tiled's do, in the same order. */
  lemma FullTiledFailures(details: WindowDetails, t: Rect, monitor: Option<int>)
    ensures Failures(FullTiledChecks(details, t, monitor)) == Failures(TiledChecks(details, t, monitor))
  {
    var rest := [IntMismatch(X, t.x, details.x), IntMismatch(Y, t.y, details.y),
                 IntMismatch(Width, t.width, details.width), IntMismatch(Height, t.height, details.height)];
    if monitor.None? {
      assert TiledChecks(details, t, monitor) == rest;
      assert FullTiledChecks(details, t, monitor) == [IntMismatch(MonitorField, details.monitor, details.monitor)] + rest;
      PassingFirst(IntMismatch(MonitorField, details.monitor, details.monitor), rest);
    } else {
      assert FullTiledChecks(details, t, monitor) == TiledChecks(details, t, monitor);
    }
  }

  /** assert_tiled: reads the primary monitor from `gdctl show`, then makes
      its comparisons. */
  method AssertTiled(details: WindowDetails, position: TilePosition, monitor: Option<int>,
                     monitors: seq<MonitorGeometry>, gdctlShow: seq<string>)
    returns (errors: seq<Mismatch>)
    ensures errors == Failures(TiledChecks(details,
      ExpectedTile(monitors, Gdctl.PrimaryIndex(gdctlShow), details, position, monitor), monitor))
    ensures Reports(errors, TiledChecks(details,
      ExpectedTile(monitors, Gdctl.PrimaryIndex(gdctlShow), details, position, monitor), monitor))
  {
    var primary := Gdctl.PrimaryMonitorIndex(gdctlShow);
    errors := CompareTile(details, position, monitor, monitors, primary);
  }

  /** The comparisons of assert_tiled, given the primary monitor's index:
      looks the monitor up (falling back to the default screen) and reports
      the failing comparisons against the expected tile. */
  method CompareTile(details: WindowDetails, position: TilePosition, monitor: Option<int>,
                     monitors: seq<MonitorGeometry>, primary: int)
    returns (errors: seq<Mismatch>)
    ensures errors == Failures(TiledChecks(details, ExpectedTile(monitors, primary, details, position, monitor), monitor))
    ensures Reports(errors, TiledChecks(details, ExpectedTile(monitors, primary, details, position, monitor), monitor))
  {
    ghost var t := ExpectedTile(monitors, primary, details, position, monitor);
    ghost var checks := FullTiledChecks(details, t, monitor);
    errors := [];
    if monitor.Some? {
      errors := Compare(errors, checks, 0, IntMismatch(MonitorField, monitor.value, details.monitor));
    } else {
      assert errors == Failures(checks[..1]) by {
        assert checks[..1] == [] + [checks[0]];
      }
    }
    var mon := MeasuredMonitor(monitors, details, monitor);
    var halfWidth := mon.width / 2;
    var expectedX := if position == Left then mon.x else mon.x + halfWidth;
    assert expectedX == t.x && halfWidth == t.width;
    errors := Compare(errors, checks, 1, IntMismatch(X, expectedX, details.x));
    var effMonitor := if monitor.Some? then monitor.value else details.monitor;
    var yOffset := if effMonitor == primary then TopBarHeight else 0;
    var expectedY := mon.y + yOffset;
    assert expectedY == t.y;
    errors := Compare(errors, checks, 2, IntMismatch(Y, expectedY, details.y));
    var usableHeight := mon.height - yOffset;
    assert usableHeight == t.height;
    errors := Compare(errors, checks, 3, IntMismatch(Width, halfWidth, details.width));
    errors := Compare(errors, checks, 4, IntMismatch(Height, usableHeight, details.height));
    FailuresReport(checks);
    FullTiledReports(errors, details, t, monitor);
    FullTiledFailures(details, t, monitor);
  }

  /** assert_tiled passes exactly when the window is on the given monitor (if
      one is given) and occupies exactly the expected tile. */
  lemma TiledVerdict(monitors: seq<MonitorGeometry>, primary: int, details: WindowDetails,
                     position: TilePosition, monitor: Option<int>, errors: seq<Mismatch>)
    requires Reports(errors, TiledChecks(details, ExpectedTile(monitors, primary, details, position, monitor), monitor))
    ensures errors == [] <==>
      (monitor.Some? ==> details.monitor == monitor.value) &&
      Rect(details.x, details.y, details.width, details.height) == ExpectedTile(monitors, primary, details, position, monitor)
    ensures Genuine(errors)
  {
    var t := ExpectedTile(monitors, primary, details, position, monitor);
    var checks := TiledChecks(details, t, monitor);
    ReportsVerdict(errors, checks);
    assert IntMismatch(X, t.x, details.x) in checks;
    assert IntMismatch(Y, t.y, details.y) in checks;
    assert IntMismatch(Width, t.width, details.width) in checks;
    assert IntMismatch(Height, t.height, details.height) in checks;
    assert monitor.Some? ==> IntMismatch(MonitorField, monitor.value, details.monitor) in checks;
  }

  /** Without a monitor of the expected index the expected tile is a half of
      the default 1280x1024 screen: 640 wide, at x 0 or 640, below the top bar
      only on the primary. */
  lemma FallbackTile(monitors: seq<MonitorGeometry>, primary: int, details: WindowDetails,
                     position: TilePosition, monitor: Option<int>)
    requires MonitorByIndex(monitors, monitor.GetOr(details.monitor)).None?
    ensures var t := ExpectedTile(monitors, primary, details, position, monitor);
      var top := if monitor.GetOr(details.monitor) == primary then 32 else 0;
      t == Rect(if position == Left then 0 else 640, top, 640, 1024 - top)
  {
  }

  /** A window that passes assert_tiled on a monitor list indexed by position
      is reported by dump_window_details as tiled to the same side, when the
      monitor is at least two pixels wide. */
  lemma {:induction false} AssertedTileIsReported(monitors: seq<MonitorGeometry>, primary: int,
                                                  details: WindowDetails, position: TilePosition)
    requires IndexedByPosition(monitors)
    requires 0 <= details.monitor < |monitors| && monitors[details.monitor].width >= 2
    requires Rect(details.x, details.y, details.width, details.height) ==
      ExpectedTile(monitors, primary, details, position, None)
    ensures TilingStatus(details, monitors).Ok? && TilingStatus(details, monitors).value.Some?
    ensures TilingStatus(details, monitors).value.value.tiling == Some(position)
  {
    var i := details.monitor;
    assert monitors[i].index == i;
    assert MonitorPosition(monitors, i) == Some(i);
    assert TiledMonitor(monitors, details, None) == monitors[i];
    DumpOfTiledWindow(monitors, details, position, i == primary);
  }
}
