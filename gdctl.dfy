/** The harness's monitor configuration logic around `gdctl`: finding the
    primary monitor in `gdctl show` output, building the `gdctl set` command
    that lays monitors out side by side, enabling and disabling one connector,
    and the connector lists read from GetPhysicalMonitors. */
module Gdctl {
  import opened Wrappers
  import opened Text
  import opened Sorting

  const LogicalMonitorsHeader := "Logical monitors:"
  const LogicalMonitorMarker := "Logical monitor #"
  const PrimaryMarker := "Primary: yes"

  function Max(a: int, b: int): int { if a < b then b else a }

  // ---------------------------------------------------------------------------
  // get_primary_monitor_index

  /** The loop of get_primary_monitor_index, run over `lines` from the state
      (inside the logical-monitor section or not, monitor counter). */
  function ScanPrimary(lines: seq<string>, inSection: bool, count: int): (r: int)
    ensures r >= 0
    decreases |lines|
  {
    if lines == [] then 0
    else
      var line := lines[0];
      if StartsWith(line, LogicalMonitorsHeader) then ScanPrimary(lines[1..], true, count)
      else if !inSection then ScanPrimary(lines[1..], false, count)
      else
        var c := if Contains(line, LogicalMonitorMarker) then count + 1 else count;
        if Contains(line, PrimaryMarker) then Max(0, c) else ScanPrimary(lines[1..], true, c)
  }

  /** Position of the first line that starts the "Logical monitors:" section. */
  function HeaderLine(lines: seq<string>): (r: Option<nat>)
    ensures r.Some? ==> r.value < |lines| && StartsWith(lines[r.value], LogicalMonitorsHeader)
    ensures r.Some? ==> forall k :: 0 <= k < r.value ==> !StartsWith(lines[k], LogicalMonitorsHeader)
    ensures r.None? ==> forall k :: 0 <= k < |lines| ==> !StartsWith(lines[k], LogicalMonitorsHeader)
  {
    if lines == [] then None
    else if StartsWith(lines[0], LogicalMonitorsHeader) then Some(0)
    else match HeaderLine(lines[1..])
      case None => None
      case Some(k) => Some(k + 1)
  }

  /** The lines the scan examines once inside the section: every line that
      does not itself start with the section header. */
  function SectionBody(lines: seq<string>): (r: seq<string>)
    ensures forall k :: 0 <= k < |r| ==> !StartsWith(r[k], LogicalMonitorsHeader)
  {
    if lines == [] then []
    else if StartsWith(lines[0], LogicalMonitorsHeader) then SectionBody(lines[1..])
    else [lines[0]] + SectionBody(lines[1..])
  }

  /** Position of the first line that says "Primary: yes". */
  function PrimaryLine(lines: seq<string>): (r: Option<nat>)
    ensures r.Some? ==> r.value < |lines| && Contains(lines[r.value], PrimaryMarker)
    ensures r.Some? ==> forall k :: 0 <= k < r.value ==> !Contains(lines[k], PrimaryMarker)
    ensures r.None? ==> forall k :: 0 <= k < |lines| ==> !Contains(lines[k], PrimaryMarker)
  {
    if lines == [] then None
    else if Contains(lines[0], PrimaryMarker) then Some(0)
    else match PrimaryLine(lines[1..])
      case None => None
      case Some(k) => Some(k + 1)
  }

  /** Number of lines that mention "Logical monitor #". */
  function MonitorLines(lines: seq<string>): nat {
    if lines == [] then 0
    else (if Contains(lines[0], LogicalMonitorMarker) then 1 else 0) + MonitorLines(lines[1..])
  }

  /** The primary monitor's index as the harness reads it from `gdctl show`:
      0 without a section header or without a "Primary: yes" line after it;
      otherwise one less than the number of "Logical monitor #" lines in the
      section up to and including the primary line, but never below 0. */
  function PrimaryIndex(lines: seq<string>): int {
    match HeaderLine(lines)
    case None => 0
    case Some(h) =>
      var body := SectionBody(lines[h + 1..]);
      match PrimaryLine(body)
      case None => 0
      case Some(p) => Max(0, MonitorLines(body[..p + 1]) - 1)
  }

  /** Counting the monitor lines of a prefix of `[line] + rest`. */
  lemma MonitorLinesCons(line: string, rest: seq<string>, n: nat)
    requires n <= |rest|
    ensures MonitorLines(([line] + rest)[..n + 1]) ==
      (if Contains(line, LogicalMonitorMarker) then 1 else 0) + MonitorLines(rest[..n])
  {
    var b := ([line] + rest)[..n + 1];
    assert b[0] == line;
    assert b[1..] == rest[..n];
  }

  /** The index the scan settles on for a section body, starting from the
      monitor counter `count`. */
  function FromSection(body: seq<string>, count: int): int {
    match PrimaryLine(body)
    case None => 0
    case Some(p) => Max(0, count + MonitorLines(body[..p + 1]))
  }

  /** FromSection line by line: a primary line ends the scan with the counter
      it has reached; any other line only advances the counter. */
  lemma FromSectionStep(line: string, rest: seq<string>, count: int)
    ensures var c := if Contains(line, LogicalMonitorMarker) then count + 1 else count;
      FromSection([line] + rest, count) ==
        if Contains(line, PrimaryMarker) then Max(0, c) else FromSection(rest, c)
  {
    var body := [line] + rest;
    assert body[0] == line && body[1..] == rest;
    if Contains(line, PrimaryMarker) {
      MonitorLinesCons(line, rest, 0);
      assert rest[..0] == [];
    } else {
      match PrimaryLine(rest)
      case None =>
      case Some(p) =>
        MonitorLinesCons(line, rest, p + 1);
    }
  }

  /** Inside the section, the scan finds the first "Primary: yes" line of the
      section body and adds the "Logical monitor #" lines up to it to `count`. */
  lemma {:induction false} ScanInSection(lines: seq<string>, count: int)
    ensures ScanPrimary(lines, true, count) == FromSection(SectionBody(lines), count)
    decreases |lines|
  {
    if lines != [] {
      var line := lines[0];
      if StartsWith(line, LogicalMonitorsHeader) {
        ScanInSection(lines[1..], count);
      } else {
        var c := if Contains(line, LogicalMonitorMarker) then count + 1 else count;
        assert SectionBody(lines) == [line] + SectionBody(lines[1..]);
        FromSectionStep(line, SectionBody(lines[1..]), count);
        if !Contains(line, PrimaryMarker) {
          ScanInSection(lines[1..], c);
        }
      }
    }
  }

  lemma {:induction false} ScanBeforeSection(lines: seq<string>)
    ensures ScanPrimary(lines, false, -1) == PrimaryIndex(lines)
    decreases |lines|
  {
    if lines != [] {
      if StartsWith(lines[0], LogicalMonitorsHeader) {
        ScanInSection(lines[1..], -1);
        assert HeaderLine(lines) == Some(0);
        assert lines[0 + 1..] == lines[1..];
      } else {
        ScanBeforeSection(lines[1..]);
        match HeaderLine(lines[1..])
        case None =>
        case Some(h) =>
          assert HeaderLine(lines) == Some(h + 1);
          assert lines[h + 2..] == lines[1..][h + 1..];
      }
    }
  }

  /** get_primary_monitor_index over the lines of `gdctl show`. */
  method PrimaryMonitorIndex(lines: seq<string>) returns (index: int)
    ensures index >= 0
    ensures index == PrimaryIndex(lines)
  {
    var inLogicalMonitors := false;
    var monitorIndex := -1;
    var i := 0;
    while i < |lines|
      invariant 0 <= i <= |lines|
      invariant ScanPrimary(lines[i..], inLogicalMonitors, monitorIndex) == ScanPrimary(lines, false, -1)
    {
      var line := lines[i];
      assert lines[i..][1..] == lines[i + 1..];
      if StartsWith(line, LogicalMonitorsHeader) {
        inLogicalMonitors := true;
        i := i + 1;
        continue;
      }
      if !inLogicalMonitors {
        i := i + 1;
        continue;
      }
      if Contains(line, LogicalMonitorMarker) {
        monitorIndex := monitorIndex + 1;
      }
      if Contains(line, PrimaryMarker) {
        ScanBeforeSection(lines);
        return Max(0, monitorIndex);
      }
      i := i + 1;
    }
    ScanBeforeSection(lines);
    return 0;
  }

  lemma {:induction false} ScanSkipsBefore(before: seq<string>, lines: seq<string>)
    requires forall k :: 0 <= k < |before| ==> !StartsWith(before[k], LogicalMonitorsHeader)
    ensures ScanPrimary(before + lines, false, -1) == ScanPrimary(lines, false, -1)
    decreases |before|
  {
    if before == [] {
      assert before + lines == lines;
    } else {
      assert (before + lines)[0] == before[0];
      assert (before + lines)[1..] == before[1..] + lines;
      ScanSkipsBefore(before[1..], lines);
    }
  }

  /** Lines before the section header never affect the result. */
  lemma LinesBeforeHeaderIgnored(before: seq<string>, lines: seq<string>)
    requires forall k :: 0 <= k < |before| ==> !StartsWith(before[k], LogicalMonitorsHeader)
    ensures PrimaryIndex(before + lines) == PrimaryIndex(lines)
  {
    ScanBeforeSection(before + lines);
    ScanBeforeSection(lines);
    ScanSkipsBefore(before, lines);
  }

  // ---------------------------------------------------------------------------
  // set_monitors

  /** Width of each monitor in the side-by-side layout. */
  const MonitorWidth: nat := 1280

  /** One `--logical-monitor` group of a `gdctl set` command. */
  datatype LogicalMonitor = LogicalMonitor(connector: string, primary: bool, x: nat, y: nat)

  /** The layout set_monitors requests for connectors in this order: the i-th at
      x = 1280 * i, y = 0, flagged primary when it is the primary connector. */
  function Layout(connectors: seq<string>, primary: string): (l: seq<LogicalMonitor>)
    ensures |l| == |connectors|
  {
    seq(|connectors|, i requires 0 <= i < |connectors| =>
      LogicalMonitor(connectors[i], connectors[i] == primary, MonitorWidth * i, 0))
  }

  /** The arguments of one monitor group. */
  function MonitorArgs(m: LogicalMonitor): seq<string> {
    ["--logical-monitor", "--monitor", m.connector] + (if m.primary then ["--primary"] else [])
      + ["--x", NatToString(m.x), "--y", NatToString(m.y)]
  }

  function RenderLayout(layout: seq<LogicalMonitor>): seq<string> {
    if layout == [] then [] else MonitorArgs(layout[0]) + RenderLayout(layout[1..])
  }

  /** The arguments set_monitors appends for the i-th connector. */
  lemma RenderStep(sorted: seq<string>, primary: string, i: nat)
    requires i < |sorted|
    ensures var layout := Layout(sorted, primary);
      && layout[i] == LogicalMonitor(sorted[i], sorted[i] == primary, MonitorWidth * i, 0)
      && RenderLayout(layout[..i + 1]) == RenderLayout(layout[..i]) + MonitorArgs(layout[i])
  {
    var layout := Layout(sorted, primary);
    assert layout[..i + 1] == layout[..i] + [layout[i]];
    RenderAppend(layout[..i], layout[i]);
  }

  lemma {:induction false} RenderAppend(layout: seq<LogicalMonitor>, m: LogicalMonitor)
    ensures RenderLayout(layout + [m]) == RenderLayout(layout) + MonitorArgs(m)
    decreases |layout|
  {
    if layout == [] {
      assert [m][1..] == [];
    } else {
      assert (layout + [m])[1..] == layout[1..] + [m];
      RenderAppend(layout[1..], m);
    }
  }

  /** The layout a `gdctl set` argument list describes; None when malformed. */
  function ParseLayoutArgs(args: seq<string>): Option<seq<LogicalMonitor>>
    decreases |args|
  {
    if args == [] then Some([])
    else if |args| < 3 || args[0] != "--logical-monitor" || args[1] != "--monitor" then None
    else
      var primary := |args| > 3 && args[3] == "--primary";
      var k := if primary then 4 else 3;
      if |args| < k + 4 || args[k] != "--x" || args[k + 2] != "--y" then None
      else match ParseLayoutArgs(args[k + 4..])
        case None => None
        case Some(rest) =>
          Some([LogicalMonitor(args[2], primary, ParseNat(args[k + 1]), ParseNat(args[k + 3]))] + rest)
  }

  /** Reading back one monitor group followed by more arguments. */
  lemma ParseMonitorArgs(m: LogicalMonitor, rest: seq<string>)
    ensures ParseLayoutArgs(MonitorArgs(m) + rest) ==
      match ParseLayoutArgs(rest)
      case None => None
      case Some(r) => Some([m] + r)
  {
    var args := MonitorArgs(m) + rest;
    var k := if m.primary then 4 else 3;
    assert args[..k + 4] == MonitorArgs(m);
    assert args[k + 4..] == rest;
    ParseNatToString(m.x);
    ParseNatToString(m.y);
  }

  /** The command's arguments determine the layout: reading them back gives it again. */
  lemma {:induction false} LayoutArgsRoundTrip(layout: seq<LogicalMonitor>)
    ensures ParseLayoutArgs(RenderLayout(layout)) == Some(layout)
    decreases |layout|
  {
    if layout != [] {
      ParseMonitorArgs(layout[0], RenderLayout(layout[1..]));
      LayoutArgsRoundTrip(layout[1..]);
      assert layout == [layout[0]] + layout[1..];
    }
  }

  /** Number of monitor groups flagged `--primary`. */
  function PrimaryCount(layout: seq<LogicalMonitor>): nat {
    if layout == [] then 0 else (if layout[0].primary then 1 else 0) + PrimaryCount(layout[1..])
  }

  lemma {:induction false} PrimaryFlags(layout: seq<LogicalMonitor>, connectors: seq<string>, primary: string)
    requires |layout| == |connectors|
    requires forall i :: 0 <= i < |layout| ==> layout[i].primary == (connectors[i] == primary)
    ensures PrimaryCount(layout) == multiset(connectors)[primary]
    decreases |layout|
  {
    if layout != [] {
      PrimaryFlags(layout[1..], connectors[1..], primary);
      assert connectors == [connectors[0]] + connectors[1..];
    }
  }

  /** `--primary` is given once per occurrence of the primary among the
      connectors: exactly once when they are distinct and include it, never
      when they do not include it. */
  lemma PrimaryFlaggedOnce(connectors: seq<string>, primary: string)
    requires Distinct(connectors)
    ensures PrimaryCount(Layout(SortStrings(connectors), primary)) == if primary in connectors then 1 else 0
  {
    var sorted := SortStrings(connectors);
    PrimaryFlags(Layout(sorted, primary), sorted, primary);
    DistinctMultiset(connectors, primary);
  }

  datatype MonitorConfigError =
    | NoConnectors
    | IndexOutOfRange(index: int, count: nat)
    | UnknownConnector(name: string)
    | CannotDisablePrimary

  /** The command after the i-th monitor group is the command before it
      extended by that group's arguments. */
  lemma CommandStep(sorted: seq<string>, primary: string, i: nat, cmd: seq<string>)
    requires i < |sorted|
    requires cmd == ["gdctl", "set"] + RenderLayout(Layout(sorted, primary)[..i])
    ensures cmd + MonitorArgs(LogicalMonitor(sorted[i], sorted[i] == primary, MonitorWidth * i, 0)) ==
      ["gdctl", "set"] + RenderLayout(Layout(sorted, primary)[..i + 1])
  {
    RenderStep(sorted, primary, i);
  }

  /** One pass of the set_monitors loop: the arguments of one monitor group at
      x offset `xOffset` and y 0. */
  method ExtendMonitor(cmd: seq<string>, connector: string, isPrimary: bool, xOffset: nat)
    returns (extended: seq<string>)
    ensures extended == cmd + MonitorArgs(LogicalMonitor(connector, isPrimary, xOffset, 0))
  {
    extended := cmd + ["--logical-monitor", "--monitor", connector];
    if isPrimary {
      extended := extended + ["--primary"];
    }
    extended := extended + ["--x", NatToString(xOffset), "--y", "0"];
    assert NatToString(0) == "0";
  }

  /** The loop of set_monitors: one monitor group per connector, in order,
      with a running x offset. */
  method LayoutCommand(sorted: seq<string>, primary: string) returns (cmd: seq<string>)
    ensures cmd == ["gdctl", "set"] + RenderLayout(Layout(sorted, primary))
  {
    ghost var layout := Layout(sorted, primary);
    cmd := ["gdctl", "set"];
    var xOffset: nat := 0;
    for i := 0 to |sorted|
      invariant xOffset == MonitorWidth * i
      invariant cmd == ["gdctl", "set"] + RenderLayout(layout[..i])
    {
      var connector := sorted[i];
      var isPrimary := connector == primary;
      CommandStep(sorted, primary, i, cmd);
      cmd := ExtendMonitor(cmd, connector, isPrimary, xOffset);
      xOffset := xOffset + MonitorWidth;
    }
    assert layout[..|sorted|] == layout;
  }

  /** The `gdctl set` command set_monitors runs: the connectors in sorted order
      side by side, the primary defaulting to the first of them. */
  method SetMonitors(connectors: seq<string>, primary: Option<string>)
    returns (r: Result<seq<string>, MonitorConfigError>)
    ensures r.Err? <==> connectors == []
    ensures r.Err? ==> r.error == NoConnectors
    ensures r.Ok? ==> var sorted := SortStrings(connectors);
      r.value == ["gdctl", "set"] + RenderLayout(Layout(sorted, primary.GetOr(sorted[0])))
  {
    if connectors == [] {
      return Err(NoConnectors);
    }
    var sorted := SortStrings(connectors);
    var p := if primary.None? then sorted[0] else primary.value;
    var cmd := LayoutCommand(sorted, p);
    return Ok(cmd);
  }

  // ---------------------------------------------------------------------------
  // GetPhysicalMonitors lists

  /** One entry of GetPhysicalMonitors: the keys the harness reads, present or absent. */
  datatype PhysicalMonitor = PhysicalMonitor(logicalIndex: Option<int>, connector: Option<string>)

  /** A connector value Python treats as true: present and non-empty. */
  predicate HasConnector(m: PhysicalMonitor) {
    m.connector.Some? && m.connector.value != ""
  }

  /** The connectors of get_enabled_connectors's list comprehension, in order. */
  function ConnectorNames(monitors: seq<PhysicalMonitor>): (r: seq<string>)
    ensures forall c :: c in r <==> exists m :: m in monitors && HasConnector(m) && m.connector.value == c
  {
    if monitors == [] then []
    else
      var rest := ConnectorNames(monitors[1..]);
      assert forall m :: m in monitors <==> m == monitors[0] || m in monitors[1..];
      if HasConnector(monitors[0]) then [monitors[0].connector.value] + rest else rest
  }

  /** get_enabled_connectors: `sorted(set(...))` of the non-empty connector
      names, i.e. each enabled connector once, in sorted order. */
  function EnabledConnectors(monitors: seq<PhysicalMonitor>): (r: seq<string>)
    ensures SortedLex(r) && Distinct(r)
    ensures forall c :: c in r <==> exists m :: m in monitors && HasConnector(m) && m.connector.value == c
  {
    var names := Dedup(ConnectorNames(monitors));
    var r := SortStrings(names);
    DistinctOfMultiset(names, r);
    assert forall c :: c in r <==> c in multiset(r);
    assert forall c :: c in names <==> c in multiset(names);
    r
  }

  /** Position of the first monitor with this logical index. */
  function LogicalPosition(monitors: seq<PhysicalMonitor>, logical: int): (r: Option<nat>)
    ensures r.Some? ==> r.value < |monitors| && monitors[r.value].logicalIndex == Some(logical)
    ensures r.Some? ==> forall k :: 0 <= k < r.value ==> monitors[k].logicalIndex != Some(logical)
    ensures r.None? ==> forall k :: 0 <= k < |monitors| ==> monitors[k].logicalIndex != Some(logical)
  {
    if monitors == [] then None
    else if monitors[0].logicalIndex == Some(logical) then Some(0)
    else match LogicalPosition(monitors[1..], logical)
      case None => None
      case Some(k) => Some(k + 1)
  }

  /** get_connector_for_logical: the connector of the first monitor with that
      logical index; None when there is none, or when that entry has no connector. */
  method ConnectorForLogical(monitors: seq<PhysicalMonitor>, logical: int) returns (r: Option<string>)
    ensures r == match LogicalPosition(monitors, logical)
      case None => None
      case Some(k) => monitors[k].connector
  {
    var i := 0;
    while i < |monitors|
      invariant 0 <= i <= |monitors|
      invariant forall k :: 0 <= k < i ==> monitors[k].logicalIndex != Some(logical)
    {
      if monitors[i].logicalIndex == Some(logical) {
        return monitors[i].connector;
      }
      i := i + 1;
    }
    return None;
  }

  // ---------------------------------------------------------------------------
  // set_monitor_enabled

  /** The connector that is always kept enabled and made primary. */
  const AlwaysEnabled := "Virtual-1"

  /** A monitor named either by its position among the available connectors or by name. */
  datatype MonitorTarget = ByIndex(index: int) | ByName(name: string)

  /** The connector a target designates, or the ValueError set_monitor_enabled raises. */
  function ResolveTarget(available: seq<string>, target: MonitorTarget): (r: Result<string, MonitorConfigError>)
    ensures r.Ok? ==> r.value in available
    ensures target.ByIndex? ==> (r.Ok? <==> 0 <= target.index < |available|)
    ensures target.ByIndex? && r.Ok? ==> r.value == available[target.index]
    ensures target.ByName? ==> (r.Ok? <==> target.name in available)
    ensures (target.ByName? && target.name in available) ==> r == Ok(target.name)
  {
    match target
    case ByIndex(i) =>
      if i < 0 || i >= |available| then Err(IndexOutOfRange(i, |available|)) else Ok(available[i])
    case ByName(name) =>
      if name !in available then Err(UnknownConnector(name)) else Ok(name)
  }

  /** The new enabled set and the `gdctl set` command that applies it. */
  datatype MonitorChange = MonitorChange(enabled: set<string>, command: seq<string>)

  /** Python's `list(s)`: the elements of a set in some order, each once. */
  method ListSet(s: set<string>) returns (xs: seq<string>)
    ensures Distinct(xs)
    ensures forall x :: x in xs <==> x in s
  {
    xs := [];
    var rest := s;
    while rest != {}
      invariant rest <= s
      invariant Distinct(xs)
      invariant forall x :: x in xs <==> x in s && x !in rest
      decreases |rest|
    {
      var x :| x in rest;
      xs := xs + [x];
      rest := rest - {x};
    }
  }

  /** The enabled set set_monitor_enabled computes: the current one with
      Virtual-1 added, then the target added or removed. Virtual-1 stays in it
      unless the target is Virtual-1 being disabled (the case the method
      refuses), the target's membership is `enable`, and every other
      connector keeps its membership. */
  function EnabledAfter(enabledNow: seq<string>, connector: string, enable: bool): (after: set<string>)
    ensures (enable || connector != AlwaysEnabled) ==> AlwaysEnabled in after
    ensures connector in after <==> enable
    ensures forall x :: x != connector && x != AlwaysEnabled ==> (x in after <==> x in enabledNow)
  {
    var current := (set c | c in enabledNow) + {AlwaysEnabled};
    if enable then current + {connector} else current - {connector}
  }

  /** `set_monitors(list(s), primary=...)` for a non-empty set. */
  method SetMonitorsOfSet(s: set<string>, primary: string) returns (command: seq<string>)
    requires primary in s
    ensures command == ["gdctl", "set"] + RenderLayout(Layout(SortedSet(s), primary))
  {
    var listed := ListSet(s);
    assert primary in listed;
    var r := SetMonitors(listed, Some(primary));
    SortListedSet(s, listed);
    command := r.value;
  }

  /** set_monitor_enabled: resolve the target, then enable or disable it in the
      set of enabled connectors, which always keeps Virtual-1; the result is
      laid out with Virtual-1 as primary. Every error is raised before a
      command is built. */
  method SetMonitorEnabled(available: seq<string>, enabledNow: seq<string>, target: MonitorTarget, enable: bool)
    returns (r: Result<MonitorChange, MonitorConfigError>)
    ensures ResolveTarget(available, target).Err? ==> r == Err(ResolveTarget(available, target).error)
    ensures ResolveTarget(available, target) == Ok(AlwaysEnabled) && !enable ==> r == Err(CannotDisablePrimary)
    ensures ResolveTarget(available, target).Ok? && (enable || ResolveTarget(available, target).value != AlwaysEnabled)
      ==> r.Ok?
    ensures r.Ok? ==> r.value.enabled == EnabledAfter(enabledNow, ResolveTarget(available, target).value, enable)
    ensures r.Ok? ==> AlwaysEnabled in r.value.enabled
    ensures r.Ok? ==> r.value.command == ["gdctl", "set"] + RenderLayout(Layout(SortedSet(r.value.enabled), AlwaysEnabled))
  {
    var resolved := ResolveTarget(available, target);
    if resolved.Err? {
      return Err(resolved.error);
    }
    var connector := resolved.value;
    var current := set c | c in enabledNow;
    if AlwaysEnabled !in current {
      current := current + {AlwaysEnabled};
    }
    if enable {
      current := current + {connector};
    } else {
      if connector == AlwaysEnabled {
        return Err(CannotDisablePrimary);
      }
      current := current - {connector};
    }
    assert current == EnabledAfter(enabledNow, connector, enable);
    var command := SetMonitorsOfSet(current, AlwaysEnabled);
    r := Ok(MonitorChange(current, command));
  }
}
