# Window-placement test harness, modelled in Dafny

This project models the deterministic core of the smart-auto-move test
harness `tests/vmtest.py`, together with the title parser of the
workspace-and-tiling story (`tests/test_story_3_workspace_tiling.py`). The
harness drives GNOME Shell's WindowControl D-Bus interface, `gdctl`, `dconf`
and a window-bot program. Every subprocess or bus reply is taken here as a
plain input value: lines of text, a list of monitor records, a decoded
details record, or the text of a dconf key. What remains is this:

- monitor lookup by index;
- monitor-relative ↔ absolute coordinates;
- the half-monitor tile rectangle and the top-bar offset on the primary monitor;
- the tiling classification `dump_window_details` prints;
- the `Tile` mode numbers;
- the scan of `gdctl show` output for the primary logical monitor;
- the side-by-side `gdctl set` layout and the enabled-connector set update;
- the `PositionAssertion` checks, each an errors list built step by step;
- the parsing of gdbus string replies;
- the dconf read-modify-write of the per-app override map and the sync mode;
- window-bot configuration path resolution;
- the window-title classifier.

Modules, one per file:

- `Wrappers`: Option and Result.
- `Text`: Python's `startswith`, `in`, `strip` and `str(int)`.
- `Sorting`: Python's string order, `sorted` and `sorted(set(...))`.
- `Geometry`: monitors, coordinates, tiles and tile modes.
- `Window`: `WindowDetails`, placement and the window dump.
- `PositionAssertion`: the assertion helpers.
- `Gdctl`: primary-monitor scan, `set_monitors`, `set_monitor_enabled` and the connector lists.
- `Gdbus`: `_parse_gdbus_string`.
- `Settings`: `ExtensionState` over a dconf store.
- `Windowbot`: the window-bot launch command.
- `Title`: `parse_window_title`.

Modelling choices:

- **Loops stay loops.** The loops of the source are methods with loop invariants, proved against specification functions:
  - the `gdctl show` scan;
  - the monitor lookup loops;
  - the `set_monitors` command builder;
  - the `ExtensionState` methods, which update the state of a class.
- **Errors are values.** Raised errors are modelled as `Result` values. An `AssertionError` message becomes the list of `Mismatch(field, expected, got)` values the message is joined from.
- **Integers are exact.** Python integers are unbounded, so Dafny's `int` is exact. `//` appears only with divisor 2 and is Euclidean on non-negative widths. For a negative width the model uses Python's floor division, which agrees with Dafny's `/` for a positive divisor.

## Model

| member | source | states |
|---|---|---|
| Geometry.MonitorPosition | tests/vmtest.py:167-170 | the first monitor in the list with the requested index, or none when no monitor has it |
| Geometry.GetMonitorGeometry | tests/vmtest.py:153-170 | returns a monitor from the list with exactly the requested index (the first such), and the not-found error exactly when none has it |
| Geometry.ToAbsolute | tests/vmtest.py:760-761 | the absolute point lies on the monitor exactly when the relative point lies within the monitor's width and height |
| Geometry.ToRelative | tests/vmtest.py:685-687 | the relative coordinates are the ones that convert back to the given absolute point |
| Geometry.RelativeRoundTrip | tests/vmtest.py:758-760 | converting monitor-relative coordinates to absolute and back gives the original coordinates |
| Geometry.FirstMonitorUnder | tests/vmtest.py:668-676 | the first monitor whose half-open rectangle holds the point; no earlier monitor holds it; none when no monitor does |
| Geometry.MonitorUnderPoint | tests/vmtest.py:668-676 | the scan loop reports the index of that first monitor, and nothing exactly when no monitor holds the point |
| Geometry.TileRect | tests/vmtest.py:965-990 | the tile is half the monitor's width (rounded down), at the monitor's left edge for LEFT and one half-width further for RIGHT; it sits 32 below the monitor's top only on the primary and reaches the monitor's bottom |
| Geometry.TilesAdjacent | tests/vmtest.py:965-990 | the LEFT and RIGHT tiles of a monitor have the same size and touch edge to edge |
| Geometry.ClassifyTiling | tests/vmtest.py:688-695 | LEFT iff the relative x is 0 and the width is half; RIGHT iff the relative x and the width are half and the relative x is not 0; otherwise none |
| Geometry.ClassifyTileRect | tests/vmtest.py:683-695 | a window exactly at a tile of its monitor is classified as that tile, except that for a monitor under 2 pixels wide the LEFT branch wins |
| Geometry.TileMode | tests/vmtest.py:804 | the mode is 0, 1 or 2, and decoding it gives back the position (1 LEFT, 2 RIGHT, 0 none) |
| Window.FromDict | tests/vmtest.py:233-249 | every field is the object's value for its key when the key is present and its default (0, `''`, False) when absent; x, y, width and height come from `frame_rect` and default to 0 when it or the key is missing; a non-zero window id overrides the object's id; an empty object gives the all-defaults details |
| Window.MatchesExpected | tests/vmtest.py:852-856 | holds exactly when the two details agree once id, class, title, maximize and fullscreen state are set aside |
| Window.ToDict | tests/vmtest.py:233-249 | decoding the object with every key present gives back the details, with the id replaced by any non-zero window id |
| Window.PlaceAndSettle | tests/vmtest.py:737-767 | the target monitor defaults to the window's own; its lookup error is returned; otherwise place then move at the monitor origin plus (x, y), which converts back to (x, y) on that monitor |
| Window.TileWindowCall | tests/vmtest.py:794-805 | the Tile call for the given window and monitor (default -1) carries the mode whose decoding is the requested position |
| Window.PyIndex | tests/vmtest.py:683-684 | Python list indexing: the slot read, from the end for a negative index, and IndexError exactly outside -len..len-1 |
| Window.TilingStatus | tests/vmtest.py:682-695 | skipped exactly when the monitor number is not below the number of monitors; IndexError exactly below -len; otherwise the monitor is the one at the Python list position of the window's monitor number, its index is reported, the relative position converts back to the window's position on it, and the tiling class is the classification at half that monitor's width (floor division) |
| Window.DumpWindowDetails | tests/vmtest.py:648-697 | fails exactly when the tiling section fails; reports the tiling section and the index of the first monitor under the window's position |
| Window.PlaceThenDump | tests/vmtest.py:737-767 | a window placed on a monitor and found there is reported by the dump on that monitor at the same relative position |
| Window.DumpOfTiledWindow | tests/vmtest.py:679-695 | a window exactly at a tile rectangle of a monitor at least 2 wide is reported as tiled to that side |
| PositionAssertion.ReportsVerdict | tests/vmtest.py:868-884 | an errors list that reports a set of checks is empty iff every check agrees, and holds only genuine mismatches |
| PositionAssertion.FailuresReport | tests/vmtest.py:868-884 | the failing comparisons, kept in comparison order, report that list of comparisons |
| PositionAssertion.Compare | tests/vmtest.py:876-883 | one `if ... != ...: errors.append(...)` step: the mismatch is appended exactly when expected and actual differ |
| PositionAssertion.AssertPosition | tests/vmtest.py:868-884 | the errors are the failing checks in the order made, that is exactly the failing checks of x, y, and of width and height when they are expected |
| PositionAssertion.PositionVerdict | tests/vmtest.py:868-884 | assert_position passes iff x and y match and each given width or height matches; the x mismatch is reported iff x differs; only position fields are reported |
| PositionAssertion.AssertMonitor | tests/vmtest.py:886-893 | fails exactly when the monitor differs, reporting the monitor field, the expected and the actual value |
| PositionAssertion.AssertWorkspace | tests/vmtest.py:895-902 | fails exactly when the workspace differs, reporting the workspace field, the expected and the actual value |
| PositionAssertion.AssertMaximized | tests/vmtest.py:904-911 | fails exactly when the maximized state differs, reporting that field, the expected and the actual value |
| PositionAssertion.AssertDetails | tests/vmtest.py:913-934 | the errors are the failing checks in the order made, that is exactly the failing checks of the eight compared fields |
| PositionAssertion.DetailsVerdict | tests/vmtest.py:913-934 | assert_details passes iff the window matches as wait_for_details requires and the maximized and fullscreen states match too |
| PositionAssertion.TiledMonitor | tests/vmtest.py:953-963 | the first monitor with the effective index (as get_monitor_geometry returns it), or the 1280x1024 fallback at the origin when the lookup fails |
| PositionAssertion.MeasuredMonitor | tests/vmtest.py:953-963 | the lookup with its ValueError fallback yields that monitor |
| PositionAssertion.FullTiledReports | tests/vmtest.py:946-984 | the comparisons in the order assert_tiled performs them report the same mismatches as the listed comparisons |
| PositionAssertion.AssertTiled | tests/vmtest.py:937-991 | the errors are the failing checks in the order made, that is exactly the failing checks of the given monitor and the expected tile's x, y, width and height, with the primary read from `gdctl show` |
| PositionAssertion.PassingFirst | tests/vmtest.py:946-984 | a passing comparison made first adds nothing to the failures |
| PositionAssertion.FullTiledFailures | tests/vmtest.py:946-984 | the comparisons with the monitor check always made fail exactly where assert_tiled's do, in the same order |
| PositionAssertion.CompareTile | tests/vmtest.py:946-984 | the same, for a primary index already known |
| PositionAssertion.TiledVerdict | tests/vmtest.py:937-991 | assert_tiled passes iff the window is on the given monitor (when one is given) and its rectangle equals the expected tile |
| PositionAssertion.FallbackTile | tests/vmtest.py:955-990 | when the lookup fails the expected tile is 640 wide at x 0 or 640, and 32 lower and shorter only on the primary |
| PositionAssertion.AssertedTileIsReported | tests/vmtest.py:937-991 | a window that passes assert_tiled on a position-indexed monitor list at least 2 wide is reported tiled to that side by dump_window_details |
| Gdctl.ScanPrimary | tests/vmtest.py:177-194 | the scan never returns a negative index |
| Gdctl.HeaderLine | tests/vmtest.py:180-182 | the first line starting with `Logical monitors:`, or none |
| Gdctl.PrimaryLine | tests/vmtest.py:190-191 | the first line containing `Primary: yes`, or none |
| Gdctl.ScanInSection | tests/vmtest.py:177-194 | inside the section the scan returns max(0, count plus the `Logical monitor #` lines up to and including the first primary line), or 0 without one |
| Gdctl.ScanBeforeSection | tests/vmtest.py:173-194 | the scan from the start equals the declarative reading: 0 without the header or without a primary line after it, otherwise max(0, k-1) for k monitor lines up to that line |
| Gdctl.PrimaryMonitorIndex | tests/vmtest.py:173-194 | the loop with the in-section flag and the counter returns that index, which is at least 0 |
| Gdctl.ScanSkipsBefore | tests/vmtest.py:180-185 | lines before the header are skipped by the scan |
| Gdctl.LinesBeforeHeaderIgnored | tests/vmtest.py:180-185 | prepending lines that are not the header leaves the primary index unchanged |
| Gdctl.Layout | tests/vmtest.py:398-405 | one logical monitor per connector, in order |
| Gdctl.RenderStep | tests/vmtest.py:398-405 | the i-th group is the i-th sorted connector at x = 1280·i, y = 0, flagged primary iff it is the primary |
| Gdctl.RenderAppend | tests/vmtest.py:398-405 | rendering a layout with one more monitor appends that monitor's arguments |
| Gdctl.ParseMonitorArgs | tests/vmtest.py:401-404 | the arguments of one monitor are read back as that monitor, the rest of the arguments following |
| Gdctl.LayoutArgsRoundTrip | tests/vmtest.py:398-405 | the `gdctl set` arguments are read back as exactly the layout they were rendered from |
| Gdctl.PrimaryFlags | tests/vmtest.py:399-403 | the number of `--primary` flags is the number of times the primary occurs among the connectors |
| Gdctl.PrimaryFlaggedOnce | tests/vmtest.py:392-403 | for distinct connectors, `--primary` appears exactly once if the primary is among them, else never |
| Gdctl.CommandStep | tests/vmtest.py:399-405 | one loop pass extends the command by exactly the next monitor's arguments |
| Gdctl.ExtendMonitor | tests/vmtest.py:401-404 | the `extend`/`append` calls of one pass add that monitor's arguments |
| Gdctl.LayoutCommand | tests/vmtest.py:392-405 | the loop with the running x offset produces `gdctl set` followed by the rendered layout |
| Gdctl.SetMonitors | tests/vmtest.py:379-407 | fails exactly on an empty list; otherwise the connectors in sorted order side by side, the primary defaulting to the first sorted connector |
| Gdctl.ConnectorNames | tests/vmtest.py:376 | exactly the connectors present and non-empty in the monitor list |
| Gdctl.EnabledConnectors | tests/vmtest.py:369-377 | sorted, without duplicates, and exactly the present non-empty connectors |
| Gdctl.LogicalPosition | tests/vmtest.py:352-355 | the first monitor whose logical index matches, or none |
| Gdctl.ConnectorForLogical | tests/vmtest.py:350-356 | the loop returns that monitor's connector (possibly absent), or none when no monitor matches |
| Gdctl.ResolveTarget | tests/vmtest.py:419-428 | an index resolves exactly when it is within the available list, to that entry; a name resolves exactly when it is available, to itself; a resolved connector is always available |
| Gdctl.ListSet | tests/vmtest.py:445 | `list(current)`: each element of the set once |
| Gdctl.EnabledAfter | tests/vmtest.py:430-443 | the new set holds `Virtual-1` (unless it was the one removed), holds the target iff enabling, and every other connector as before |
| Gdctl.SetMonitorsOfSet | tests/vmtest.py:445 | the command is the layout of the sorted set, with the requested primary |
| Gdctl.SetMonitorEnabled | tests/vmtest.py:409-445 | a bad index or unknown connector fails; disabling `Virtual-1` fails; otherwise the new set is the updated set, keeps `Virtual-1`, and the command lays it out sorted with `Virtual-1` primary |
| Gdbus.LastCloseBelow | tests/vmtest.py:111 | the last position where the closing `'` of the pattern can stand, or none |
| Gdbus.FirstOpenFrom | tests/vmtest.py:111 | the first `('` that leaves room for a group before that closing quote, or none |
| Gdbus.GdbusMatch | tests/vmtest.py:111-112 | the leftmost match of the pattern, and for it the longest group; none exactly when the pattern matches nowhere |
| Gdbus.ParseGdbusString | tests/vmtest.py:107-119 | the group of that match, or the output unchanged when there is none |
| Gdbus.ParseReply | tests/vmtest.py:107-119 | a reply `('p',)` (with or without a final newline) gives p for any p, quotes and brackets included |
| Gdbus.NotATuple | tests/vmtest.py:111-119 | an output not ending in `)` (optionally followed by a newline) is returned as it is |
| Gdbus.ParsedIsInfix | tests/vmtest.py:107-119 | the result is always a part of the output |
| Gdbus.EscapedNewlineKept | tests/vmtest.py:114-118 | as written, an escaped newline in a reply comes back as backslash and `n` |
| Gdbus.Escape | tests/vmtest.py:114-117 | the assumed text form of a payload holds no raw newline |
| Gdbus.Unescape | tests/vmtest.py:114-117 | text without a backslash is left as it is |
| Gdbus.UnescapeEscape | tests/vmtest.py:114-117 | unescaping `\'`, `\n` and `\\` undoes the escaping |
| Gdbus.UnescapedReply | tests/vmtest.py:114-118 | with the unescaping applied, a reply carrying any string gives that string back |
| Settings.ReadJsonSetting | tests/vmtest.py:488-503 | an empty output or `''` is the empty object; otherwise json.loads' value for the output stripped of quotes when it parses, and the empty object when it does not |
| Settings.ReadWritten | tests/vmtest.py:540-541 | a value written as quoted JSON is read back as that value when json.loads parses json.dumps' text |
| Settings.GetSyncMode | tests/vmtest.py:551-554 | RESTORE for an empty output, otherwise the output stripped of its quotes, which is a part of it |
| Settings.SyncModeRoundTrip | tests/vmtest.py:551-558 | get_sync_mode reads back the mode set_sync_mode wrote |
| Settings.OverrideEntry | tests/vmtest.py:538 | the stored entry has the keyword arguments plus `action` mapped to the action |
| Settings.WithOverride | tests/vmtest.py:536-538 | the map gains the app's key with the new entry and keeps every other key and value; TypeError exactly when the setting is not an object |
| Settings.WithoutOverride | tests/vmtest.py:543-549 | for an object, a write happens exactly when the app's key is present, and writes the map without that key; any other value is a TypeError except a list or string the app does not occur in, and those write nothing |
| Settings.SetOverrideIdempotent | tests/vmtest.py:528-541 | setting the same override twice gives the same map as setting it once |
| Settings.SetThenRemove | tests/vmtest.py:528-549 | removing an app's override after setting it leaves all other overrides as they were |
| Settings.RemoveTwice | tests/vmtest.py:543-549 | a second removal writes nothing |
| Settings.ExtensionState.constructor | tests/vmtest.py:485-486 | the state starts with the given dconf contents and no writes |
| Settings.ExtensionState.Read | tests/vmtest.py:208-210 | the stored text for a set key, empty for an unset key |
| Settings.ExtensionState.Write | tests/vmtest.py:213-215 | the key now holds the value, every other key is unchanged, and the write is appended to the log |
| Settings.ExtensionState.GetOverrides | tests/vmtest.py:524-526 | `_read_json_setting` of the stored text: the empty object when the overrides key is unset; json.loads' value for the stored text without quotes when it is set, non-empty and parses |
| Settings.ExtensionState.SetOverride | tests/vmtest.py:528-541 | with action RESTORE and no keyword arguments by default, the override map is read, updated and written back once; on TypeError nothing is written; get_overrides then returns the updated map |
| Settings.ExtensionState.RemoveOverride | tests/vmtest.py:543-549 | writes the map without the app exactly when the app was present; otherwise nothing changes |
| Settings.ExtensionState.SyncMode | tests/vmtest.py:551-554 | RESTORE when the sync-mode key is unset or empty, otherwise its text without quotes |
| Settings.ExtensionState.SetSyncMode | tests/vmtest.py:556-558 | writes the quoted mode to the sync-mode key and nothing else |
| Windowbot.ResolveConfigPath | tests/vmtest.py:592-595 | the path is absolute; `<testdata>/single.conf` without a name, the name unchanged if absolute, and `<testdata>/` followed by the name otherwise |
| Windowbot.ResolveIdempotent | tests/vmtest.py:592-595 | resolving a resolved path returns it unchanged |
| Windowbot.ResolveRelativeInjective | tests/vmtest.py:594-595 | distinct relative names resolve to distinct paths |
| Windowbot.WindowbotCommand | tests/vmtest.py:582-600 | `python3`, the window-bot program, `-v` exactly when verbose (the default), then the resolved path (the default configuration without one) |
| Title.ParseWindowTitle | tests/test_story_3_workspace_tiling.py:19-39 | a workspace 0-2 whose phrase occurs, None exactly when no workspace phrase occurs; RIGHT exactly when "Right Side" occurs, LEFT when only "Left Side" does; (None, None) exactly when none of the five phrases occurs |
| Title.ParseWorkspace | tests/test_story_3_workspace_tiling.py:25-31 | 0, 1, 2 or None; None iff no workspace phrase occurs; otherwise the first listed phrase that occurs |
| Title.ParsePosition | tests/test_story_3_workspace_tiling.py:33-37 | RIGHT iff "Right Side" occurs; LEFT iff "Left Side" occurs without "Right Side"; None iff neither occurs |
| Title.FirstOccurringIsFirst | tests/test_story_3_workspace_tiling.py:25-31 | the first-occurring phrase of a list is found, with none of the earlier ones occurring |
| Title.WorkspaceIsFirstPhrase | tests/test_story_3_workspace_tiling.py:25-31 | the workspace chain equals the list-order reference definition |
| Title.WorkspacePrecedence | tests/test_story_3_workspace_tiling.py:26-31 | "Workspace One" wins over the others, "Workspace Two" over "Workspace Three" |
| Title.Separable | tests/test_story_3_workspace_tiling.py:25-39 | the workspace depends only on which workspace phrases occur, and the position only on which side phrases occur |
| Title.NamedTitle | tests/test_story_3_workspace_tiling.py:19-39 | a title holding a workspace phrase and a side phrase parses to both, when no earlier-listed workspace phrase appears and, for LEFT, no "Right Side" appears |
| Title.TitleLayout | tests/test_story_3_workspace_tiling.py:73-75 | the window is laid out iff both parts are present, with those parts |
| Sorting.SortStrings | tests/vmtest.py:392 | `sorted(connectors)`: sorted in Python's string order and a permutation of the input |
| Sorting.SortedUnique | tests/vmtest.py:392 | two sorted permutations of the same strings are equal |
| Sorting.SortStringsOrderFree | tests/vmtest.py:392 | the sorted list does not depend on the input order |
| Sorting.LexLeTotal | tests/vmtest.py:392 | Python's string order is total |
| Sorting.LexLeTransitive | tests/vmtest.py:392 | Python's string order is transitive |
| Sorting.LexLeAntisymmetric | tests/vmtest.py:392 | Python's string order is antisymmetric |
| Sorting.Dedup | tests/vmtest.py:377 | `set(connectors)` listed: no duplicates, same elements |
| Sorting.SortedSet | tests/vmtest.py:377 | `sorted(set(...))`: sorted, no duplicates, exactly the set's elements |
| Sorting.SortedSetUnique | tests/vmtest.py:377 | any sorted duplicate-free listing of a set is that sorted set |
| Sorting.SortListedSet | tests/vmtest.py:445 | sorting any listing of a set gives the sorted set, so `list(current)`'s order does not matter |
| Text.Strip | tests/vmtest.py:501 | `strip("'")` leaves no quote at either end |
| Text.StripWrapped | tests/vmtest.py:501 | stripping the quotes around a value that has none at its ends gives the value |
| Text.StripContained | tests/vmtest.py:554 | the stripped text is a part of the original |
| Text.NatToString | tests/vmtest.py:404 | `str(n)` is a non-empty string of digits without a leading zero |
| Text.ParseNatToString | tests/vmtest.py:404 | reading `str(n)` back gives n |

## Left out

- Subprocesses and bus calls are not modelled: `_run_cmd`, `_gdbus_call`, the bodies of `WindowControlClient`, `gnome-extensions`, `dconf reset` and the `Popen` of `start_windowbot`. Their outputs are inputs to the model.
- `poll_until`, `wait_for_settle`, `time.sleep`, the timestamps and `print` calls of `dump_window_details`, process kill and terminate, and launching and closing apps are timing and process control, outside the model.
- `wait_for_details` keeps only its predicate (`Window.MatchesExpected`), because the polling around it is timing.
- `json.loads` and `json.dumps` are library calls. They are parameters (`loads`, `dumps`), and the read-back properties assume `loads(dumps(v)) == Some(v)`. Numbers are integers only.
- Python's regular-expression engine is not modelled as such. The one pattern of `_parse_gdbus_string` is given its semantics directly, as leftmost start and greedy group. The patterns of `physical_to_logical`, `logical_to_physical` and `get_available_connectors` are left out; the list of available connectors is an input.
- `get_all_monitor_details` is left out: the bus call, the JSON decoding and the sort by index. Its cache `_monitor_cache` and `clear_monitor_cache` are left out too. The monitor list is an input; lemmas that need it indexed by position say so (`Window.IndexedByPosition`).
- `find_window_by_class`, `find_window_by_title`, `wait_for_window`, `find_windowbot_window`, `get_window_connector`, `clear_all`, `enable_debug_logging` and the rest of the `WindowControlClient` wrappers only forward to bus or process calls and are not modelled.
- The assertion error messages are not modelled as text. Each is the list of `Mismatch(field, expected, got)` values it is formatted from, and "raises AssertionError" means "the list is non-empty".
- The `Unknown tile position` branch of `assert_tiled` is not modelled. `TilePosition` has only LEFT and RIGHT, so the branch cannot be reached.
- `Settings.ExtensionState.Write`: a dconf write is modelled as a later `dconf read` printing exactly the text written. dconf's own re-formatting of GVariant text, and the rejection of JSON holding a single quote, are not modelled.
- Window.FromDict: assumes each present key holds the JSON type of its field. In Python a `"frame_rect": null` raises AttributeError at tests/vmtest.py:241, and a wrongly typed value passes through unchanged; the typed `DetailsDict` cannot express either.
- Gdbus.Escape: the text form of a reply (a backslash before a backslash, a quote or an `n` for a newline, inside single quotes) is an assumption taken from the comments at tests/vmtest.py:110-113; the source does not fix it, and GLib may quote a string holding `'` differently.
- `Settings.ReadJsonSetting`: json.loads of a value that is not an object is returned as it is, as in Python. The later item assignment or `del` raises TypeError; the model reports that as `NotAnObject`.
- `Gdctl.SetMonitorEnabled` receives the index-or-name argument as the `MonitorTarget` datatype, which stands in for the `isinstance(..., int)` test. Other argument types are not modelled.
- PositionAssertion.AssertTiled: reads the primary index from the `gdctl show` lines before the comparisons, not between the x and y checks. The read changes nothing the comparisons use, so the errors list is the same.
- `Settings.GetSyncMode` and `Text.Strip` support only a single strip character, which is all the source uses.

## Findings

| source | as written | input that shows it | evidently intended | confidence | as-written member | corrected member |
|---|---|---|---|---|---|---|
| tests/vmtest.py:114-117 | the three `replace` calls replace `'` by `'`, a newline by a newline and a backslash by a backslash, so nothing is unescaped | the reply `('a\nb',)` with a backslash and `n` between `a` and `b` gives `a\nb` with the backslash still there | the comment says escaped quotes and newlines are handled: `\'`, `\n` and `\\` become a quote, a newline and a backslash | medium, not executed | Gdbus.EscapedNewlineKept | Gdbus.UnescapedReply |
