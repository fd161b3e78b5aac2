# napari plugin dialog, plugins menu and scale bar, modelled in Dafny

This project models three pieces of napari's Qt and vispy front end, together
with proofs about what each one does.

- **The scale-bar overlay** (`ScaleBar`, `scale_bar.dfy`). `VispyScaleBarVisual`
  turns a target on-screen length of 150 canvas pixels into a world length. It
  expresses that length in a compact unit and snaps the magnitude down to a
  value from a sorted table of preferred values (`bisect_left`, then one step
  down unless already at the start). It then redraws the bar at the matching
  pixel length, signed by the corner the bar sits in. The model keeps the
  overlay's own state as a class: the scale, the quantity, the lazily created
  unit registry, visibility, the line transform, the text and the vertices.
  The handlers for zoom, position, data, visibility and unit changes are
  methods on that class.
- **The plugin installer** (`PluginInstall`, `plugin_install.dfy`). `Installer`
  keeps a queue of install and uninstall actions. Each action starts one pip or
  conda/mamba process with a fixed argument layout. `finished` is emitted when
  no process is left. The source resets the exit code to 0 when a process
  reports a non-zero code, where it evidently meant to record that code. The
  model keeps this behaviour as written: the exit code is always 0, and every
  `finished` signal carries 0. This is part of the installer's invariant.
- **The plugin dialog's lists** (`PluginDialog`, `plugin_dialog.dfy`). It covers:
  - `QPluginList.addItem` and its duplicate check;
  - `tag_outdated` and `filter`;
  - `QtPluginDialog.refresh`, which rebuilds the installed list and deduplicates by distribution name;
  - `_handle_yield`, which tags installed projects or lists available ones;
  - `_install_packages`, which splits the typed entry the way Python's `str.split()` does.
- **The Plugins menu** (`Menus`, `plugins_menu.dfy`). It covers:
  - `_build`: two fixed actions, a separator, then one submenu or top-level item per plugin widget, never adding a top-level action whose text is already in the menu (submenu titles are not checked);
  - `_add_registered_widget`;
  - `_remove_unregistered_widget`.

`common.dfy` holds `Option`, Python's `startswith` and substring tests, and
sequence reversal.

Calls into code outside these files become parameters of the model:
- the preferred-values table (`prefs`) and pint's `to_compact` choice (`Compaction`);
- the log10 tolerance test (`withinTolerance`) and the canvas size;
- `standard_metadata` with `normalized_name` (`meta`), and the blocked plugin names (`blocked`). AddAllListsEveryPicked and SeenHasRow take the names `meta` gives to be free of spaces: `normalized_name` of a distribution name, which holds no spaces, has none;
- the plugin manager's widget and availability lists (`gs`, `avail`) and `menu_item_template` (`template`);
- `os.path.exists` on the typed entry (`isPath`). `os.path.exists("")` is false, so an empty entry is never a path. This is the precondition of `InstallPackages` and `ToInstall`.

Processes are ids. Starting one records a `Launch` with its program and
argument list. Signals and `plugin_manager.unregister` calls are recorded in
order in history fields.

## Model

| member | source | states |
|---|---|---|
| ScaleBar.BisectLeft | napari/_vispy/vispy_scale_bar_visual.py:130 | the insertion point splits a sorted table into entries strictly below the value and entries at or above it |
| ScaleBar.PreferredIndex | napari/_vispy/vispy_scale_bar_visual.py:130-135 | the chosen index is in range; at or below the first entry it is 0, otherwise the entry is strictly below the magnitude and the next one (if any) is not |
| ScaleBar.PreferredIsLargestBelow | napari/_vispy/vispy_scale_bar_visual.py:130-135 | above the first entry, the chosen entry is the largest table entry strictly below the magnitude |
| ScaleBar.ExactHitStepsDown | napari/_vispy/vispy_scale_bar_visual.py:130-135 | a magnitude equal to entry k > 0 picks entry k - 1, not k |
| ScaleBar.AboveAllPicksLast | napari/_vispy/vispy_scale_bar_visual.py:130-135 | a magnitude above every entry picks the last one |
| ScaleBar.PreferredIndexMonotone | napari/_vispy/vispy_scale_bar_visual.py:130-135 | a larger magnitude never picks a smaller entry |
| ScaleBar.CalculateBestLength | napari/_vispy/vispy_scale_bar_visual.py:122-142 | raises ZeroDivisionError exactly when the unit magnitude or the desired length is zero; otherwise the caption is a preferred value in the compact unit, the largest one below the compact magnitude (or the first one), and the new length in base units times the base magnitude is the caption value times the compaction factor |
| ScaleBar.Snapped | napari/_vispy/vispy_scale_bar_visual.py:130-141 | the snapped caption magnitude is a positive table entry in the compact unit, chosen as above |
| ScaleBar.CompactNonZero | napari/_vispy/vispy_scale_bar_visual.py:124-127 | the ratio of the current to the compact quantity is the compaction factor and the compact magnitude is non-zero |
| ScaleBar.BestLengthRescales | napari/_vispy/vispy_scale_bar_visual.py:137-141 | the new world length is the desired length times the snapped value over the compact magnitude, and positive when the unit magnitude is |
| ScaleBar.DrawnBar | napari/_vispy/vispy_scale_bar_visual.py:155-166 | the redraw fails exactly when the unit quantity's magnitude is zero; otherwise the caption is a table value in the compact unit |
| ScaleBar.DrawnBarBounds | napari/_vispy/vispy_scale_bar_visual.py:155-167 | the drawn length is 150 pixels times snapped value over compact magnitude; for a positive scale and unit magnitude it is positive, and shorter than 150 exactly when the magnitude lies above the first table entry |
| ScaleBar.ScaledBar | napari/_vispy/vispy_scale_bar_visual.py:164-167 | dividing the snapped world length by the scale turns its ratio into 150 pixels times value over compact magnitude; the canvas length is below 150 exactly when the value is below the compact magnitude |
| ScaleBar.PositionLayout | napari/_vispy/vispy_scale_bar_visual.py:224-252 | an unrecognized position raises ValueError; right corners flip the bar; x is 10 from the left or right edge, y is 10 from the top or 30 from the bottom |
| ScaleBar.TickData | napari/_vispy/vispy_scale_bar_visual.py:194-197 | with ticks all six vertices, without only the two bar ends, both taken from the start of the vertex table |
| ScaleBar.ZoomDraw | napari/_vispy/vispy_scale_bar_visual.py:158-178 | without a quantity the redraw raises TypeError; the caption is a table value; for positive zoom and magnitude the transform x-scale is negative exactly for the right corners |
| ScaleBar.ToCompact | napari/_vispy/vispy_scale_bar_visual.py:124 | the compact quantity: the magnitude divided by the chosen factor, in the chosen unit |
| ScaleBar.Sign | napari/_vispy/vispy_scale_bar_visual.py:228-246 | the bar's direction: -1 for the two right corners, 1 otherwise |
| ScaleBar.UnitQuantity | napari/_vispy/vispy_scale_bar_visual.py:103 | what the registry makes of a unit string: one of that unit |
| ScaleBar.ScaleBarVisual.constructor | napari/_vispy/vispy_scale_bar_visual.py:18-50 | the initial scale 1, no quantity, no registry, a "1 px" caption |
| ScaleBar.ScaleBarVisual.Initialize | napari/_vispy/vispy_scale_bar_visual.py:76-79 | the four handlers run in order on the constructor's state and the first exception ends the sequence; a visible bar then has a registry and one of the unit and is drawn at scale 1/zoom with the redraw's caption; a hidden bar keeps its scale and caption; on success the vertices follow the ticks setting and the bar sits at its corner |
| ScaleBar.ScaleBarVisual.ReadUnit | napari/_vispy/vispy_scale_bar_visual.py:103 | the quantity becomes one of the unit, read through the registry, which then exists |
| ScaleBar.ScaleBarVisual.UnitRegistry | napari/_vispy/vispy_scale_bar_visual.py:94-96 | the registry is created on first use only and at most once; later calls return the same one |
| ScaleBar.ScaleBarVisual.OnZoomChange | napari/_vispy/vispy_scale_bar_visual.py:144-178 | a hidden bar or an unchanged scale without `force` leaves everything as is; zoom 0 raises; otherwise the scale becomes 1/zoom and the transform and caption are the redraw's |
| ScaleBar.ScaleBarVisual.OnPositionChange | napari/_vispy/vispy_scale_bar_visual.py:222-257 | moves the bar to its corner's translation and the text to (0, 20); only the sign of the x-scale changes, its magnitude is kept; an unknown corner raises and changes nothing |
| ScaleBar.ScaleBarVisual.OnDataChange | napari/_vispy/vispy_scale_bar_visual.py:194-199 | the line node draws the tick data for the current ticks setting |
| ScaleBar.ScaleBarVisual.OnVisibleChange | napari/_vispy/vispy_scale_bar_visual.py:202-216 | visibility follows the model; a visible bar takes the unit when it has none or a different one, and only then uses (and if need be creates) the registry; a visible bar is redrawn by force, a hidden one is untouched |
| ScaleBar.ScaleBarVisual.OnDimensionChange | napari/_vispy/vispy_scale_bar_visual.py:98-104 | a hidden bar with no registry yet is left alone; otherwise the registry exists, the quantity becomes one of the unit and a visible bar is redrawn by force |
| PluginInstall.ChannelArgsLayout | napari/_qt/dialogs/qt_plugin_dialog.py:175-176 | each channel contributes `-c` followed by the channel, in channel order |
| PluginInstall.CondaArgsLayout | napari/_qt/dialogs/qt_plugin_dialog.py:168-176 | a conda/mamba argument list is the verb, `-y`, `--prefix`, the environment, the channel pairs, then the packages |
| PluginInstall.InstallArgsShape | napari/_qt/dialogs/qt_plugin_dialog.py:168-192 | pip installs run `-m pip install --upgrade` then the packages; conda/mamba run `install -y --prefix env`, the channels, then the packages |
| PluginInstall.InstallArgs | napari/_qt/dialogs/qt_plugin_dialog.py:168-192 | the argument list of an install process; its layout is stated by InstallArgsShape |
| PluginInstall.UninstallArgs | napari/_qt/dialogs/qt_plugin_dialog.py:215-229 | the argument list of an uninstall process; its layout is stated by UninstallArgsShape |
| PluginInstall.ProgramFor | napari/_qt/dialogs/qt_plugin_dialog.py:81-84 | conda and mamba run as themselves, pip through the Python executable |
| PluginInstall.UninstallArgsShape | napari/_qt/dialogs/qt_plugin_dialog.py:215-229 | pip uninstalls run `-m pip uninstall -y` then the packages; conda/mamba run `remove -y --prefix env`, the channels, then the packages |
| PluginInstall.UnregisteredStep | napari/_qt/dialogs/qt_plugin_dialog.py:235-236 | one more request adds its packages to the unregistered ones exactly when it is an uninstall |
| PluginInstall.LaunchesOfStep | napari/_qt/dialogs/qt_plugin_dialog.py:191-196 | one more request starts one more process, with the next id, running that request |
| PluginInstall.LaunchesOfAt | napari/_qt/dialogs/qt_plugin_dialog.py:138-160 | the i-th process started has id i and runs the i-th request |
| PluginInstall.Enqueue | napari/_qt/dialogs/qt_plugin_dialog.py:157-158 | `install` and `uninstall` insert the action at the front of the queue |
| PluginInstall.FifoOrder | napari/_qt/dialogs/qt_plugin_dialog.py:138-160 | inserting at the front and popping from the back runs actions in request order, after those already queued |
| PluginInstall.PopTakesOldest | napari/_qt/dialogs/qt_plugin_dialog.py:138-142 | the first action popped is the earliest requested |
| PluginInstall.FirstIndex | napari/_qt/dialogs/qt_plugin_dialog.py:127-128 | the position of the first occurrence of a listed process |
| PluginInstall.RemoveFirst | napari/_qt/dialogs/qt_plugin_dialog.py:127-128 | `list.remove` on a list holding the process: its first occurrence is dropped |
| PluginInstall.RemoveFirstKeepsOthers | napari/_qt/dialogs/qt_plugin_dialog.py:127-128 | removing a finished process removes exactly that one and keeps every other, still distinct |
| PluginInstall.RemovedMembers | napari/_qt/dialogs/qt_plugin_dialog.py:128 | dropping the entry at a position of a repeat-free list drops exactly that entry's value |
| PluginInstall.RemovedDistinct | napari/_qt/dialogs/qt_plugin_dialog.py:128 | dropping an entry keeps the list free of repeats |
| PluginInstall.Installer.constructor | napari/_qt/dialogs/qt_plugin_dialog.py:58-74 | empty queue and process list, exit code 0; the output widget is set exactly when one is passed; a conda environment path only for a non-pip installer inside a conda environment |
| PluginInstall.Installer.SetOutputWidget | napari/_qt/dialogs/qt_plugin_dialog.py:119-121 | only a present widget replaces the output widget |
| PluginInstall.Installer.StartProcess | napari/_qt/dialogs/qt_plugin_dialog.py:191-196 | a new process gets a fresh id, is listed as running and recorded with its program and arguments; the output is cleared only when actions are still queued |
| PluginInstall.Installer.CondaArgs | napari/_qt/dialogs/qt_plugin_dialog.py:168-176 | builds the verb, `-y`, `--prefix` and the environment, then `-c` and each channel in order |
| PluginInstall.Installer.RunInstall | napari/_qt/dialogs/qt_plugin_dialog.py:162-196 | starts exactly one process, running the install's program and argument list |
| PluginInstall.Installer.RunUninstall | napari/_qt/dialogs/qt_plugin_dialog.py:209-236 | starts exactly one process running the uninstall's arguments, then unregisters every package in order |
| PluginInstall.Installer.Unregister | napari/_qt/dialogs/qt_plugin_dialog.py:235-236 | each package is unregistered once, in order, after the earlier ones |
| PluginInstall.Installer.HandleAction | napari/_qt/dialogs/qt_plugin_dialog.py:138-149 | runs the queued action with `started` if there is one; emits `finished` with the exit code exactly when no process is left |
| PluginInstall.Installer.Request | napari/_qt/dialogs/qt_plugin_dialog.py:157-160 | a request is queued and started at once; the i-th process always runs the i-th request |
| PluginInstall.Installer.Install | napari/_qt/dialogs/qt_plugin_dialog.py:151-160 | the new process runs the install arguments for the packages, and nothing is unregistered |
| PluginInstall.Installer.Uninstall | napari/_qt/dialogs/qt_plugin_dialog.py:198-207 | the new process runs the uninstall arguments, and exactly the given packages are unregistered |
| PluginInstall.Installer.OnProcessFinished | napari/_qt/dialogs/qt_plugin_dialog.py:123-131 | the finished process leaves the list and every other stays; `finished` is emitted, always with 0, exactly when none is left |
| PluginInstall.Installer.DropProcess | napari/_qt/dialogs/qt_plugin_dialog.py:127-129 | a listed process is removed, once, and every other stays, still distinct; an unlisted one changes nothing |
| PluginDialog.VersionLess | napari/_qt/dialogs/qt_plugin_dialog.py:479 | `parse_version(current) < parse_version(latest)` for release numbers: compared position by position, the shorter padded with zeros |
| PluginDialog.VersionSame | napari/_qt/dialogs/qt_plugin_dialog.py:479 | the two release sequences agree once padded with zeros |
| PluginDialog.VersionLessIrreflexive | napari/_qt/dialogs/qt_plugin_dialog.py:479 | no version is older than itself |
| PluginDialog.VersionLessTransitive | napari/_qt/dialogs/qt_plugin_dialog.py:479 | the version order is transitive |
| PluginDialog.VersionLessTotal | napari/_qt/dialogs/qt_plugin_dialog.py:479 | any two versions are the same up to trailing zeros or ordered one way or the other, and exactly one of these holds |
| PluginDialog.VersionSameTrailingZero | napari/_qt/dialogs/qt_plugin_dialog.py:479 | a trailing zero does not change a version (`1.0` is `1.0.0`, so neither is tagged against the other); versions of one length are the same only when equal |
| PluginDialog.Folded | napari/_qt/dialogs/qt_plugin_dialog.py:427 | the text Qt's case-insensitive matching compares: same length, capitals read as small letters |
| PluginDialog.FoldedFacts | napari/_qt/dialogs/qt_plugin_dialog.py:427 | folding changes only capitals, leaves none behind and is idempotent |
| PluginDialog.FoldedSlices | napari/_qt/dialogs/qt_plugin_dialog.py:427 | folding commutes with slicing and concatenation |
| PluginDialog.HasText | napari/_qt/dialogs/qt_plugin_dialog.py:426-428 | `findItems(name, Qt.MatchFixedString)` finds a row whose text equals the name up to case |
| PluginDialog.Matches | napari/_qt/dialogs/qt_plugin_dialog.py:494 | `findItems(text, Qt.MatchContains)` finds a row whose text contains the filter up to case |
| PluginDialog.MatchesIgnoresCase | napari/_qt/dialogs/qt_plugin_dialog.py:494 | folding the filter or the row's text does not change the match; the filter `Napari` finds `napari-foo A plugin` |
| PluginDialog.WithItem | napari/_qt/dialogs/qt_plugin_dialog.py:425-436 | the list after `addItem`: the old rows are a prefix, at most one row is added, and the list is unchanged exactly when a row's text is the bare name up to case and no plugin name is given; otherwise the added row is the new item: "name summary", the version, the installed and enabled flags, shown and untagged |
| PluginDialog.DuplicateCheckMissesOwnItem | napari/_qt/dialogs/qt_plugin_dialog.py:425-436 | the duplicate check compares the bare name with "name summary" texts, so the same project added twice is listed twice |
| PluginDialog.NewItemIsFound | napari/_qt/dialogs/qt_plugin_dialog.py:433 | a new row's text starts with the project name and contains its summary, up to case, so tagging finds it by name and filtering by summary |
| PluginDialog.Tags | napari/_qt/dialogs/qt_plugin_dialog.py:476-483 | the rows `tag_outdated` tags: found by name up to case, strictly older than the latest, not tagged yet |
| PluginDialog.Tagged | napari/_qt/dialogs/qt_plugin_dialog.py:476-490 | tagging changes only the update offer, and only of an untagged row, which then offers the latest version; a row that Tags selects is tagged with the latest version |
| PluginDialog.TagAll | napari/_qt/dialogs/qt_plugin_dialog.py:476-490 | `tag_outdated` applied to every row, the row count kept; its effect is stated by TagOnlyOlder |
| PluginDialog.TagOnlyOlder | napari/_qt/dialogs/qt_plugin_dialog.py:474-490 | a row is tagged, with the latest version, exactly when it starts with the name (up to case), its version is strictly older and it is not tagged yet; tagged rows keep their tag; rows not older, including those equal up to trailing zeros, are untouched |
| PluginDialog.TagIdempotent | napari/_qt/dialogs/qt_plugin_dialog.py:481-483 | tagging twice with the same project is tagging once |
| PluginDialog.Filtered | napari/_qt/dialogs/qt_plugin_dialog.py:492-497 | `filter` applied to every row, the row count kept; its effect is stated by FilterHidesNonMatches |
| PluginDialog.FilterHidesNonMatches | napari/_qt/dialogs/qt_plugin_dialog.py:492-497 | a row is hidden exactly when its text lacks the filter text (compared up to case), nothing else changes, the empty filter shows all, and only the last filter counts |
| PluginDialog.PluginList.constructor | napari/_qt/dialogs/qt_plugin_dialog.py:411-415 | a new list is empty |
| PluginDialog.PluginList.Clear | napari/_qt/dialogs/qt_plugin_dialog.py:522-523 | a cleared list is empty |
| PluginDialog.PluginList.AddItem | napari/_qt/dialogs/qt_plugin_dialog.py:417-456 | appends the new item for the project, unless a row's text is the bare name up to case and no plugin name is given; earlier rows stay as they were |
| PluginDialog.PluginList.TagOutdated | napari/_qt/dialogs/qt_plugin_dialog.py:474-490 | the rows afterwards are the rows tagged as TagOnlyOlder describes |
| PluginDialog.PluginList.Filter | napari/_qt/dialogs/qt_plugin_dialog.py:492-497 | the rows afterwards are the rows filtered as FilterHidesNonMatches describes |
| PluginDialog.Seen | napari/_qt/dialogs/qt_plugin_dialog.py:530-541 | `already_installed` after `refresh` has gone through the available plugins; characterised by SeenIsNonEmptyDistnames |
| PluginDialog.Picked | napari/_qt/dialogs/qt_plugin_dialog.py:532-546 | the plugins `refresh` hands to `addItem`, in order; characterised by PickedDistinct, SeenIsPicked and EmptyNeverDeduplicated |
| PluginDialog.AddAll | napari/_qt/dialogs/qt_plugin_dialog.py:537-557 | the installed list after adding the picked plugins in order, each with its metadata and enabled unless blocked |
| PluginDialog.SeenIsNonEmptyDistnames | napari/_qt/dialogs/qt_plugin_dialog.py:530-541 | the installed set is exactly the non-empty distribution names of plugins other than the engine |
| PluginDialog.PickedDistinct | napari/_qt/dialogs/qt_plugin_dialog.py:532-546 | the engine is never listed, each non-empty distribution is listed at most once, and every listed one is in the installed set |
| PluginDialog.SeenIsPicked | napari/_qt/dialogs/qt_plugin_dialog.py:537-557 | every distribution in the installed set is handed to `addItem` |
| PluginDialog.SpacedRowsMissName | napari/_qt/dialogs/qt_plugin_dialog.py:426-433 | the duplicate check never matches a name without a space against rows whose texts hold one, as every "name summary" text does |
| PluginDialog.AddAllListsEveryPicked | napari/_qt/dialogs/qt_plugin_dialog.py:533-557 | for names without spaces the duplicate check never fires during `refresh`: the installed list has one row per picked plugin, in order, each the new item built from its metadata, installed, and enabled unless blocked |
| PluginDialog.SeenHasRow | napari/_qt/dialogs/qt_plugin_dialog.py:530-557 | for names without spaces every distribution in the installed set has its row, built from its metadata |
| PluginDialog.EmptyNeverDeduplicated | napari/_qt/dialogs/qt_plugin_dialog.py:537-544 | plugins without a distribution are never deduplicated: each one other than the engine is listed |
| PluginDialog.Dialog.constructor | napari/_qt/dialogs/qt_plugin_dialog.py:501-508 | a pip installer outside any conda environment with the status view as output, then the first refresh: the installed list as Refresh builds it and an empty available list |
| PluginDialog.Dialog.Refresh | napari/_qt/dialogs/qt_plugin_dialog.py:521-562 | the available list is cleared; the installed list is the result of handing the deduplicated plugins to `addItem` in order (one row each, by AddAllListsEveryPicked); the label counts the installed distributions |
| PluginDialog.RefreshStep | napari/_qt/dialogs/qt_plugin_dialog.py:532-557 | one more plugin adds its distribution to the installed set when it is not the engine; it is handed to `addItem` exactly when its distribution is new or empty |
| PluginDialog.Dialog.ListInstalled | napari/_qt/dialogs/qt_plugin_dialog.py:532-557 | one more available plugin extends the installed set and the installed list as the deduplication prescribes |
| PluginDialog.Dialog.HandleYield | napari/_qt/dialogs/qt_plugin_dialog.py:568-572 | an installed project tags the installed list, any other is added to the available list; the other list is untouched |
| PluginDialog.Dialog.InstallPackages | napari/_qt/dialogs/qt_plugin_dialog.py:695-705 | with no packages, the entry is taken as one path or split into words and then cleared; a non-empty list is installed with pip from conda-forge, an empty one changes nothing |
| PluginDialog.ToInstall | napari/_qt/dialogs/qt_plugin_dialog.py:696-701 | given packages win, then a path, then the entry's words; the result is empty exactly when no packages are given and the entry is all whitespace and not a path |
| PluginDialog.LeadingWord | napari/_qt/dialogs/qt_plugin_dialog.py:701 | the first word is a whitespace-free prefix ending at whitespace or the end |
| PluginDialog.Words | napari/_qt/dialogs/qt_plugin_dialog.py:701 | Python's `str.split()`: the maximal runs of non-whitespace; characterised by WordsWellFormed, WordsEmptyIff and SplitJoinRoundTrip |
| PluginDialog.WordsWellFormed | napari/_qt/dialogs/qt_plugin_dialog.py:701 | every word of the split is non-empty and whitespace-free |
| PluginDialog.WordsEmptyIff | napari/_qt/dialogs/qt_plugin_dialog.py:701-705 | the split is empty exactly when the text is all whitespace |
| PluginDialog.WordThenSpace | napari/_qt/dialogs/qt_plugin_dialog.py:701 | a non-empty whitespace-free word followed by a space splits off as the first word, the rest split as before |
| PluginDialog.SplitJoinRoundTrip | napari/_qt/dialogs/qt_plugin_dialog.py:701 | splitting words joined by single spaces gives the words back |
| Menus.WidgetHandler | napari/_qt/menus/plugins_menu.py:62-66 | the `dock` hook adds a dock widget, every other hook a function widget, for the given plugin and widget |
| Menus.SubActionsShape | napari/_qt/menus/plugins_menu.py:54-73 | a submenu has one checkable action per distinct widget name, each triggering that widget |
| Menus.MultiWidgetGroupIsSubmenu | napari/_qt/menus/plugins_menu.py:47-73 | a plugin with several widgets adds one submenu titled with the plugin, holding exactly its widget names |
| Menus.SingleWidgetGroupIsItem | napari/_qt/menus/plugins_menu.py:51-72 | a plugin with one widget adds one top-level item named by the template, unless an entry already has that text |
| Menus.TopLevelKeeps | napari/_qt/menus/plugins_menu.py:54-73 | top-level widget items only append, never repeat an earlier entry's text, and are checkable widget actions |
| Menus.AddGroup | napari/_qt/menus/plugins_menu.py:46-73 | one iteration of the widget loop: a submenu for several widgets, top-level items otherwise |
| Menus.AddGroupKeeps | napari/_qt/menus/plugins_menu.py:46-73 | one plugin's widgets only append entries of that plugin and keep the no-repeat rule: no top-level item repeats an earlier entry's text and no submenu repeats an action text (submenu titles may repeat) |
| Menus.AddGroupsKeeps | napari/_qt/menus/plugins_menu.py:46-73 | the same for any sequence of plugins |
| Menus.Built | napari/_qt/menus/plugins_menu.py:30-73 | the menu `_build` produces: the fixed actions and separator, then each plugin's widgets in order |
| Menus.BuiltShape | napari/_qt/menus/plugins_menu.py:30-73 | a built menu starts with the two fixed actions and the separator, keeps the no-repeat rule, and everything after is a checkable widget entry |
| Menus.Matching | napari/_qt/menus/plugins_menu.py:85-86 | the widget groups of the registered plugin, in order |
| Menus.MatchingOnly | napari/_qt/menus/plugins_menu.py:85-86 | only groups of the registered plugin are visited, and none when it provides no widget |
| Menus.AddRegisteredAppends | napari/_qt/menus/plugins_menu.py:82-113 | registration only appends entries of that plugin, keeps the no-repeat rule, and changes nothing for a plugin without widgets |
| Menus.Kept | napari/_qt/menus/plugins_menu.py:77-80 | the entries `_remove_unregistered_widget` keeps, in order; characterised by KeptExactly and KeptCount |
| Menus.KeptExactly | napari/_qt/menus/plugins_menu.py:77-80 | removal keeps exactly the entries whose text lacks the value |
| Menus.KeptCount | napari/_qt/menus/plugins_menu.py:77-80 | kept and removed entries add up to the menu |
| Menus.KeptAll | napari/_qt/menus/plugins_menu.py:77-79 | a menu with no entry containing the value is left unchanged |
| Menus.KeptConcat | napari/_qt/menus/plugins_menu.py:77-79 | removal works entry by entry |
| Menus.NoDuplicatesAppend | napari/_qt/menus/plugins_menu.py:69-72 | appending an item with a new text, or a submenu whose actions do not repeat, keeps the no-repeat rule |
| Menus.KeptKeepsInvariants | napari/_qt/menus/plugins_menu.py:77-80 | removal keeps the no-repeat rule |
| Menus.PluginsMenu.constructor | napari/_qt/menus/plugins_menu.py:14-28 | the menu starts out as the built menu |
| Menus.PluginsMenu.Build | napari/_qt/menus/plugins_menu.py:30-73 | the menu becomes the built menu for the current widget groups |
| Menus.PluginsMenu.AddWidgetGroup | napari/_qt/menus/plugins_menu.py:46-73 | one plugin's widgets are added as a submenu or as top-level items |
| Menus.PluginsMenu.AddRegistered | napari/_qt/menus/plugins_menu.py:82-113 | the registered plugin's groups are added in order, and the menu still keeps the no-repeat rule |
| Menus.VisitStep | napari/_qt/menus/plugins_menu.py:77-80 | visiting the i-th listed action drops it and counts one removal exactly when its text contains the value, and leaves the menu as it is otherwise |
| Menus.PluginsMenu.VisitAction | napari/_qt/menus/plugins_menu.py:77-80 | one listed action is removed, with one dock-widget removal, exactly when its text contains the value |
| Menus.PluginsMenu.RemoveUnregistered | napari/_qt/menus/plugins_menu.py:75-80 | the menu keeps exactly the entries whose text lacks the value, asks for one dock-widget removal per removed entry, and still keeps the no-repeat rule |

## Left out

- The preferred-values table is a parameter (`prefs`), required to be positive and strictly increasing. `napari/utils/_units.py` is not part of this model.
- pint: quantities are a real magnitude with a unit string. `to_compact` is a parameter giving a positive factor and a unit. Unit parsing, dimensionality and the `~` caption formatting are not modelled.
- ScaleBar.ScaleBarVisual.constructor: stops where `__init__` calls its four handlers, which read the viewer's state; `ScaleBar.ScaleBarVisual.Initialize` runs them on the constructed state, with that state as parameters.
- ScaleBar.ScaleBarVisual.OnZoomChange: the `abs(log10(old) - log10(new)) < 1e-4` test is a boolean parameter. Floating-point rounding is not modelled; magnitudes are exact reals.
- ScaleBar.ScaleBarVisual.OnVisibleChange: the comparison of pint units with the unit string is modelled as equality of unit strings.
- The scale bar's colour and theme (`_on_data_change` lines 182-192 and 199-200), `_on_text_change`, font size, the vispy nodes and the canvas-destroyed callbacks are not modelled. The canvas size is a parameter.
- Process creation is a recorded launch: the program, the environment variables, stdout forwarding, `terminate` and the macOS bundled-Python lookup are left out. The exit status is not used by the source.
- The bundled-app-on-Linux branch of `_install` (lines 180-189) is left out. It reads `self._use_conda`, which the class never sets.
- `plugin_manager.discover`, `prune`, `discover_widgets`, `is_blocked` and `set_blocked` are foreign calls. The widget and availability lists and the blocked names are parameters.
- `_is_installed_with_conda`, the `PluginListItem` widget, `QPluginList.handle_action`, `setup_ui`, `eventFilter` and the working and error indicators are UI outside the modelled core.
- The worker thread that yields `ProjectInfo`s is a caller of `HandleYield`. Its timing and interleaving with `refresh` are not modelled.
- PluginDialog.Folded: Qt's case-insensitive matching (`MatchFixedString`, `MatchStartsWith`, `MatchContains`) folds every Unicode letter; the model folds only the ASCII capitals `A`-`Z`. This affects HasText, Matches, Tags, Tagged, PluginList.AddItem, PluginList.TagOutdated and PluginList.Filter alike.
- The installed and available lists are sorted alphabetically in the source; the model keeps rows in insertion order.
- PluginDialog.VersionLess: `parse_version` is modelled for plain release numbers, compared position by position with trailing zeros ignored. Pre-, post- and dev-releases, epochs, local labels and invalid versions are left out. `napari/utils/misc.py` is not part of this model.
- PluginDialog.Dialog.constructor: `refresh` also starts the worker that fetches the available plugins; that worker is a caller of `HandleYield` and is not modelled.
- Translations (`trans._`) are left out; texts are the English strings.
- Menus.PluginsMenu.AddWidgetGroup: the source adds a submenu before filling it; the model appends it once filled. The resulting menu is the same.
- The window's `add_plugin_dock_widget`, `_add_plugin_function_widget` and `_remove_dock_widget` are recorded as handlers and removal events. The dialogs they open are not modelled.
