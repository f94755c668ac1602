# ManagedShell core, modelled in Dafny

ManagedShell is a library for building Windows shell replacements. This
project models five parts of it:

- **The docking window** (`AppBarWindow`). A bar docked to one edge of a
  monitor that reserves screen space through the shell's docking registry.
  Its handlers form a state machine over its own fields: opening and
  closing, raising, topmost, mode, edge and orientation, DPI scale, screen
  and registry message id.
- **The full-screen tracker** (`FullScreenHelper`). On every poll tick it
  re-classifies the windows it tracks, removes those that no longer
  qualify, and then possibly adds the foreground window.
- **The notifying property setter** (`SetProperty`). Every observable
  property goes through it.
- **The task window** (`ApplicationWindow`). It holds the taskbar
  membership rules, the progress, state and category setters, and its
  lazily cached attributes.
- **The window helpers** (`WindowHelper`). The z-order calls, the desktop
  and taskbar window searches, the gradient colour encoding, the blur
  accent choice and the live-preview flag.

Native calls are not performed:

- What the operating system would report is an input: a `Desktop`
  snapshot, a `NativeWindow` record, the lists the window searches walk,
  the `WM_*` parameters.
- What the code asks of the system is recorded:
  - `SetWindowPos` calls go to `windowCalls`;
  - docking-registry requests go to the registry's `calls`;
  - PropertyChanged events go to `notifications`;
  - collection events go to `changes`;
  - one-shot timers go to `scheduled`.

The docking registry (`AppBarManager`) is external code. It is modelled as
two sets, the bars holding a reservation and the auto-hide bars, plus its
call log. A `RegisterBar` call with an edge adds the bar to the first set;
a call without an edge removes it.

Modules:

- `Common`: rectangles, screens, style constants, the `SetWindowPos` record.
- `PropertyNotify`: the setter.
- `WindowHelper`: the window helpers.
- `WindowsTasks`: the task window.
- `FullScreen`: the tracker.
- `AppBarRules`: the pure decisions inside the docking window (geometry,
  rounding, dispatch order, screen-change gate).
- `AppBar`: the docking window and the registry as classes.

## Where the code differs from its documented intent

The model follows the code in each of these cases.

- **One full-screen entry per monitor.** The tracker is meant to hold at
  most one entry per monitor. The tick keeps that only when the foreground
  window is classified on the monitor `Screen.FromHandle` reports for it
  (`FullScreen.TickKeepsOnePerDevice`).
  `FullScreen.TwoEntriesOnTheVirtualScreen` exhibits a tick that ends with
  two entries on the virtual screen:
  - a background window spans both monitors and survives, because the
    foreground window's own monitor is a real one;
  - the foreground window also spans both monitors and is added beside it.
- **Edge changes.** A registered bar is meant to be re-registered when its
  edge changes. In the code, the `AppBarEdge` setter only stores the edge
  and derives the orientation; the PropertyChanged handler reacts to
  `AppBarMode` alone. So `AppBar.AppBarWindow.SetAppBarEdge` leaves the
  registry untouched.
- **Category after ShowInTaskbar.** The `ShowInTaskbar` callback first
  reads `Category`. That getter asks the category provider and stores its
  answer without a notification. The callback's own notifying assignment
  asks the provider a second time, and only when the first answer was null.
  So a "Category" notification is raised only when the provider first
  answers null and then answers a category.
  `WindowsTasks.ApplicationWindow.SetShowInTaskbar` takes both answers and
  states every case.

## Model

| member | source | states |
|---|---|---|
| PropertyNotify.NamesAppend | src/ManagedShell.Common/Extensions/NotifyPropertyChangedExtensions.cs:19-21 | the names raised by two effect lists run one after the other are the first list's names followed by the second's |
| PropertyNotify.CallbackArgsAppend | src/ManagedShell.Common/Extensions/NotifyPropertyChangedExtensions.cs:19-21 | the callback arguments of two effect lists run in turn are concatenated in order |
| PropertyNotify.OnPropertyChanged | src/ManagedShell.Common/Extensions/NotifyPropertyChangedExtensions.cs:74-78 | a null property name raises nothing; any other name raises exactly one event with that name and runs no callback |
| PropertyNotify.ChangeEffects | src/ManagedShell.Common/Extensions/NotifyPropertyChangedExtensions.cs:19-21 | after a change: exactly one notification (none for a null name), the callback with the new value only when one is given, and no callback before a notification |
| PropertyNotify.SetProperty | src/ManagedShell.Common/Extensions/NotifyPropertyChangedExtensions.cs:11-56 | returns true exactly when the field differs from the new value; the field ends as the new value; on change exactly one notification and then the callback with the new value; with equal values no notification and no callback |
| PropertyNotify.SetNullable | src/ManagedShell.Common/Extensions/NotifyPropertyChangedExtensions.cs:58-72 | a nullable field set from a non-null value: a no-op only when the field holds an equal value; otherwise the field becomes that value, one notification, then the callback |
| PropertyNotify.SetPropertyIdempotent | src/ManagedShell.Common/Extensions/NotifyPropertyChangedExtensions.cs:17-23 | repeating a set with the same value returns false, keeps the field and raises nothing |
| PropertyNotify.SetNullableFromNull | src/ManagedShell.Common/Extensions/NotifyPropertyChangedExtensions.cs:65-71 | a null field is always overwritten and notified once |
| PropertyNotify.SetNullableAgreesWithSetProperty | src/ManagedShell.Common/Extensions/NotifyPropertyChangedExtensions.cs:42-72 | the nullable-field overload gives the same result, field and notifications as the whole-value overload given the wrapped value |
| WindowHelper.ShowWindowBottomMost | src/ManagedShell.Common/Helpers/WindowHelper.cs:14-24 | the call targets the window, inserts it after HWND_BOTTOM and neither moves, sizes, activates nor shows it, with the z-order change enabled |
| WindowHelper.ShowWindowTopMost | src/ManagedShell.Common/Helpers/WindowHelper.cs:26-36 | the call inserts the window after HWND_TOPMOST and shows it, with the z-order change enabled, without moving or sizing it, and without suppressing activation |
| WindowHelper.GetLowestDesktopParentHwnd | src/ManagedShell.Common/Helpers/WindowHelper.cs:60-83 | the do-while walk returns Progman when it hosts the desktop icons, otherwise the first WorkerW window that hosts them (or 0); any non-zero WorkerW answer is a worker that has a DefView child |
| WindowHelper.ShowWindowDesktop | src/ManagedShell.Common/Helpers/WindowHelper.cs:38-58 | with no desktop parent the call is the bottom-most placement; otherwise the window is inserted after the window above the desktop parent, without moving, sizing or activating |
| WindowHelper.FindWindowsTray | src/ManagedShell.Common/Helpers/WindowHelper.cs:239-252 | with a non-zero handle to ignore, the answer is never that handle and is the first taskbar window in z-order that differs from it; without one it is the first taskbar window; the answer is 0 or one of the taskbar windows |
| WindowHelper.HideWindowFromTasks | src/ManagedShell.Common/Helpers/WindowHelper.cs:106-111 | the new extended style has WS_EX_TOOLWINDOW set and every other bit as before |
| WindowHelper.PeekWindow | src/ManagedShell.Common/Helpers/WindowHelper.cs:122-135 | the enable flag is 1 exactly when showing and 0 exactly when not; Windows 8.1 and later use the extended call |
| WindowHelper.CalculateGradientColor | src/ManagedShell.Common/Helpers/WindowHelper.cs:219-227 | R is in bits 0-7, G in bits 8-15, B in bits 16-23 and alpha in bits 24-31 |
| WindowHelper.MaskKeepsBgr | src/ManagedShell.Common/Helpers/WindowHelper.cs:224-226 | the 0xFFFFFF mask never clears a bit of the packed B, G, R value |
| WindowHelper.GradientRoundTrip | src/ManagedShell.Common/Helpers/WindowHelper.cs:224-226 | reading the four bytes back from an encoded colour gives the colour |
| WindowHelper.GradientOnto | src/ManagedShell.Common/Helpers/WindowHelper.cs:224-226 | every 32-bit word is the encoding of the colour read from it, so the encoding is a bijection |
| WindowHelper.WhiteIsAllOnes | src/ManagedShell.Common/Helpers/WindowHelper.cs:152 | the default opaque white encodes to all 32 bits set, the int -1 |
| WindowHelper.IsWindowBlurSupportedAndEnabled | src/ManagedShell.Common/Helpers/WindowHelper.cs:186-198 | true exactly when the composition query succeeds and reports composition on, and transparency is enabled |
| WindowHelper.SetWindowBlur | src/ManagedShell.Common/Helpers/WindowHelper.cs:137-179 | before Windows 10 or without blur: returns false and applies nothing; otherwise returns true and applies acrylic tinted with the colour (white by default) on RS4 and later, blur-behind before RS4, and the disabled accent when turning blur off |
| WindowsTasks.CanAddToTaskbar | src/ManagedShell.WindowsTasks/ApplicationWindow.cs:228-236 | decides taskbar eligibility: a visible window, not a tool window, unowned or WS_EX_APPWINDOW, activatable or WS_EX_APPWINDOW |
| WindowsTasks.ShowInTaskbarDecision | src/ManagedShell.WindowsTasks/ApplicationWindow.cs:260-294 | decides ShowInTaskbar from the window, the OS version and the file name: the three Windows 8 hiding rules, then CanAddToTaskbar |
| WindowsTasks.ToolOrHiddenNeverAdded | src/ManagedShell.WindowsTasks/ApplicationWindow.cs:228-236 | a tool window, an invisible window or a non-window can never be added to the taskbar |
| WindowsTasks.AppWindowOverridesOwnerAndNoActivate | src/ManagedShell.WindowsTasks/ApplicationWindow.cs:228-236 | with WS_EX_APPWINDOW, a window can be added exactly when it is a visible window and not a tool window, whatever its owner and WS_EX_NOACTIVATE |
| WindowsTasks.PlainWindowMustBeUnownedAndActivatable | src/ManagedShell.WindowsTasks/ApplicationWindow.cs:228-236 | without WS_EX_APPWINDOW, a window can be added exactly when it is a visible, unowned, activatable window that is not a tool window |
| WindowsTasks.HiddenFromTasksNeverAdded | src/ManagedShell.WindowsTasks/ApplicationWindow.cs:228-236 | a window whose style went through HideWindowFromTasks can never be added to the taskbar |
| WindowsTasks.CloakedNeverShown | src/ManagedShell.WindowsTasks/ApplicationWindow.cs:263-272 | on Windows 8 and later a cloaked window is never shown in the taskbar |
| WindowsTasks.UwpFrameWithoutEdgeHidden | src/ManagedShell.WindowsTasks/ApplicationWindow.cs:275-285 | on Windows 8 and later, an ApplicationFrameWindow or CoreWindow without WS_EX_WINDOWEDGE is hidden |
| WindowsTasks.ImmersiveExplorerWindowHidden | src/ManagedShell.WindowsTasks/ApplicationWindow.cs:286-293 | on Windows 8 and 8.1, an immersive shell window whose file name contains explorer.exe is hidden |
| WindowsTasks.ShowInTaskbarOtherwiseCanAdd | src/ManagedShell.WindowsTasks/ApplicationWindow.cs:260-294 | a window is shown exactly when it can be added and none of the three hiding rules applies; before Windows 8 the decision is exactly CanAddToTaskbar |
| WindowsTasks.ApplicationWindow.constructor | src/ManagedShell.WindowsTasks/ApplicationWindow.cs:21-26 | a new task window has the handle and starts Inactive, with one "State" notification, no progress and every cache empty |
| WindowsTasks.ApplicationWindow.GetWinFileName | src/ManagedShell.WindowsTasks/ApplicationWindow.cs:71-82 | the file name is fetched while the cache is empty and then served from the cache |
| WindowsTasks.ApplicationWindow.GetIsUWP | src/ManagedShell.WindowsTasks/ApplicationWindow.cs:56-67 | computed once, from whether the lower-cased file name contains applicationframehost.exe, then served from the cache without touching the file name |
| WindowsTasks.ApplicationWindow.GetHMonitor | src/ManagedShell.WindowsTasks/ApplicationWindow.cs:210-214 | the monitor is fetched while the field is 0, then cached |
| WindowsTasks.ApplicationWindow.UpdateMonitor | src/ManagedShell.WindowsTasks/ApplicationWindow.cs:432-435 | stores the current monitor, with a "HMonitor" notification exactly when it changed |
| WindowsTasks.ApplicationWindow.GetShowInTaskbar | src/ManagedShell.WindowsTasks/ApplicationWindow.cs:260-294 | the result is the show-in-taskbar decision on the file name; the file name is read and cached only for an immersive shell class on Windows 8 and 8.1 |
| WindowsTasks.ApplicationWindow.GetShowInTaskbarProperty | src/ManagedShell.WindowsTasks/ApplicationWindow.cs:245 | computed on first read and cached silently, then served from the cache; the first read caches the file name exactly where the decision reads it, and a cached read leaves the file name alone |
| WindowsTasks.ApplicationWindow.GetCategory | src/ManagedShell.WindowsTasks/ApplicationWindow.cs:105-111 | a set category is returned unchanged; a null category is looked up (once) only when the window is shown in the taskbar, computing and caching ShowInTaskbar first if it is not cached (the file name then cached exactly where that decision reads it), and the answer is stored without a notification |
| WindowsTasks.ApplicationWindow.SetCategory | src/ManagedShell.WindowsTasks/ApplicationWindow.cs:110 | stores the category, with a "Category" notification exactly when it changed |
| WindowsTasks.ApplicationWindow.SetShowInTaskbar | src/ManagedShell.WindowsTasks/ApplicationWindow.cs:243-253 | an unchanged value does nothing and looks nothing up; a change raises "ShowInTaskbar"; when the new value is true and the category was null, the getter stores the first answer silently (one lookup), and only when that is null the second answer is assigned (a second lookup), with "Category" exactly when it is not null |
| WindowsTasks.ApplicationWindow.UpdateShowInTaskbar | src/ManagedShell.WindowsTasks/ApplicationWindow.cs:255-258 | the show-in-taskbar decision is stored through the setter, with the setter's notifications and category lookups; the file name is read only where the decision needs it |
| WindowsTasks.ApplicationWindow.SetProgressValue | src/ManagedShell.WindowsTasks/ApplicationWindow.cs:192-197 | stores the value, with a "ProgressValue" notification exactly when it changed |
| WindowsTasks.ApplicationWindow.SetProgressState | src/ManagedShell.WindowsTasks/ApplicationWindow.cs:179-188 | TBPF_NOPROGRESS first forces the progress value to 0 (notified if it changed); any other state keeps the value; then the state is stored and notified if it changed |
| WindowsTasks.ApplicationWindow.SetState | src/ManagedShell.WindowsTasks/ApplicationWindow.cs:201-206 | stores the state, with a "State" notification exactly when it changed |
| WindowsTasks.ApplicationWindow.BringToFront | src/ManagedShell.WindowsTasks/ApplicationWindow.cs:495-509 | a minimised window is restored and brought forward with its state untouched; any other window is shown and brought forward, and a flashing one becomes Active |
| WindowsTasks.ApplicationWindow.Equals | src/ManagedShell.WindowsTasks/ApplicationWindow.cs:587-590 | decides task-window equality by handle alone |
| WindowsTasks.EqualsIgnoresEverythingButHandle | src/ManagedShell.WindowsTasks/ApplicationWindow.cs:587-590 | two task windows with the same handle are equal whatever their state, category, progress or caches; different handles are never equal |
| FullScreen.TestedRect | src/ManagedShell.AppBar/FullScreenHelper.cs:87-98 | decides the rectangle tested: the client area on screen for a captioned, resizable window, else the window rectangle |
| FullScreen.Candidates | src/ManagedShell.AppBar/FullScreenHelper.cs:100-101 | decides the screens compared against: every monitor, then the virtual screen when there is more than one monitor |
| FullScreen.Disqualified | src/ManagedShell.AppBar/FullScreenHelper.cs:109-139 | decides the rejections: this process, not a window, invisible, minimised, the desktop classes, or cloaked on Windows 8 and later |
| FullScreen.Keeps | src/ManagedShell.AppBar/FullScreenHelper.cs:42-60 | decides whether an entry survives a tick: the foreground window still on its device, or a background window still on its device with the foreground window on another monitor |
| FullScreen.TickResult | src/ManagedShell.AppBar/FullScreenHelper.cs:32-83 | decides the collection after a tick: the survivors in their order, then the foreground window if it classifies and is not already tracked on its device |
| FullScreen.FirstFilled | src/ManagedShell.AppBar/FullScreenHelper.cs:104-107 | the index found is the first candidate the rectangle fills exactly; none means no candidate is filled |
| FullScreen.GetFullScreenApp | src/ManagedShell.AppBar/FullScreenHelper.cs:85-147 | a result carries the window, a candidate screen its tested rectangle fills on all four edges, and that rectangle, and the window passes every disqualification check; there is no result exactly when the window is disqualified or fills no candidate |
| FullScreen.ClassifiedOnFirstMatch | src/ManagedShell.AppBar/FullScreenHelper.cs:100-142 | the screen recorded is the first candidate, in enumeration order, that the window fills |
| FullScreen.SingleMonitorNeverVirtual | src/ManagedShell.AppBar/FullScreenHelper.cs:100-101 | with one monitor the recorded screen is never the virtual screen |
| FullScreen.KeptMembers | src/ManagedShell.AppBar/FullScreenHelper.cs:40-61 | an entry survives the scan exactly when it is tracked and the keep rule holds for it; the survivors are no more than the entries |
| FullScreen.AnySuppressesAddMeans | src/ManagedShell.AppBar/FullScreenHelper.cs:44-49 | the addition is skipped exactly when some tracked entry is the foreground window still filling the same device |
| FullScreen.TickGrowsByAtMostOne | src/ManagedShell.AppBar/FullScreenHelper.cs:64-82 | a tick grows the collection by at most one, and every entry after it was tracked before or is the classified foreground window |
| FullScreen.ForegroundEntryKeptAndNotReAdded | src/ManagedShell.AppBar/FullScreenHelper.cs:44-49 | a tracked foreground window still filling the same device is kept, nothing is added, and the collection does not grow |
| FullScreen.NoBackgroundSurvivorOnForegroundMonitor | src/ManagedShell.AppBar/FullScreenHelper.cs:51-60 | a surviving non-foreground entry still classifies, on the same device as before, and not on the foreground window's monitor |
| FullScreen.KeptKeepsOnePerDevice | src/ManagedShell.AppBar/FullScreenHelper.cs:40-61 | if the tracked entries had distinct devices, so do the survivors |
| FullScreen.TickKeepsOnePerDevice | src/ManagedShell.AppBar/FullScreenHelper.cs:32-83 | distinct devices survive a tick, provided the foreground window classifies on the monitor Screen.FromHandle reports for it |
| FullScreen.TwoEntriesOnTheVirtualScreen | src/ManagedShell.AppBar/FullScreenHelper.cs:51-60 | without that proviso, a tick can start with distinct devices and end with two entries on the virtual screen |
| FullScreen.RemoveFirst | src/ManagedShell.AppBar/FullScreenHelper.cs:69 | removing a present entry takes exactly one occurrence of it out; removing an absent one changes nothing |
| FullScreen.RemoveAllSkipsHead | src/ManagedShell.AppBar/FullScreenHelper.cs:63-71 | a leading entry that is not removed stays at the front |
| FullScreen.DroppedMembers | src/ManagedShell.AppBar/FullScreenHelper.cs:40-61 | every entry the scan marks for removal is tracked and fails the keep rule, and the marked entries are a sub-multiset of the tracked ones |
| FullScreen.RemovingDroppedLeavesKept | src/ManagedShell.AppBar/FullScreenHelper.cs:63-71 | removing the marked entries one at a time leaves exactly the survivors, in their order |
| FullScreen.FullScreenHelper.constructor | src/ManagedShell.AppBar/FullScreenHelper.cs:21-30 | the tracker starts with no entries, no events and no cached monitors |
| FullScreen.FullScreenHelper.NotifyScreensChanged | src/ManagedShell.AppBar/FullScreenHelper.cs:160-163 | the cached monitor list is dropped |
| FullScreen.FullScreenHelper.Tick | src/ManagedShell.AppBar/FullScreenHelper.cs:32-83 | the collection becomes the survivors in their order, then the possible addition; one removal event per dropped entry, then the addition event; the monitor list used is cached |
| FullScreen.FullScreenHelper.RemoveEach | src/ManagedShell.AppBar/FullScreenHelper.cs:63-71 | each listed entry is removed in turn, with one removal event each, in order |
| FullScreen.JudgeEntry | src/ManagedShell.AppBar/FullScreenHelper.cs:42-61 | one entry's verdict: it suppresses the addition exactly when it is still the foreground window on its device, and it is kept exactly when the keep rule holds for it |
| FullScreen.ScanEntries | src/ManagedShell.AppBar/FullScreenHelper.cs:36-61 | the scan marks exactly the entries the keep rule drops, in order, and skips the addition exactly when the foreground entry is still on its device; it leaves the collection untouched |
| FullScreen.RemoveStep | src/ManagedShell.AppBar/FullScreenHelper.cs:65-70 | each entry the removal loop reaches is still present, and removing it keeps the rest removable |
| FullScreen.RemovalEvents | src/ManagedShell.AppBar/FullScreenHelper.cs:69 | one event per removed entry |
| AppBarRules.OrientationOf | src/ManagedShell.AppBar/AppBarWindow.cs:48-58 | the orientation is Vertical exactly for Left and Right, Horizontal exactly for Top and Bottom |
| AppBarRules.RoundHalfEven | src/ManagedShell.AppBar/AppBarWindow.cs:495-499 | Convert.ToInt32 rounding: the result is within one half of the value, and an exact tie goes to the even integer |
| AppBarRules.RoundNearest | src/ManagedShell.AppBar/AppBarWindow.cs:495-499 | an integer closer than one half to the value is the rounded result |
| AppBarRules.RoundWhole | src/ManagedShell.AppBar/AppBarWindow.cs:495-499 | whole values round to themselves |
| AppBarRules.BarGeometry | src/ManagedShell.AppBar/AppBarWindow.cs:478-529 | a vertical bar spans the monitor height at the scaled desired width, offset from the left edge for Left and from the right edge otherwise; a horizontal bar mirrors this with Top |
| AppBarRules.BarInsideScreen | src/ManagedShell.AppBar/AppBarWindow.cs:478-529 | when the thickness and offset fit, the bar lies inside the monitor and spans it along its edge |
| AppBarRules.BarTouchesItsEdge | src/ManagedShell.AppBar/AppBarWindow.cs:478-529 | with no offset the bar touches the monitor edge it is docked to |
| AppBarRules.LeftAndRightMirror | src/ManagedShell.AppBar/AppBarWindow.cs:486-509 | left and right bars of the same size and offset are mirror images |
| AppBarRules.LeftBarExample | src/ManagedShell.AppBar/AppBarWindow.cs:478-529 | a 40-unit left bar at scale 1.5 on a 1920×1080 monitor is 60 pixels wide at x = 0 |
| AppBarRules.RightBarExample | src/ManagedShell.AppBar/AppBarWindow.cs:478-529 | the same bar on the right edge is at x = 1860 |
| AppBarRules.EdgeOffset | src/ManagedShell.AppBar/AppBarWindow.cs:486-489 | no offset when the bar must sit on the screen edge, else what the other bars reserve on that edge |
| AppBarRules.PositionCall | src/ManagedShell.AppBar/AppBarWindow.cs:522 | SetPosition's call places the computed rectangle and changes neither z-order nor activation |
| AppBarRules.AppBarPositionCall | src/ManagedShell.AppBar/AppBarWindow.cs:350-360 | the registry rectangle is applied without z-order or activation change, and the size is kept exactly when the width or height is negative |
| AppBarRules.ProcessesScreenChange | src/ManagedShell.AppBar/AppBarWindow.cs:368 | decides the screen-change gate: a primary bar that processes screen changes, or a DPI change, and never once closing is allowed |
| AppBarRules.ScreenChangeGate | src/ManagedShell.AppBar/AppBarWindow.cs:363-372 | nothing is processed once closing is allowed; a DPI change is always processed otherwise; any other reason only on a primary bar that processes screen changes |
| AppBarRules.ScreenAfterSetup | src/ManagedShell.AppBar/AppBarWindow.cs:471-474 | the screen is re-resolved to the primary screen exactly for a primary bar and a reason other than a DPI change |
| AppBarRules.DpiFromMessage | src/ManagedShell.AppBar/AppBarWindow.cs:283 | the scale is the low word of wParam over 96 |
| AppBarRules.DpiIgnoresHighWord | src/ManagedShell.AppBar/AppBarWindow.cs:283 | the high word of wParam never changes the scale |
| AppBarRules.RegistrySize | src/ManagedShell.AppBar/AppBarWindow.cs:420-427 | the registry size is the scaled desired thickness across the edge and the scaled rendered length along it |
| AppBarRules.Dispatch | src/ManagedShell.AppBar/AppBarWindow.cs:228-313 | the registry's message is recognised exactly when a message id has been assigned (it is never reset on unregistering) and the message matches it; activation and position-changed are forwarded only for a Normal bar that is not the shell and may not close; device changes count only for a device-tree change |
| AppBarRules.ForcesTopmost | src/ManagedShell.AppBar/AppBarWindow.cs:270 | decides when WM_WINDOWPOSCHANGING forces topmost: while raising and with the z-order changing |
| AppBarRules.NoForwardingUnlessNormalBar | src/ManagedShell.AppBar/AppBarWindow.cs:259-280 | a bar that may close, runs as the shell or is not Normal forwards neither activation nor position changes |
| AppBarRules.OtherDeviceChangesIgnored | src/ManagedShell.AppBar/AppBarWindow.cs:301-304 | a device change other than DBT_DEVNODES_CHANGED is ignored |
| AppBarRules.UnregisteredBarTakesNoNotification | src/ManagedShell.AppBar/AppBarWindow.cs:230 | before registration no message is taken for a registry notification |
| AppBarRules.ConflictsWith | src/ManagedShell.AppBar/AppBarWindow.cs:209 | decides which full-screen entries a bar yields to: those on its own monitor or on the virtual screen |
| AppBarRules.Reaction | src/ManagedShell.AppBar/AppBarWindow.cs:217-224 | concede exactly when a conflicting entry exists and the bar is topmost; reclaim exactly when none exists and it is not |
| AppBarRules.ReactionSettlesTopmost | src/ManagedShell.AppBar/AppBarWindow.cs:203-225 | after the reaction the bar is topmost exactly when no entry conflicts, whatever it was before |
| AppBarRules.LastStateDecidesTopmost | src/ManagedShell.AppBar/AppBarWindow.cs:203-225 | when the handler runs once per collection event, the bar ends topmost exactly when the last collection state has no conflicting entry, as one run on that state would leave it |
| AppBarRules.ReplacedEntryRaisesThenLowers | src/ManagedShell.AppBar/AppBarWindow.cs:203-225 | a conceded bar whose conflicting entry is replaced by another on its monitor within one tick is raised after the removal and lowered after the addition, where one run on the final collection does nothing |
| AppBar.AppBarManager.RegisterBar | src/ManagedShell.AppBar/AppBarWindow.cs:420-443 | a request with an edge reserves the bar, one without releases it; the request is logged and the registry's message id returned |
| AppBar.AppBarManager.RegisterAutoHideBar | src/ManagedShell.AppBar/AppBarWindow.cs:125-128 | the bar joins the auto-hide set and the request is logged |
| AppBar.AppBarManager.UnregisterAutoHideBar | src/ManagedShell.AppBar/AppBarWindow.cs:129-132 | the bar leaves the auto-hide set and the request is logged |
| AppBar.InitialEdgeAndMode | src/ManagedShell.AppBar/AppBarWindow.cs:75-105 | edge, derived orientation and mode end up as given, starting from Left, Vertical and Normal, and exactly the ones that differ from those defaults are announced, in setter order |
| AppBar.AppBarWindow.constructor | src/ManagedShell.AppBar/AppBarWindow.cs:75-105 | a new bar is opening, topmost, unregistered, unsubscribed, hidden, without a handle or extended style, not required at the screen edge and with a 0.0 rendered size; edge and mode go through their notifying setters; the given size becomes the desired thickness across its edge |
| AppBar.AppBarWindow.SetAppBarEdge | src/ManagedShell.AppBar/AppBarWindow.cs:48-58 | the edge is stored and the orientation derived from it in the same call, each notified exactly when it changed |
| AppBar.AppBarWindow.SetOrientation | src/ManagedShell.AppBar/AppBarWindow.cs:69-73 | stores the orientation, notified exactly when it changed |
| AppBar.AppBarWindow.SetDpiScale | src/ManagedShell.AppBar/AppBarWindow.cs:27-31 | stores the scale, notified exactly when it changed |
| AppBar.AppBarWindow.SetAppBarMode | src/ManagedShell.AppBar/AppBarWindow.cs:60-64 | stores the mode; an unchanged mode, or any change while opening, leaves the registry alone; otherwise the mode handler's requests follow (ModeApplied: reserve with the edge and the registry size, or release without an edge, then join or leave the auto-hide set; a fresh reservation's message id is kept) and the registrations then match the mode; other bars' registrations and the bar's other fields are untouched |
| AppBar.AppBarWindow.AppBarPropertyChanged | src/ManagedShell.AppBar/AppBarWindow.cs:107-134 | nothing while opening or for another property; on a mode change (ModeApplied) a Normal bar sends RegisterBar with its registry size and edge unless already reserved and keeps the returned id, any other mode sends the edgeless release only if reserved, then AutoHide joins and any other mode leaves the auto-hide set; other bars' registrations are untouched |
| AppBar.AppBarWindow.RegisterAppBar | src/ManagedShell.AppBar/AppBarWindow.cs:413-428 | a no-op unless the mode is Normal and the bar is not reserved; otherwise one request with the edge, whose message id the bar keeps; a Normal bar ends reserved |
| AppBar.AppBarWindow.UnregisterAppBar | src/ManagedShell.AppBar/AppBarWindow.cs:430-445 | a no-op unless the bar is reserved; otherwise one request without an edge; the bar ends unreserved |
| AppBar.AppBarWindow.OnSourceInitialized | src/ManagedShell.AppBar/AppBarWindow.cs:137-180 | takes the handle, adopts the DPI scale (refreshed on the primary monitor) with its "DpiScale" notification when it changes, positions the bar (again later as the shell, after the work-area call), registers by mode with exactly the requests, sets and message id of RegisterForMode, hides from the task list, subscribes and ends opening |
| AppBar.AppBarWindow.InitialPlacement | src/ManagedShell.AppBar/AppBarWindow.cs:140-162 | the handle, DPI scale with its "DpiScale" notification when it changes, first position call and work-area call as the shell, and the delayed second position as the shell |
| AppBar.AppBarWindow.HideFromTasks | src/ManagedShell.AppBar/AppBarWindow.cs:174 | the bar's extended style gains WS_EX_TOOLWINDOW |
| AppBar.AppBarWindow.RegisterForMode | src/ManagedShell.AppBar/AppBarWindow.cs:164-171 | Normal reserves (one RegisterBar with the edge unless already reserved, keeping the id), AutoHide joins the auto-hide set with one request, Unreserved changes nothing; other bars' registrations are untouched, and an unregistered bar ends with exactly the registrations its mode calls for |
| AppBar.AppBarWindow.OnClosing | src/ManagedShell.AppBar/AppBarWindow.cs:182-201 | the close is cancelled exactly when closing is not allowed after the hook, and then nothing else changes; otherwise the edgeless release is sent if reserved, then the auto-hide release, and both registrations and the full-screen subscription are released |
| AppBar.AppBarWindow.OnFullScreenAppsChanged | src/ManagedShell.AppBar/AppBarWindow.cs:203-225 | the bar ends topmost exactly when no tracked entry is on its monitor or the virtual screen; it moves to the bottom when conceding, to the top when reclaiming, and otherwise stays put |
| AppBar.AppBarWindow.SetFullScreenMode | src/ManagedShell.AppBar/AppBarWindow.cs:374-392 | conceding clears topmost and moves the bar to the bottom; reclaiming sets topmost, raises the bar, and leaves IsRaising false |
| AppBar.AppBarWindow.WndProc | src/ManagedShell.AppBar/AppBarWindow.cs:228-313 | always returns 0; marks handled exactly the registry's messages and the screen-change messages; each branch has its handler's effect (registry notification, forwarded activation and position change, WINDOWPOS rewrite on the pre-state, DPI change with its reprocessing, gated screen change with its reposition) and leaves what the other handlers change alone |
| AppBar.AppBarWindow.OnAppBarNotification | src/ManagedShell.AppBar/AppBarWindow.cs:232-257 | ABN_POSCHANGED asks the registry to place the bar at its current size; ABN_WINDOWARRANGE hides the bar before an arrangement and shows it after; anything else changes nothing |
| AppBar.AppBarWindow.OnWindowPosChanging | src/ManagedShell.AppBar/AppBarWindow.cs:263-276 | insert-after becomes HWND_TOPMOST exactly while raising with the z-order changing; otherwise the record is untouched |
| AppBar.AppBarWindow.OnDpiChanged | src/ManagedShell.AppBar/AppBarWindow.cs:281-295 | stores the message's scale (notified if it changed), shares it from the primary monitor, and unless still opening or closing is allowed drops the monitor cache and repositions the bar as SetScreenPosition does; otherwise nothing else changes |
| AppBar.AppBarWindow.ProcessScreenChange | src/ManagedShell.AppBar/AppBarWindow.cs:363-372 | exactly when the gate lets the reason through: the monitor cache is dropped, the screen re-resolved and the bar repositioned as SetScreenPosition does; otherwise nothing changes |
| AppBar.AppBarWindow.SetScreenProperties | src/ManagedShell.AppBar/AppBarWindow.cs:467-476 | the tracker's monitor cache is dropped, the screen re-resolved only for a primary bar and a reason other than DPI, and the bar repositioned |
| AppBar.AppBarWindow.SetScreenPosition | src/ManagedShell.AppBar/AppBarWindow.cs:330-348 | as the shell or outside Normal mode the bar positions itself after a delay; otherwise the registry is asked to place it |
| AppBar.AppBarWindow.DelaySetPosition | src/ManagedShell.AppBar/AppBarWindow.cs:317-328 | one delayed SetPosition is scheduled |
| AppBar.AppBarWindow.AfterAppBarPos | src/ManagedShell.AppBar/AppBarWindow.cs:449-463 | when the registry moved the bar, one delayed reassertion of that rectangle is scheduled; otherwise nothing |
| AppBar.AppBarWindow.FireDeferred | src/ManagedShell.AppBar/AppBarWindow.cs:317-328 | a fired timer runs its action once: SetPosition or SetAppBarPosition |
| AppBar.AppBarWindow.SetAppBarPosition | src/ManagedShell.AppBar/AppBarWindow.cs:350-360 | one window call placing the registry's rectangle |
| AppBar.AppBarWindow.SetPosition | src/ManagedShell.AppBar/AppBarWindow.cs:478-529 | one window call placing the bar geometry for the current state; as the shell, the work area is updated too |

## Left out

- ComTaskScheduler is not part of this model. It is a dedicated thread with a blocking queue; its point is concurrency.
- DpiHelper is reduced to the process-wide scale factor (`SystemDpi`). Its GDI query and its conversions are left out.
- HasContextMenu is left out. It walks the WPF visual tree.
- Icon loading, SetOverlayIcon and rendering are left out. They are image handling.
- The reflection-based reset of the platform's monitor cache becomes a cached monitor list that `NotifyScreensChanged` clears.
- Timers are not timed. The 100 ms poll and the one-shot timers of DelaySetPosition and AfterAppBarPos become entries in `scheduled`, which `FireDeferred` runs.
- These ApplicationWindow members are left out: Title, AppUserModelID, WinFileDescription, ProcId, the icon properties, and the Minimize, Maximize, Restore, Move, Size, Close and DoClose commands. They only query or message the native window.
- GetLowestDesktopChildHwnd, SetDarkModePreference and ExcludeWindowFromPeek are left out. They are single native calls with no decision in them.
- Native queries and the registry read in IsTransparencyEffectsEnabled are inputs, not behaviour.
- FullScreen.FullScreenHelper.Tick: CollectionChanged subscribers are not run from inside the tick; their events are logged in `changes`. In the code a docked bar's handler runs after each Remove and each Add. `AppBarRules.LastStateDecidesTopmost` shows the bar's final Topmost is the same as after one run on the final collection. The SetWindowPos calls in between are not captured: `AppBarRules.ReplacedEntryRaisesThenLowers` shows a raise followed by a lower that one run would not make.
- FullScreen.RemoveFirst: the collection removes a FullScreenApp object by reference; the model removes the first equal value. Two entries that are equal in every field are interchangeable, so the resulting sequence is the same.
- AppBar.AppBarWindow.SetFullScreenMode: the WM_WINDOWPOSCHANGING message that the raise sends back to the bar is not modelled. `OnWindowPosChanging` states what that message does while IsRaising holds.
- AppBar.AppBarWindow.OnAppBarNotification: Visibility stands for a visible flag; hiding and showing are not otherwise modelled.
- The rendered size WPF reports (`actualWidth`, `actualHeight`) is an input the caller writes into the window; the model never lays the window out, so the constructor leaves those fields at 0.0 until the caller sets them, and until then the registry size along the edge is 0.
- AppBar.AppBarWindow.constructor: the hook into WPF's Topmost and window setup is reduced to the fields it sets.
- AppBarRules.RoundHalfEven: doubles are exact reals, and the OverflowException of Convert.ToInt32 outside the int range is not modelled.
- WindowsTasks.ApplicationWindow.GetIsUWP: ToLower is ASCII-only case folding.
- WindowsTasks.ApplicationWindow.SetShowInTaskbar: `categoryLookups` counts the places the code asks for a category; when no provider is installed, `?.` skips the call and the answer is null, and the model still counts the attempt.
- AppBarRules.DpiFromMessage: IntPtr.ToInt32 overflow on a 64-bit wParam is not modelled; a non-negative wParam is meant.
