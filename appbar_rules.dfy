/**
 * The pure decisions inside the docking window: the edge/orientation relation,
 * the rounding of device-independent sizes to pixels, the bar geometry of
 * SetPosition, the screen-change gate, the WndProc dispatch order, and which
 * full-screen entries make a bar concede.
 */
module AppBarRules {
  import opened Common
  import FullScreen

  datatype AppBarEdge = Left | Top | Right | Bottom

  datatype Orientation = Vertical | Horizontal

  /** Normal holds a reservation, AutoHide a collapsible one, Unreserved (the source's AppBarMode.None) none. */
  datatype AppBarMode = Normal | AutoHide | Unreserved

  datatype ScreenSetupReason = DpiChange | DisplayChange | DeviceChange | DwmChange

  /** The orientation the AppBarEdge setter assigns: vertical exactly for the left and right edges. */
  function OrientationOf(edge: AppBarEdge): (o: Orientation)
    ensures o == Vertical <==> edge == Left || edge == Right
    ensures o == Horizontal <==> edge == Top || edge == Bottom
  {
    match edge
    case Left | Right => Vertical
    case Top | Bottom => Horizontal
  }

  // ---------------------------------------------------------------------------
  // Convert.ToInt32(double): round to the nearest integer, ties to even

  function RoundHalfEven(x: real): (r: int)
    ensures -1.0 <= 2.0 * (r as real - x) <= 1.0
    ensures 2.0 * (r as real - x) == 1.0 || 2.0 * (r as real - x) == -1.0 ==> r % 2 == 0
  {
    var f := x.Floor;
    var frac := x - f as real;
    if 2.0 * frac < 1.0 then f
    else if 2.0 * frac > 1.0 then f + 1
    else if f % 2 == 0 then f else f + 1
  }

  /** An integer closer than one half to x is the rounded value. */
  lemma RoundNearest(x: real, n: int)
    requires -1.0 < 2.0 * (n as real - x) < 1.0
    ensures RoundHalfEven(x) == n
  {
    var r := RoundHalfEven(x);
    assert -2.0 < 2.0 * (r as real - n as real) < 2.0;
    assert -1 < r - n < 1;
  }

  /** Whole values are unchanged by rounding. */
  lemma RoundWhole(n: int)
    ensures RoundHalfEven(n as real) == n
  {
    RoundNearest(n as real, n);
  }

  // ---------------------------------------------------------------------------
  // SetPosition geometry

  /** The rectangle SetPosition asks SetWindowPos for: left, top, width, height in pixels. */
  datatype BarPlacement = BarPlacement(left: int, top: int, width: int, height: int)

  /**
   * A vertical bar spans the monitor's height and is `desiredWidth × dpiScale`
   * pixels wide; it sits `edgeOffset × dpiScale` pixels in from the left edge when
   * the edge is Left, else in from the right edge. A horizontal bar mirrors this
   * on the other axis, with Top in place of Left.
   */
  function BarGeometry(orientation: Orientation, edge: AppBarEdge, bounds: Rect,
                       desiredWidth: real, desiredHeight: real, dpiScale: real, edgeOffset: real): (p: BarPlacement)
    ensures orientation == Vertical ==>
              p.top == bounds.top && p.height == bounds.Height() && p.width == RoundHalfEven(desiredWidth * dpiScale)
    ensures orientation == Vertical && edge == Left ==> p.left - bounds.left == RoundHalfEven(edgeOffset * dpiScale)
    ensures orientation == Vertical && edge != Left ==> bounds.right - (p.left + p.width) == RoundHalfEven(edgeOffset * dpiScale)
    ensures orientation == Horizontal ==>
              p.left == bounds.left && p.width == bounds.Width() && p.height == RoundHalfEven(desiredHeight * dpiScale)
    ensures orientation == Horizontal && edge == Top ==> p.top - bounds.top == RoundHalfEven(edgeOffset * dpiScale)
    ensures orientation == Horizontal && edge != Top ==> bounds.bottom - (p.top + p.height) == RoundHalfEven(edgeOffset * dpiScale)
  {
    var offset := RoundHalfEven(edgeOffset * dpiScale);
    if orientation == Vertical then
      var width := RoundHalfEven(desiredWidth * dpiScale);
      var left := if edge == Left then bounds.left + offset else bounds.right - width - offset;
      BarPlacement(left, bounds.top, width, bounds.Height())
    else
      var height := RoundHalfEven(desiredHeight * dpiScale);
      var top := if edge == Top then bounds.top + offset else bounds.bottom - height - offset;
      BarPlacement(bounds.left, top, bounds.Width(), height)
  }

  /** Whether a placement lies inside the monitor bounds. */
  predicate Inside(p: BarPlacement, bounds: Rect)
  {
    bounds.left <= p.left && p.left + p.width <= bounds.right &&
    bounds.top <= p.top && p.top + p.height <= bounds.bottom
  }

  /**
   * With the orientation its edge implies, a bar whose thickness and offset fit
   * within the monitor lies inside the monitor and spans it along its edge.
   */
  lemma BarInsideScreen(edge: AppBarEdge, bounds: Rect, desiredWidth: real, desiredHeight: real, dpiScale: real, edgeOffset: real)
    requires bounds.left <= bounds.right && bounds.top <= bounds.bottom
    requires var off := RoundHalfEven(edgeOffset * dpiScale);
             0 <= off &&
             (OrientationOf(edge) == Vertical ==> 0 <= RoundHalfEven(desiredWidth * dpiScale) && off + RoundHalfEven(desiredWidth * dpiScale) <= bounds.Width()) &&
             (OrientationOf(edge) == Horizontal ==> 0 <= RoundHalfEven(desiredHeight * dpiScale) && off + RoundHalfEven(desiredHeight * dpiScale) <= bounds.Height())
    ensures var p := BarGeometry(OrientationOf(edge), edge, bounds, desiredWidth, desiredHeight, dpiScale, edgeOffset);
            Inside(p, bounds) &&
            (OrientationOf(edge) == Vertical ==> p.height == bounds.Height()) &&
            (OrientationOf(edge) == Horizontal ==> p.width == bounds.Width())
  {
  }

  /** A bar with no offset touches the monitor edge it is docked to. */
  lemma BarTouchesItsEdge(edge: AppBarEdge, bounds: Rect, desiredWidth: real, desiredHeight: real, dpiScale: real)
    ensures var p := BarGeometry(OrientationOf(edge), edge, bounds, desiredWidth, desiredHeight, dpiScale, 0.0);
            (edge == Left ==> p.left == bounds.left) &&
            (edge == Right ==> p.left + p.width == bounds.right) &&
            (edge == Top ==> p.top == bounds.top) &&
            (edge == Bottom ==> p.top + p.height == bounds.bottom)
  {
    RoundWhole(0);
  }

  /** Left and right bars of the same size and offset are mirror images within the monitor. */
  lemma LeftAndRightMirror(bounds: Rect, desiredWidth: real, desiredHeight: real, dpiScale: real, edgeOffset: real)
    ensures var l := BarGeometry(Vertical, Left, bounds, desiredWidth, desiredHeight, dpiScale, edgeOffset);
            var r := BarGeometry(Vertical, Right, bounds, desiredWidth, desiredHeight, dpiScale, edgeOffset);
            l.left - bounds.left == bounds.right - (r.left + r.width) && l.width == r.width && l.top == r.top
  {
  }

  /** A 40-unit left bar at scale 1.5 on a 1920×1080 monitor at the origin is 60 pixels wide at x = 0. */
  lemma LeftBarExample()
    ensures BarGeometry(Vertical, Left, Rect(0, 0, 1920, 1080), 40.0, 0.0, 1.5, 0.0) == BarPlacement(0, 0, 60, 1080)
  {
    RoundWhole(60);
    RoundWhole(0);
  }

  /** The same bar on the right edge sits at x = 1860. */
  lemma RightBarExample()
    ensures BarGeometry(Vertical, Right, Rect(0, 0, 1920, 1080), 40.0, 0.0, 1.5, 0.0) == BarPlacement(1860, 0, 60, 1080)
  {
    RoundWhole(60);
    RoundWhole(0);
  }

  /** The offset from the edge: none when the bar must sit on the screen edge, else what the other bars reserve. */
  function EdgeOffset(requiresScreenEdge: bool, reservedByOthers: real): (off: real)
    ensures requiresScreenEdge ==> off == 0.0
    ensures !requiresScreenEdge ==> off == reservedByOthers
  {
    if requiresScreenEdge then 0.0 else reservedByOthers
  }

  /** SetPosition's SetWindowPos call: the computed rectangle, without changing z-order or activation. */
  function PositionCall(handle: Hwnd, p: BarPlacement): (c: WindowPosCall)
    ensures c.hwnd == handle && c.insertAfter == NullHwnd
    ensures c.x == p.left && c.y == p.top && c.cx == p.width && c.cy == p.height
    ensures c.flags & SWP_NOZORDER != 0 && c.flags & SWP_NOACTIVATE != 0
    ensures c.flags & (SWP_NOSIZE | SWP_NOMOVE) == 0
  {
    WindowPosCall(handle, NullHwnd, p.left, p.top, p.width, p.height, SWP_NOZORDER | SWP_NOACTIVATE)
  }

  /**
   * SetAppBarPosition's SetWindowPos call for a registry-assigned rectangle: never
   * changes z-order or activation, and keeps the size when the rectangle has a
   * negative width or height.
   */
  function AppBarPositionCall(handle: Hwnd, rect: Rect): (c: WindowPosCall)
    ensures c.hwnd == handle && c.insertAfter == NullHwnd
    ensures c.x == rect.left && c.y == rect.top && c.cx == rect.Width() && c.cy == rect.Height()
    ensures c.flags & SWP_NOZORDER != 0 && c.flags & SWP_NOACTIVATE != 0
    ensures c.flags & SWP_NOSIZE != 0 <==> rect.Width() < 0 || rect.Height() < 0
    ensures c.flags & SWP_NOMOVE == 0
  {
    var swp := SWP_NOZORDER | SWP_NOACTIVATE;
    var swp' := if rect.Width() < 0 || rect.Height() < 0 then swp | SWP_NOSIZE else swp;
    WindowPosCall(handle, NullHwnd, rect.left, rect.top, rect.Width(), rect.Height(), swp')
  }

  // ---------------------------------------------------------------------------
  // Screen changes

  /**
   * ProcessScreenChange's gate: a primary-monitor bar that processes screen
   * changes, or any bar on a DPI change; never once closing is allowed.
   */
  predicate ProcessesScreenChange(primary: bool, processScreenChanges: bool, allowClose: bool, reason: ScreenSetupReason)
  {
    ((primary && processScreenChanges) || reason == DpiChange) && !allowClose
  }

  /** The gate, case by case. */
  lemma ScreenChangeGate(primary: bool, processScreenChanges: bool, allowClose: bool, reason: ScreenSetupReason)
    ensures allowClose ==> !ProcessesScreenChange(primary, processScreenChanges, allowClose, reason)
    ensures !allowClose && reason == DpiChange ==> ProcessesScreenChange(primary, processScreenChanges, allowClose, reason)
    ensures reason != DpiChange ==>
              (ProcessesScreenChange(primary, processScreenChanges, allowClose, reason) <==> primary && processScreenChanges && !allowClose)
  {
  }

  /** SetScreenProperties re-resolves the screen only on the primary monitor and not for a DPI change. */
  function ScreenAfterSetup(screen: ScreenInfo, reason: ScreenSetupReason, primaryScreen: ScreenInfo): (s: ScreenInfo)
    ensures s == primaryScreen || s == screen
    ensures s != screen ==> screen.primary && reason != DpiChange
    ensures screen.primary && reason != DpiChange ==> s == primaryScreen
  {
    if screen.primary && reason != DpiChange then primaryScreen else screen
  }

  /** The scale WM_DPICHANGED carries: the low word of wParam (the DPI) over 96. */
  function DpiFromMessage(wParam: int): (scale: real)
    ensures 0.0 <= scale < 65536.0 / 96.0
    ensures 0 <= wParam < 0x1_0000 ==> scale * 96.0 == wParam as real
  {
    (wParam % 0x1_0000) as real / 96.0
  }

  /** Only the low word counts: the high word (the vertical DPI) never changes the scale. */
  lemma DpiIgnoresHighWord(wParam: int, high: int)
    ensures DpiFromMessage(wParam + high * 0x1_0000) == DpiFromMessage(wParam)
  {
    assert (wParam + high * 0x1_0000) % 0x1_0000 == wParam % 0x1_0000;
  }

  /** The registry size of a bar: desired thickness across its edge, rendered size along it, both scaled. */
  function RegistrySize(orientation: Orientation, desiredWidth: real, desiredHeight: real,
                        actualWidth: real, actualHeight: real, dpiScale: real): (size: (real, real))
    ensures orientation == Vertical ==> size == (desiredWidth * dpiScale, actualHeight * dpiScale)
    ensures orientation == Horizontal ==> size == (actualWidth * dpiScale, desiredHeight * dpiScale)
  {
    if orientation == Vertical then (desiredWidth * dpiScale, actualHeight * dpiScale)
    else (actualWidth * dpiScale, desiredHeight * dpiScale)
  }

  // ---------------------------------------------------------------------------
  // WndProc dispatch

  const WM_ACTIVATE: int := 0x0006
  const WM_WINDOWPOSCHANGING: int := 0x0046
  const WM_WINDOWPOSCHANGED: int := 0x0047
  const WM_DISPLAYCHANGE: int := 0x007E
  const WM_DEVICECHANGE: int := 0x0219
  const WM_DPICHANGED: int := 0x02E0
  const WM_DWMCOMPOSITIONCHANGED: int := 0x031E
  const DBT_DEVNODES_CHANGED: int := 0x0007
  const ABN_POSCHANGED: int := 1
  const ABN_WINDOWARRANGE: int := 3

  /** Which branch of WndProc a message takes, in the order the branches are tried. */
  datatype MessageBranch =
    | AppBarNotification
    | ActivateBar
    | PositionChanging
    | PositionChanged
    | DpiChanged
    | ScreenChanged(reason: ScreenSetupReason)
    | Ignored

  function Dispatch(msg: int, wParam: int, appBarMessageId: int, mode: AppBarMode,
                    runningAsShell: bool, allowClose: bool): (b: MessageBranch)
    ensures b == AppBarNotification <==> msg == appBarMessageId && appBarMessageId != -1
    ensures b == ActivateBar ==> msg == WM_ACTIVATE && mode == Normal && !runningAsShell && !allowClose
    ensures b == PositionChanged ==> msg == WM_WINDOWPOSCHANGED && mode == Normal && !runningAsShell && !allowClose
    ensures b == PositionChanging ==> msg == WM_WINDOWPOSCHANGING
    ensures b == DpiChanged ==> msg == WM_DPICHANGED
    ensures b == ScreenChanged(DeviceChange) ==> msg == WM_DEVICECHANGE && wParam == DBT_DEVNODES_CHANGED
    ensures b.ScreenChanged? ==> b.reason != DpiChange
  {
    if msg == appBarMessageId && appBarMessageId != -1 then AppBarNotification
    else if msg == WM_ACTIVATE && mode == Normal && !runningAsShell && !allowClose then ActivateBar
    else if msg == WM_WINDOWPOSCHANGING then PositionChanging
    else if msg == WM_WINDOWPOSCHANGED && mode == Normal && !runningAsShell && !allowClose then PositionChanged
    else if msg == WM_DPICHANGED then DpiChanged
    else if msg == WM_DISPLAYCHANGE then ScreenChanged(DisplayChange)
    else if msg == WM_DEVICECHANGE && wParam == DBT_DEVNODES_CHANGED then ScreenChanged(DeviceChange)
    else if msg == WM_DWMCOMPOSITIONCHANGED then ScreenChanged(DwmChange)
    else Ignored
  }

  /** Whether WndProc marks the message handled: the registry's own notifications and the three screen-change messages. */
  predicate MarksHandled(b: MessageBranch)
  {
    b == AppBarNotification || b.ScreenChanged?
  }

  /**
   * Once the bar may close, or when it runs as the shell, or in a mode other
   * than Normal, activation and position changes are not forwarded to the registry.
   */
  lemma NoForwardingUnlessNormalBar(msg: int, wParam: int, appBarMessageId: int, mode: AppBarMode, runningAsShell: bool, allowClose: bool)
    requires allowClose || runningAsShell || mode != Normal
    ensures Dispatch(msg, wParam, appBarMessageId, mode, runningAsShell, allowClose) != ActivateBar
    ensures Dispatch(msg, wParam, appBarMessageId, mode, runningAsShell, allowClose) != PositionChanged
  {
  }

  /** Device-change messages other than a device-tree change are ignored. */
  lemma OtherDeviceChangesIgnored(wParam: int, appBarMessageId: int, mode: AppBarMode, runningAsShell: bool, allowClose: bool)
    requires wParam != DBT_DEVNODES_CHANGED && appBarMessageId != WM_DEVICECHANGE
    ensures Dispatch(WM_DEVICECHANGE, wParam, appBarMessageId, mode, runningAsShell, allowClose) == Ignored
  {
  }

  /** Before registration (message id -1) no message is taken for a registry notification. */
  lemma UnregisteredBarTakesNoNotification(msg: int, wParam: int, mode: AppBarMode, runningAsShell: bool, allowClose: bool)
    ensures Dispatch(msg, wParam, -1, mode, runningAsShell, allowClose) != AppBarNotification
  {
  }

  /** WM_WINDOWPOSCHANGING: the insert-after handle is forced to topmost only while raising and when the z-order is changing. */
  predicate ForcesTopmost(isRaising: bool, flags: bv32)
  {
    isRaising && flags & SWP_NOZORDER == 0
  }

  // ---------------------------------------------------------------------------
  // Full-screen coexistence

  /** A full-screen entry this bar must yield to: on the bar's own monitor, or spanning the virtual screen. */
  predicate ConflictsWith(app: FullScreen.FullScreenApp, deviceName: string)
  {
    app.screen.deviceName == deviceName || app.screen.isVirtualScreen
  }

  predicate AnyConflict(apps: seq<FullScreen.FullScreenApp>, deviceName: string)
  {
    exists k :: 0 <= k < |apps| && ConflictsWith(apps[k], deviceName)
  }

  datatype FullScreenReaction = Concede | Reclaim | NoChange

  /** setFullScreenMode's trigger: concede when a conflict appears while topmost, reclaim when none remains while not topmost. */
  function Reaction(found: bool, topmost: bool): (r: FullScreenReaction)
    ensures r == Concede <==> found && topmost
    ensures r == Reclaim <==> !found && !topmost
  {
    if found && topmost then Concede
    else if !found && !topmost then Reclaim
    else NoChange
  }

  /** After the reaction the bar is topmost exactly when nothing conflicts, whatever it was before. */
  lemma ReactionSettlesTopmost(found: bool, topmost: bool)
    ensures var r := Reaction(found, topmost);
            (match r
             case Concede => false
             case Reclaim => true
             case NoChange => topmost) == !found
  {
  }

  /** Topmost after one reaction to a collection state. */
  function TopmostAfter(found: bool, topmost: bool): bool
  {
    match Reaction(found, topmost)
    case Concede => false
    case Reclaim => true
    case NoChange => topmost
  }

  /**
   * Topmost after the CollectionChanged handler has run once per collection
   * state, in order (the collection raises one event per Remove and per Add).
   */
  function TopmostAfterEach(topmost: bool, states: seq<seq<FullScreen.FullScreenApp>>, deviceName: string): bool
    decreases |states|
  {
    if states == [] then topmost
    else TopmostAfterEach(TopmostAfter(AnyConflict(states[0], deviceName), topmost), states[1..], deviceName)
  }

  /**
   * However many events a tick raises, the bar ends topmost exactly when the
   * last collection state has no conflicting entry: one run of the handler on
   * the final collection settles Topmost the same way.
   */
  lemma {:induction false} LastStateDecidesTopmost(topmost: bool, states: seq<seq<FullScreen.FullScreenApp>>, deviceName: string)
    requires states != []
    ensures TopmostAfterEach(topmost, states, deviceName) == !AnyConflict(states[|states| - 1], deviceName)
    ensures TopmostAfterEach(topmost, states, deviceName) == TopmostAfter(AnyConflict(states[|states| - 1], deviceName), topmost)
    decreases |states|
  {
    var next := TopmostAfter(AnyConflict(states[0], deviceName), topmost);
    ReactionSettlesTopmost(AnyConflict(states[0], deviceName), topmost);
    ReactionSettlesTopmost(AnyConflict(states[|states| - 1], deviceName), topmost);
    if |states| > 1 {
      LastStateDecidesTopmost(next, states[1..], deviceName);
      assert states[1..][|states[1..]| - 1] == states[|states| - 1];
    }
  }

  /**
   * The calls are not the same, though: a bar that conceded to `gone`, when a
   * tick removes `gone` and adds `arrived` on the same monitor, is raised after
   * the removal and lowered again after the addition, where one run on the
   * final collection would do nothing.
   */
  lemma ReplacedEntryRaisesThenLowers(gone: FullScreen.FullScreenApp, arrived: FullScreen.FullScreenApp, deviceName: string)
    requires ConflictsWith(gone, deviceName) && ConflictsWith(arrived, deviceName)
    ensures !TopmostAfter(AnyConflict([gone], deviceName), true)
    ensures Reaction(AnyConflict([], deviceName), false) == Reclaim
    ensures Reaction(AnyConflict([arrived], deviceName), TopmostAfter(AnyConflict([], deviceName), false)) == Concede
    ensures Reaction(AnyConflict([arrived], deviceName), false) == NoChange
  {
    assert ConflictsWith([gone][0], deviceName);
    assert ConflictsWith([arrived][0], deviceName);
  }
}
