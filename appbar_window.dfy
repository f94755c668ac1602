/**
 * The docking window (AppBarWindow) as a state machine over its own fields,
 * driving an abstract docking registry (AppBarManager), the process-wide DPI
 * scale, and the full-screen tracker's monitor cache.
 *
 * Native calls are recorded, not performed: every SetWindowPos the window issues
 * is appended to `windowCalls`, every registry request to the registry's
 * `calls`, every property-changed event to `notifications`, and every 100 ms
 * one-shot timer to `scheduled`.
 */
module AppBar {
  import opened Common
  import opened PropertyNotify
  import opened AppBarRules
  import FullScreen
  import WindowHelper

  /** A request the window makes of the docking registry, tagged with the bar's window handle. */
  datatype RegistryCall =
    | RegisterBarCall(bar: Hwnd, width: real, height: real, edge: Option<AppBarEdge>)
    | SetPosCall(bar: Hwnd, width: real, height: real, side: AppBarEdge)
    | RegisterAutoHideCall(bar: Hwnd)
    | UnregisterAutoHideCall(bar: Hwnd)
    | ActivateCall(hwnd: Hwnd)
    | PosChangedCall(hwnd: Hwnd)
    | WorkAreaCall(screen: ScreenInfo)

  /** A one-shot 100 ms timer and what it runs when it fires. */
  datatype Deferred = DeferredSetPosition | DeferredAppBarPosition(rect: Rect)

  /**
   * The docking registry, as far as the window relies on it: the set of bars
   * holding a position reservation, the set of auto-hide bars, and the log of
   * requests. A RegisterBar call with an edge reserves, one without releases.
   */
  class AppBarManager {
    var appBars: set<AppBarWindow>
    var autoHideBars: set<AppBarWindow>
    var calls: seq<RegistryCall>
    /** The callback message identifier the registry hands to registered bars. */
    const messageId: int
    /** GetAppBarEdgeWindowsHeight: the thickness other bars already reserve on an edge of a screen. */
    const reservedThickness: (AppBarEdge, ScreenInfo) -> real

    constructor (messageId: int, reservedThickness: (AppBarEdge, ScreenInfo) -> real)
      ensures appBars == {} && autoHideBars == {} && calls == []
      ensures this.messageId == messageId && this.reservedThickness == reservedThickness
    {
      appBars := {};
      autoHideBars := {};
      calls := [];
      this.messageId := messageId;
      this.reservedThickness := reservedThickness;
    }

    method RegisterBar(bar: AppBarWindow, width: real, height: real, edge: Option<AppBarEdge>) returns (id: int)
      modifies this`appBars, this`calls
      ensures appBars == if edge.Some? then old(appBars) + {bar} else old(appBars) - {bar}
      ensures calls == old(calls) + [RegisterBarCall(bar.handle, width, height, edge)]
      ensures id == messageId
    {
      if edge.Some? {
        appBars := appBars + {bar};
      } else {
        appBars := appBars - {bar};
      }
      calls := calls + [RegisterBarCall(bar.handle, width, height, edge)];
      id := messageId;
    }

    method RegisterAutoHideBar(bar: AppBarWindow)
      modifies this`autoHideBars, this`calls
      ensures autoHideBars == old(autoHideBars) + {bar}
      ensures calls == old(calls) + [RegisterAutoHideCall(bar.handle)]
    {
      autoHideBars := autoHideBars + {bar};
      calls := calls + [RegisterAutoHideCall(bar.handle)];
    }

    method UnregisterAutoHideBar(bar: AppBarWindow)
      modifies this`autoHideBars, this`calls
      ensures autoHideBars == old(autoHideBars) - {bar}
      ensures calls == old(calls) + [UnregisterAutoHideCall(bar.handle)]
    {
      autoHideBars := autoHideBars - {bar};
      calls := calls + [UnregisterAutoHideCall(bar.handle)];
    }

    /** A request recorded without a change to the reservation sets. */
    method Log(call: RegistryCall)
      modifies this`calls
      ensures calls == old(calls) + [call]
    {
      calls := calls + [call];
    }
  }

  /** DpiHelper.DpiScale: the process-wide scale factor. */
  class SystemDpi {
    var dpiScale: real

    constructor (dpiScale: real)
      ensures this.dpiScale == dpiScale
    {
      this.dpiScale := dpiScale;
    }
  }

  /** The WINDOWPOS structure a WM_WINDOWPOSCHANGING message points to; the handler may rewrite it in place. */
  class WindowPosRecord {
    var hwndInsertAfter: Hwnd
    var flags: bv32

    constructor (hwndInsertAfter: Hwnd, flags: bv32)
      ensures this.hwndInsertAfter == hwndInsertAfter && this.flags == flags
    {
      this.hwndInsertAfter := hwndInsertAfter;
      this.flags := flags;
    }
  }

  /**
   * The constructor's assignments to AppBarEdge (which derives the orientation)
   * and AppBarMode, through their setters, from the defaults Left, Vertical and
   * Normal: the values stored and the notifications raised, in order.
   */
  method InitialEdgeAndMode(edge: AppBarEdge, mode: AppBarMode)
    returns (storedEdge: AppBarEdge, storedOrientation: Orientation, storedMode: AppBarMode, names: seq<string>)
    ensures storedEdge == edge && storedOrientation == OrientationOf(edge) && storedMode == mode
    ensures names ==
              (if edge != Left then ["AppBarEdge"] else []) +
              (if OrientationOf(edge) != Vertical then ["Orientation"] else []) +
              (if mode != Normal then ["AppBarMode"] else [])
  {
    var edgeSet := SetProperty(Left, edge, Some("AppBarEdge"), false);
    var orientationSet := SetProperty(Vertical, OrientationOf(edge), Some("Orientation"), false);
    var modeSet := SetProperty(Normal, mode, Some("AppBarMode"), false);
    storedEdge, storedOrientation, storedMode := edgeSet.field, orientationSet.field, modeSet.field;
    names := Names(edgeSet.effects) + Names(orientationSet.effects) + Names(modeSet.effects);
  }

  class AppBarWindow {
    const manager: AppBarManager
    const fullScreen: FullScreen.FullScreenHelper
    const systemDpi: SystemDpi
    /** EnvironmentHelper.IsAppRunningAsShell. */
    const runningAsShell: bool

    var screen: ScreenInfo
    var processScreenChanges: bool
    var dpiScale: real
    var isRaising: bool
    var handle: Hwnd
    var allowClose: bool
    var isClosing: bool
    var isOpening: bool
    var desiredHeight: real
    var desiredWidth: real
    var appBarMessageId: int
    var edge: AppBarEdge
    var mode: AppBarMode
    var requiresScreenEdge: bool
    var orientation: Orientation
    /** Window.Topmost. */
    var topmost: bool
    /** Window.Visibility is Visible (a window starts hidden until it is shown; showing is not modelled). */
    var visible: bool
    /** The extended window style bits. */
    var exStyle: bv32
    /** The rendered size WPF reports (ActualWidth, ActualHeight). */
    var actualWidth: real
    var actualHeight: real
    /** Whether the CollectionChanged handler is attached to the full-screen collection. */
    var subscribed: bool

    var notifications: seq<string>
    var windowCalls: seq<WindowPosCall>
    var scheduled: seq<Deferred>

    /** The bar holds exactly the registrations its mode calls for. */
    predicate RegistrationMatchesMode()
      reads this, manager
    {
      (this in manager.appBars <==> mode == Normal) && (this in manager.autoHideBars <==> mode == AutoHide)
    }

    /** The registry size of this bar in its current state. */
    function Size(): (real, real)
      reads this`orientation, this`desiredWidth, this`desiredHeight, this`actualWidth, this`actualHeight, this`dpiScale
    {
      RegistrySize(orientation, desiredWidth, desiredHeight, actualWidth, actualHeight, dpiScale)
    }

    /** The rectangle SetPosition computes in the current state. */
    function Placement(): BarPlacement
      reads this`orientation, this`edge, this`screen, this`desiredWidth, this`desiredHeight, this`dpiScale, this`requiresScreenEdge
    {
      BarGeometry(orientation, edge, screen.bounds, desiredWidth, desiredHeight, dpiScale,
                  EdgeOffset(requiresScreenEdge, manager.reservedThickness(edge, screen)))
    }

    /** The RegisterBar request RegisterAppBar sends in Normal mode: none when the edge is already reserved. */
    function ReserveCalls(wasReserved: bool): seq<RegistryCall>
      reads this`handle, this`edge, this`orientation, this`desiredWidth, this`desiredHeight,
            this`actualWidth, this`actualHeight, this`dpiScale
    {
      if wasReserved then [] else [RegisterBarCall(handle, Size().0, Size().1, Some(edge))]
    }

    /** The edgeless RegisterBar request UnregisterAppBar sends: none when nothing is reserved. */
    function ReleaseCalls(wasReserved: bool): seq<RegistryCall>
      reads this`handle, this`orientation, this`desiredWidth, this`desiredHeight,
            this`actualWidth, this`actualHeight, this`dpiScale
    {
      if wasReserved then [RegisterBarCall(handle, Size().0, Size().1, None)] else []
    }

    /**
     * What the PropertyChanged handler does to the registry after a change of
     * mode: reserve or release the edge, then join or leave the auto-hide set.
     * Other bars' registrations are untouched, and a fresh reservation's message
     * identifier is kept.
     */
    twostate predicate ModeApplied()
      reads this, manager
    {
      manager.appBars == (if mode == Normal then old(manager.appBars) + {this} else old(manager.appBars) - {this}) &&
      manager.autoHideBars ==
        (if mode == AutoHide then old(manager.autoHideBars) + {this} else old(manager.autoHideBars) - {this}) &&
      manager.calls == old(manager.calls) +
        (if mode == Normal then ReserveCalls(old(this in manager.appBars)) else ReleaseCalls(old(this in manager.appBars))) +
        [if mode == AutoHide then RegisterAutoHideCall(handle) else UnregisterAutoHideCall(handle)] &&
      appBarMessageId ==
        (if mode == Normal && old(this !in manager.appBars) then manager.messageId else old(appBarMessageId))
    }

    /** The registry requests of OnSourceInitialized's registration step. */
    function ModeRegistrationCalls(wasReserved: bool): seq<RegistryCall>
      reads this`mode, this`handle, this`edge, this`orientation, this`desiredWidth, this`desiredHeight,
            this`actualWidth, this`actualHeight, this`dpiScale
    {
      if mode == Normal then ReserveCalls(wasReserved)
      else if mode == AutoHide then [RegisterAutoHideCall(handle)]
      else []
    }

    /**
     * What OnSourceInitialized's registration step does to the registry sets and
     * the message identifier: Normal reserves, AutoHide joins the auto-hide set,
     * Unreserved changes nothing; other bars are untouched.
     */
    twostate predicate RegisteredForMode()
      reads this, manager
    {
      manager.appBars == (if mode == Normal then old(manager.appBars) + {this} else old(manager.appBars)) &&
      manager.autoHideBars == (if mode == AutoHide then old(manager.autoHideBars) + {this} else old(manager.autoHideBars)) &&
      appBarMessageId ==
        (if mode == Normal && old(this !in manager.appBars) then manager.messageId else old(appBarMessageId))
    }

    /**
     * The window starts opening, topmost and unregistered. The edge and mode go
     * through their notifying setters (the mode handler does nothing while opening),
     * and the given size becomes the desired thickness across the edge.
     */
    constructor (manager: AppBarManager, fullScreen: FullScreen.FullScreenHelper, systemDpi: SystemDpi,
                 screen: ScreenInfo, edge: AppBarEdge, mode: AppBarMode, size: real, runningAsShell: bool)
      ensures this.manager == manager && this.fullScreen == fullScreen && this.systemDpi == systemDpi
      ensures this.runningAsShell == runningAsShell && this.screen == screen
      ensures this.edge == edge && orientation == OrientationOf(edge) && this.mode == mode
      ensures isOpening && !isClosing && !allowClose && !isRaising && topmost && processScreenChanges
      ensures appBarMessageId == -1 && dpiScale == 1.0 && !subscribed
      ensures orientation == Vertical ==> desiredWidth == size && desiredHeight == 0.0
      ensures orientation == Horizontal ==> desiredHeight == size && desiredWidth == 0.0
      ensures notifications ==
                (if edge != Left then ["AppBarEdge"] else []) +
                (if OrientationOf(edge) != Vertical then ["Orientation"] else []) +
                (if mode != Normal then ["AppBarMode"] else [])
      ensures windowCalls == [] && scheduled == []
      ensures !requiresScreenEdge && handle == NullHwnd && !visible && exStyle == 0
      ensures actualWidth == 0.0 && actualHeight == 0.0
    {
      this.manager := manager;
      this.fullScreen := fullScreen;
      this.systemDpi := systemDpi;
      this.runningAsShell := runningAsShell;
      this.screen := screen;
      processScreenChanges := true;
      dpiScale := 1.0;
      isRaising := false;
      handle := NullHwnd;
      allowClose := false;
      isClosing := false;
      isOpening := true;
      appBarMessageId := -1;
      requiresScreenEdge := false;
      topmost := true;
      visible := false;
      exStyle := 0;
      actualWidth := 0.0;
      actualHeight := 0.0;
      subscribed := false;
      windowCalls := [];
      scheduled := [];
      // the PropertyChanged handler returns at once, as IsOpening holds
      var storedEdge, storedOrientation, storedMode, names := InitialEdgeAndMode(edge, mode);
      this.edge := storedEdge;
      orientation := storedOrientation;
      this.mode := storedMode;
      notifications := names;
      if storedOrientation == Vertical {
        desiredWidth := size;
        desiredHeight := 0.0;
      } else {
        desiredHeight := size;
        desiredWidth := 0.0;
      }
    }

    // -------------------------------------------------------------------------
    // Properties

    /**
     * The AppBarEdge setter: store the edge, then derive the orientation through
     * the Orientation setter. The PropertyChanged handler ignores both names, so
     * the registry is not told about an edge change.
     */
    method SetAppBarEdge(value: AppBarEdge)
      modifies this`edge, this`orientation, this`notifications
      ensures edge == value && orientation == OrientationOf(value)
      ensures notifications == old(notifications) +
                (if old(edge) != value then ["AppBarEdge"] else []) +
                (if old(orientation) != OrientationOf(value) then ["Orientation"] else [])
    {
      var r := SetProperty(edge, value, Some("AppBarEdge"), false);
      edge := r.field;
      notifications := notifications + Names(r.effects);
      SetOrientation(if value == Left || value == Right then Vertical else Horizontal);
    }

    /** The Orientation setter. */
    method SetOrientation(value: Orientation)
      modifies this`orientation, this`notifications
      ensures orientation == value
      ensures notifications == old(notifications) + (if old(orientation) != value then ["Orientation"] else [])
    {
      var r := SetProperty(orientation, value, Some("Orientation"), false);
      orientation := r.field;
      notifications := notifications + Names(r.effects);
    }

    /** The DpiScale setter. */
    method SetDpiScale(value: real)
      modifies this`dpiScale, this`notifications
      ensures dpiScale == value
      ensures notifications == old(notifications) + (if old(dpiScale) != value then ["DpiScale"] else [])
    {
      var r := SetProperty(dpiScale, value, Some("DpiScale"), false);
      dpiScale := r.field;
      notifications := notifications + Names(r.effects);
    }

    /** The AppBarMode setter: a change raises PropertyChanged, which the handler below reacts to. */
    method SetAppBarMode(value: AppBarMode)
      modifies this`mode, this`notifications, this`appBarMessageId, manager`appBars, manager`autoHideBars, manager`calls
      ensures mode == value
      ensures notifications == old(notifications) + (if old(mode) != value then ["AppBarMode"] else [])
      ensures old(mode) == value || isOpening ==>
                manager.appBars == old(manager.appBars) && manager.autoHideBars == old(manager.autoHideBars) &&
                manager.calls == old(manager.calls) && appBarMessageId == old(appBarMessageId)
      ensures old(mode) != value && !isOpening ==> RegistrationMatchesMode() && ModeApplied()
      ensures !isOpening && old(RegistrationMatchesMode()) ==> RegistrationMatchesMode()
      ensures manager.appBars - {this} == old(manager.appBars) - {this}
      ensures manager.autoHideBars - {this} == old(manager.autoHideBars) - {this}
      ensures isOpening == old(isOpening) && edge == old(edge) && orientation == old(orientation)
    {
      var r := SetProperty(mode, value, Some("AppBarMode"), false);
      mode := r.field;
      notifications := notifications + Names(r.effects);
      if r.changed {
        AppBarPropertyChanged("AppBarMode");
      }
    }

    /**
     * AppBarWindow_PropertyChanged: nothing while opening; on a mode change,
     * reserve exactly in Normal mode and register as auto-hide exactly in
     * AutoHide mode. Other property names are ignored.
     */
    method AppBarPropertyChanged(propertyName: string)
      modifies this`appBarMessageId, manager`appBars, manager`autoHideBars, manager`calls
      ensures isOpening || propertyName != "AppBarMode" ==>
                manager.appBars == old(manager.appBars) && manager.autoHideBars == old(manager.autoHideBars) &&
                manager.calls == old(manager.calls) && appBarMessageId == old(appBarMessageId)
      ensures !isOpening && propertyName == "AppBarMode" ==> RegistrationMatchesMode() && ModeApplied()
      ensures manager.appBars - {this} == old(manager.appBars) - {this}
      ensures manager.autoHideBars - {this} == old(manager.autoHideBars) - {this}
    {
      if isOpening {
        return;
      }
      if propertyName == "AppBarMode" {
        if mode == Normal {
          RegisterAppBar();
        } else {
          UnregisterAppBar();
        }
        if mode == AutoHide {
          manager.RegisterAutoHideBar(this);
        } else {
          manager.UnregisterAutoHideBar(this);
        }
      }
    }

    // -------------------------------------------------------------------------
    // Registration

    /**
     * RegisterAppBar: a no-op unless the mode is Normal and the bar is not yet
     * reserved; otherwise one RegisterBar call with the edge, whose message
     * identifier the bar keeps.
     */
    method RegisterAppBar()
      modifies this`appBarMessageId, manager`appBars, manager`calls
      ensures old(mode != Normal || this in manager.appBars) ==>
                manager.appBars == old(manager.appBars) && manager.calls == old(manager.calls) &&
                appBarMessageId == old(appBarMessageId)
      ensures old(mode == Normal && this !in manager.appBars) ==>
                manager.appBars == old(manager.appBars) + {this} &&
                manager.calls == old(manager.calls) + [RegisterBarCall(handle, Size().0, Size().1, Some(edge))] &&
                appBarMessageId == manager.messageId
      ensures mode == Normal ==> this in manager.appBars
    {
      if mode != Normal || this in manager.appBars {
        return;
      }
      var size := RegistrySize(orientation, desiredWidth, desiredHeight, actualWidth, actualHeight, dpiScale);
      appBarMessageId := manager.RegisterBar(this, size.0, size.1, Some(edge));
    }

    /** UnregisterAppBar: a no-op unless the bar is reserved; otherwise one RegisterBar call without an edge. */
    method UnregisterAppBar()
      modifies manager`appBars, manager`calls
      ensures manager.appBars == old(manager.appBars) - {this}
      ensures old(this !in manager.appBars) ==> manager.calls == old(manager.calls)
      ensures old(this in manager.appBars) ==>
                manager.calls == old(manager.calls) + [RegisterBarCall(handle, Size().0, Size().1, None)]
    {
      if this !in manager.appBars {
        return;
      }
      var size := RegistrySize(orientation, desiredWidth, desiredHeight, actualWidth, actualHeight, dpiScale);
      var _ := manager.RegisterBar(this, size.0, size.1, None);
    }

    // -------------------------------------------------------------------------
    // Lifecycle

    /**
     * OnSourceInitialized: take the handle, adopt the system DPI (refreshing it
     * from the rendering transform on the primary monitor), position the bar,
     * schedule a second positioning when running as the shell, register by mode,
     * hide from the task list, subscribe to full-screen changes, and end opening.
     */
    method OnSourceInitialized(hwnd: Hwnd, transformToDevice: real)
      modifies this`handle, this`dpiScale, this`notifications, this`windowCalls, this`scheduled,
               this`appBarMessageId, this`exStyle, this`subscribed, this`isOpening,
               manager`appBars, manager`autoHideBars, manager`calls, systemDpi`dpiScale
      ensures handle == hwnd && !isOpening && subscribed
      ensures systemDpi.dpiScale == (if old(screen.primary) then transformToDevice else old(systemDpi.dpiScale))
      ensures dpiScale == systemDpi.dpiScale
      ensures exStyle == old(exStyle) | WS_EX_TOOLWINDOW
      ensures windowCalls == old(windowCalls) + [PositionCall(hwnd, Placement())]
      ensures scheduled == old(scheduled) + (if runningAsShell then [DeferredSetPosition] else [])
      ensures mode == Normal ==> this in manager.appBars
      ensures mode == AutoHide ==> this in manager.autoHideBars
      ensures old(this !in manager.appBars && this !in manager.autoHideBars) ==> RegistrationMatchesMode()
      ensures notifications == old(notifications) + (if old(dpiScale) != dpiScale then ["DpiScale"] else [])
      ensures manager.calls == old(manager.calls) + (if runningAsShell then [WorkAreaCall(screen)] else []) +
                ModeRegistrationCalls(old(this in manager.appBars))
      ensures RegisteredForMode()
    {
      InitialPlacement(hwnd, transformToDevice);
      RegisterForMode();
      HideFromTasks();
      subscribed := true;
      isOpening := false;
    }

    /** The first half of OnSourceInitialized: take the handle, settle the DPI scale, and position the bar. */
    method InitialPlacement(hwnd: Hwnd, transformToDevice: real)
      modifies this`handle, this`dpiScale, this`notifications, this`windowCalls, this`scheduled,
               manager`calls, systemDpi`dpiScale
      ensures handle == hwnd
      ensures systemDpi.dpiScale == (if screen.primary then transformToDevice else old(systemDpi.dpiScale))
      ensures dpiScale == systemDpi.dpiScale
      ensures windowCalls == old(windowCalls) + [PositionCall(hwnd, Placement())]
      ensures scheduled == old(scheduled) + (if runningAsShell then [DeferredSetPosition] else [])
      ensures manager.calls == old(manager.calls) + (if runningAsShell then [WorkAreaCall(screen)] else [])
      ensures notifications == old(notifications) + (if old(dpiScale) != dpiScale then ["DpiScale"] else [])
    {
      handle := hwnd;
      if screen.primary {
        // the rendering transform gives the current DPI of the primary monitor
        systemDpi.dpiScale := transformToDevice;
      }
      SetDpiScale(systemDpi.dpiScale);
      SetPosition();
      if runningAsShell {
        // position again after a delay, in case another monitor has a different DPI
        DelaySetPosition();
      }
    }

    /** WindowHelper.HideWindowFromTasks applied to this window: keep it out of Alt+Tab and the taskbar. */
    method HideFromTasks()
      modifies this`exStyle
      ensures exStyle == old(exStyle) | WS_EX_TOOLWINDOW
    {
      exStyle := WindowHelper.HideWindowFromTasks(exStyle);
    }

    /** The registration step of OnSourceInitialized: reserve in Normal mode, register as auto-hide in AutoHide mode. */
    method RegisterForMode()
      modifies this`appBarMessageId, manager`appBars, manager`autoHideBars, manager`calls
      ensures mode == Normal ==> this in manager.appBars
      ensures mode == AutoHide ==> this in manager.autoHideBars
      ensures old(this !in manager.appBars && this !in manager.autoHideBars) ==> RegistrationMatchesMode()
      ensures manager.calls == old(manager.calls) + ModeRegistrationCalls(old(this in manager.appBars))
      ensures RegisteredForMode()
    {
      if mode == Normal {
        RegisterAppBar();
      } else if mode == AutoHide {
        manager.RegisterAutoHideBar(this);
      }
    }

    /**
     * OnClosing, the two-phase close: mark closing and run the cleanup hook
     * (whose only modelled effect is the AllowClose value it leaves). If closing
     * is then allowed, release both registrations and the full-screen
     * subscription; otherwise clear the closing mark and cancel the close.
     */
    method OnClosing(allowCloseAfterHook: bool) returns (cancel: bool)
      modifies this`isClosing, this`allowClose, this`subscribed, manager`appBars, manager`autoHideBars, manager`calls
      ensures allowClose == allowCloseAfterHook
      ensures cancel <==> !allowClose
      ensures cancel ==>
                !isClosing && subscribed == old(subscribed) &&
                manager.appBars == old(manager.appBars) && manager.autoHideBars == old(manager.autoHideBars) &&
                manager.calls == old(manager.calls)
      ensures !cancel ==>
                isClosing && !subscribed && this !in manager.appBars && this !in manager.autoHideBars &&
                manager.appBars == old(manager.appBars) - {this} && manager.autoHideBars == old(manager.autoHideBars) - {this} &&
                manager.calls == old(manager.calls) + ReleaseCalls(old(this in manager.appBars)) + [UnregisterAutoHideCall(handle)]
    {
      isClosing := true;
      allowClose := allowCloseAfterHook;
      if allowClose {
        UnregisterAppBar();
        manager.UnregisterAutoHideBar(this);
        subscribed := false;
        cancel := false;
      } else {
        isClosing := false;
        cancel := true;
      }
    }

    // -------------------------------------------------------------------------
    // Full-screen coexistence

    /**
     * FullScreenApps_CollectionChanged: look for an entry on this bar's monitor or
     * on the virtual screen; concede when one exists and the bar is topmost,
     * reclaim when none exists and it is not. Either way the bar ends topmost
     * exactly when no such entry exists.
     */
    method OnFullScreenAppsChanged()
      modifies this`topmost, this`isRaising, this`windowCalls
      ensures topmost <==> !AnyConflict(fullScreen.apps, screen.deviceName)
      ensures var r := Reaction(AnyConflict(fullScreen.apps, screen.deviceName), old(topmost));
              windowCalls == old(windowCalls) +
                (match r
                 case Concede => [WindowHelper.ShowWindowBottomMost(handle)]
                 case Reclaim => [WindowHelper.ShowWindowTopMost(handle)]
                 case NoChange => []) &&
              isRaising == (if r == Reclaim then false else old(isRaising))
    {
      var apps := fullScreen.apps;
      var found := false;
      var i := 0;
      while i < |apps|
        invariant 0 <= i <= |apps|
        invariant !found
        invariant forall k :: 0 <= k < i ==> !ConflictsWith(apps[k], screen.deviceName)
      {
        if apps[i].screen.deviceName == screen.deviceName || apps[i].screen.isVirtualScreen {
          // the bar must not be on top now
          found := true;
          break;
        }
        i := i + 1;
      }
      if found && topmost {
        SetFullScreenMode(true);
      } else if !found && !topmost {
        SetFullScreenMode(false);
      }
    }

    /** setFullScreenMode: concede (not topmost, moved to the bottom) or reclaim (raised to topmost, with IsRaising set only around the move). */
    method SetFullScreenMode(entering: bool)
      modifies this`topmost, this`isRaising, this`windowCalls
      ensures topmost == !entering
      ensures entering ==> windowCalls == old(windowCalls) + [WindowHelper.ShowWindowBottomMost(handle)] && isRaising == old(isRaising)
      ensures !entering ==> windowCalls == old(windowCalls) + [WindowHelper.ShowWindowTopMost(handle)] && !isRaising
    {
      if entering {
        topmost := false;
        windowCalls := windowCalls + [WindowHelper.ShowWindowBottomMost(handle)];
      } else {
        isRaising := true;
        topmost := true;
        windowCalls := windowCalls + [WindowHelper.ShowWindowTopMost(handle)];
        isRaising := false;
      }
    }

    // -------------------------------------------------------------------------
    // Window messages

    /** The WndProc branch a message takes in the bar's current state. */
    function Branch(msg: int, wParam: int): MessageBranch
      reads this`appBarMessageId, this`mode, this`allowClose
    {
      Dispatch(msg, wParam, appBarMessageId, mode, runningAsShell, allowClose)
    }

    /**
     * WndProc: route the message to the first branch whose guard holds; each
     * branch has exactly its handler's effect, and every other branch leaves the
     * state that handler would change alone.
     */
    method WndProc(hwnd: Hwnd, msg: int, wParam: int, lParam: int, pos: WindowPosRecord, handledIn: bool, primaryScreen: ScreenInfo)
      returns (result: int, handled: bool)
      modifies this`visible, this`dpiScale, this`notifications, this`screen, this`scheduled,
               manager`calls, pos`hwndInsertAfter, systemDpi`dpiScale, fullScreen`screenCache
      ensures result == 0
      ensures handled == (handledIn || MarksHandled(Branch(msg, wParam)))
      // the registry's own notification
      ensures Branch(msg, wParam) == AppBarNotification ==>
                manager.calls == old(manager.calls) + (if wParam == ABN_POSCHANGED then [SetPosCall(handle, Size().0, Size().1, edge)] else []) &&
                visible == (if wParam == ABN_WINDOWARRANGE then lParam == 0 else old(visible))
      ensures Branch(msg, wParam) != AppBarNotification ==> visible == old(visible)
      // activation and position changes forwarded to the registry
      ensures Branch(msg, wParam) == ActivateBar ==> manager.calls == old(manager.calls) + [ActivateCall(hwnd)]
      ensures Branch(msg, wParam) == PositionChanged ==> manager.calls == old(manager.calls) + [PosChangedCall(hwnd)]
      // WM_WINDOWPOSCHANGING rewrites the record in place
      ensures Branch(msg, wParam) == PositionChanging ==>
                pos.hwndInsertAfter == (if ForcesTopmost(old(isRaising), old(pos.flags)) then HWND_TOPMOST else old(pos.hwndInsertAfter))
      ensures Branch(msg, wParam) != PositionChanging ==> pos.hwndInsertAfter == old(pos.hwndInsertAfter)
      // WM_DPICHANGED
      ensures Branch(msg, wParam) == DpiChanged ==>
                dpiScale == DpiFromMessage(wParam) &&
                notifications == old(notifications) + (if old(dpiScale) != DpiFromMessage(wParam) then ["DpiScale"] else []) &&
                systemDpi.dpiScale == (if old(screen).primary then dpiScale else old(systemDpi.dpiScale)) &&
                screen == old(screen)
      ensures Branch(msg, wParam) == DpiChanged && (isOpening || allowClose) ==>
                fullScreen.screenCache == old(fullScreen.screenCache) && scheduled == old(scheduled) &&
                manager.calls == old(manager.calls)
      ensures Branch(msg, wParam) == DpiChanged && !isOpening && !allowClose ==>
                fullScreen.screenCache == None && Repositioned()
      ensures Branch(msg, wParam) != DpiChanged ==>
                dpiScale == old(dpiScale) && notifications == old(notifications) && systemDpi.dpiScale == old(systemDpi.dpiScale)
      // WM_DISPLAYCHANGE, WM_DEVICECHANGE and WM_DWMCOMPOSITIONCHANGED
      ensures Branch(msg, wParam).ScreenChanged? &&
              ProcessesScreenChange(old(screen).primary, processScreenChanges, allowClose, Branch(msg, wParam).reason) ==>
                fullScreen.screenCache == None &&
                screen == ScreenAfterSetup(old(screen), Branch(msg, wParam).reason, primaryScreen) &&
                Repositioned()
      ensures Branch(msg, wParam).ScreenChanged? &&
              !ProcessesScreenChange(old(screen).primary, processScreenChanges, allowClose, Branch(msg, wParam).reason) ==>
                fullScreen.screenCache == old(fullScreen.screenCache) && screen == old(screen) &&
                scheduled == old(scheduled) && manager.calls == old(manager.calls)
      // every other branch leaves the screen state and the registry log alone
      ensures Branch(msg, wParam) != DpiChanged && !Branch(msg, wParam).ScreenChanged? ==>
                screen == old(screen) && scheduled == old(scheduled) && fullScreen.screenCache == old(fullScreen.screenCache)
      ensures Branch(msg, wParam) == PositionChanging || Branch(msg, wParam) == Ignored ==> manager.calls == old(manager.calls)
    {
      var branch := Branch(msg, wParam);
      handled := handledIn;
      match branch {
        case AppBarNotification =>
          OnAppBarNotification(wParam, lParam);
          handled := true;
        case ActivateBar =>
          manager.Log(ActivateCall(hwnd));
        case PositionChanging =>
          OnWindowPosChanging(pos);
        case PositionChanged =>
          manager.Log(PosChangedCall(hwnd));
        case DpiChanged =>
          OnDpiChanged(wParam, primaryScreen);
        case ScreenChanged(reason) =>
          ProcessScreenChange(reason, primaryScreen);
          handled := true;
        case Ignored =>
      }
      result := 0;
    }

    /**
     * The registry's own callback message: on a position change, ask the registry
     * to place the bar at its current size; around a window arrangement, hide
     * the bar before it and show it after.
     */
    method OnAppBarNotification(wParam: int, lParam: int)
      modifies this`visible, manager`calls
      ensures wParam == ABN_POSCHANGED ==>
                manager.calls == old(manager.calls) + [SetPosCall(handle, Size().0, Size().1, edge)] && visible == old(visible)
      ensures wParam == ABN_WINDOWARRANGE ==> visible == (lParam == 0) && manager.calls == old(manager.calls)
      ensures wParam != ABN_POSCHANGED && wParam != ABN_WINDOWARRANGE ==>
                visible == old(visible) && manager.calls == old(manager.calls)
    {
      if wParam == ABN_POSCHANGED {
        var size := RegistrySize(orientation, desiredWidth, desiredHeight, actualWidth, actualHeight, dpiScale);
        manager.Log(SetPosCall(handle, size.0, size.1, edge));
      } else if wParam == ABN_WINDOWARRANGE {
        if lParam != 0 {
          // before the arrangement
          visible := false;
        } else {
          // after it
          visible := true;
        }
      }
    }

    /**
     * WM_WINDOWPOSCHANGING: while the bar is raising itself and the z-order is
     * changing, force the insert-after handle to topmost; otherwise leave the
     * record as it is.
     */
    method OnWindowPosChanging(pos: WindowPosRecord)
      modifies pos`hwndInsertAfter
      ensures pos.hwndInsertAfter == if ForcesTopmost(isRaising, pos.flags) then HWND_TOPMOST else old(pos.hwndInsertAfter)
    {
      if isRaising && pos.flags & SWP_NOZORDER == 0 {
        pos.hwndInsertAfter := HWND_TOPMOST;
      }
    }

    /**
     * WM_DPICHANGED: store the scale the message carries, share it process-wide
     * from the primary monitor, and reprocess the screen unless still opening.
     */
    method OnDpiChanged(wParam: int, primaryScreen: ScreenInfo)
      modifies this`dpiScale, this`notifications, this`screen, this`scheduled, systemDpi`dpiScale, fullScreen`screenCache, manager`calls
      ensures dpiScale == DpiFromMessage(wParam)
      ensures notifications == old(notifications) + (if old(dpiScale) != DpiFromMessage(wParam) then ["DpiScale"] else [])
      ensures systemDpi.dpiScale == if screen.primary then dpiScale else old(systemDpi.dpiScale)
      ensures screen == old(screen)
      ensures isOpening || allowClose ==>
                fullScreen.screenCache == old(fullScreen.screenCache) && scheduled == old(scheduled) &&
                manager.calls == old(manager.calls)
      ensures !isOpening && !allowClose ==> fullScreen.screenCache == None && Repositioned()
    {
      SetDpiScale(DpiFromMessage(wParam));
      if screen.primary {
        systemDpi.dpiScale := dpiScale;
      }
      // a DPI change that arrives while opening is the result of positioning
      if !isOpening {
        ProcessScreenChange(DpiChange, primaryScreen);
      }
    }

    // -------------------------------------------------------------------------
    // Screen changes and positioning

    /** ProcessScreenChange: reprocess the screen only when the gate lets the reason through. */
    method ProcessScreenChange(reason: ScreenSetupReason, primaryScreen: ScreenInfo)
      modifies this`screen, this`scheduled, fullScreen`screenCache, manager`calls
      ensures ProcessesScreenChange(old(screen).primary, processScreenChanges, allowClose, reason) ==>
                fullScreen.screenCache == None && screen == ScreenAfterSetup(old(screen), reason, primaryScreen) &&
                Repositioned()
      ensures !ProcessesScreenChange(old(screen).primary, processScreenChanges, allowClose, reason) ==>
                fullScreen.screenCache == old(fullScreen.screenCache) && screen == old(screen) &&
                scheduled == old(scheduled) && manager.calls == old(manager.calls)
    {
      if ((screen.primary && processScreenChanges) || reason == DpiChange) && !allowClose {
        SetScreenProperties(reason, primaryScreen);
      }
    }

    /**
     * SetScreenProperties: drop the tracker's cached monitors, re-resolve the
     * primary screen unless the reason is a DPI change, and reposition.
     */
    method SetScreenProperties(reason: ScreenSetupReason, primaryScreen: ScreenInfo)
      modifies this`screen, this`scheduled, fullScreen`screenCache, manager`calls
      ensures fullScreen.screenCache == None
      ensures screen == ScreenAfterSetup(old(screen), reason, primaryScreen)
      ensures Repositioned()
    {
      fullScreen.NotifyScreensChanged();
      if screen.primary && reason != DpiChange {
        screen := primaryScreen;
      }
      SetScreenPosition();
    }

    /** The request SetScreenPosition sends a Normal bar: desired thickness across the edge, full screen length along it. */
    function ScreenSetPosCall(): RegistryCall
      reads this`handle, this`orientation, this`desiredWidth, this`desiredHeight, this`dpiScale, this`screen, this`edge
    {
      if orientation == Vertical then SetPosCall(handle, desiredWidth * dpiScale, screen.bounds.Height() as real, edge)
      else SetPosCall(handle, screen.bounds.Width() as real, desiredHeight * dpiScale, edge)
    }

    /**
     * SetScreenPosition's effect between two states: as the shell or outside
     * Normal mode one delayed SetPosition is scheduled and the registry is not
     * asked; otherwise nothing is scheduled and the registry is asked once to
     * place the bar, across the edge at its desired thickness and along it at
     * the full screen length.
     */
    twostate predicate Repositioned()
      reads this, manager
    {
      (runningAsShell || mode != Normal ==>
         scheduled == old(scheduled) + [DeferredSetPosition] && manager.calls == old(manager.calls)) &&
      (!runningAsShell && mode == Normal ==>
         scheduled == old(scheduled) && manager.calls == old(manager.calls) + [ScreenSetPosCall()])
    }

    /**
     * SetScreenPosition: as the shell or outside Normal mode, position the bar
     * itself after a delay; otherwise let the registry place it.
     */
    method SetScreenPosition()
      modifies this`scheduled, manager`calls
      ensures Repositioned()
    {
      if runningAsShell || mode != Normal {
        DelaySetPosition();
      } else if mode == Normal {
        if orientation == Vertical {
          manager.Log(SetPosCall(handle, desiredWidth * dpiScale, screen.bounds.Height() as real, edge));
        } else {
          manager.Log(SetPosCall(handle, screen.bounds.Width() as real, desiredHeight * dpiScale, edge));
        }
      }
    }

    /** DelaySetPosition: a one-shot timer that runs SetPosition. */
    method DelaySetPosition()
      modifies this`scheduled
      ensures scheduled == old(scheduled) + [DeferredSetPosition]
    {
      scheduled := scheduled + [DeferredSetPosition];
    }

    /** AfterAppBarPos: when the registry moved the bar, reassert its rectangle once, after a delay. */
    method AfterAppBarPos(isSameCoords: bool, rect: Rect)
      modifies this`scheduled
      ensures scheduled == old(scheduled) + (if isSameCoords then [] else [DeferredAppBarPosition(rect)])
    {
      if !isSameCoords {
        scheduled := scheduled + [DeferredAppBarPosition(rect)];
      }
    }

    /** A scheduled timer firing: it runs its action once. */
    method FireDeferred(d: Deferred)
      modifies this`windowCalls, manager`calls
      ensures d == DeferredSetPosition ==>
                windowCalls == old(windowCalls) + [PositionCall(handle, Placement())] &&
                manager.calls == old(manager.calls) + (if runningAsShell then [WorkAreaCall(screen)] else [])
      ensures d.DeferredAppBarPosition? ==>
                windowCalls == old(windowCalls) + [AppBarPositionCall(handle, d.rect)] && manager.calls == old(manager.calls)
    {
      match d {
        case DeferredSetPosition => SetPosition();
        case DeferredAppBarPosition(rect) => SetAppBarPosition(rect);
      }
    }

    /** SetAppBarPosition: apply a registry-assigned rectangle without changing z-order or activation. */
    method SetAppBarPosition(rect: Rect)
      modifies this`windowCalls
      ensures windowCalls == old(windowCalls) + [AppBarPositionCall(handle, rect)]
    {
      windowCalls := windowCalls + [AppBarPositionCall(handle, rect)];
    }

    /**
     * SetPosition: place the bar on its edge of the screen, offset by what other
     * bars reserve there unless it must sit on the screen edge; as the shell,
     * also update the screen's work area.
     */
    method SetPosition()
      modifies this`windowCalls, manager`calls
      ensures windowCalls == old(windowCalls) + [PositionCall(handle, Placement())]
      ensures manager.calls == old(manager.calls) + (if runningAsShell then [WorkAreaCall(screen)] else [])
    {
      var edgeOffset := 0.0;
      if !requiresScreenEdge {
        edgeOffset := manager.reservedThickness(edge, screen);
      }
      var p := BarGeometry(orientation, edge, screen.bounds, desiredWidth, desiredHeight, dpiScale, edgeOffset);
      windowCalls := windowCalls + [PositionCall(handle, p)];
      if runningAsShell {
        manager.Log(WorkAreaCall(screen));
      }
    }
  }
}
