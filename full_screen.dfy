/**
 * The full-screen application tracker. Every poll tick re-classifies each
 * tracked window, removes the entries that no longer qualify, and then adds the
 * foreground window if it fills a monitor and is not tracked already.
 *
 * Native queries are given as a `Desktop` snapshot: the foreground window, what
 * GetWindowLong / GetClientRect+MapWindowPoints / GetWindowRect / process id /
 * IsWindow / IsWindowVisible / IsIconic / GetClassName / DWMWA_CLOAKED /
 * Screen.FromHandle report for each handle, the monitors Screen.AllScreens
 * enumerates, and the virtual screen.
 */
module FullScreen {
  import opened Common

  /** What the native queries report about one window handle. */
  datatype WindowAttrs = WindowAttrs(
    style: bv32,
    clientRectOnScreen: Rect,
    windowRect: Rect,
    processId: int,
    isWindow: bool,
    isVisible: bool,
    isIconic: bool,
    className: string,
    cloaked: nat,
    monitorDevice: string)

  datatype Desktop = Desktop(
    foreground: Hwnd,
    attrs: Hwnd -> WindowAttrs,
    screens: seq<ScreenInfo>,
    virtualScreen: ScreenInfo,
    currentProcessId: int,
    isWindows8OrBetter: bool)

  /** A tracked full-screen window: its handle, the screen it fills, and its rectangle when classified. */
  datatype FullScreenApp = FullScreenApp(hwnd: Hwnd, screen: ScreenInfo, rect: Rect)

  /** A membership change, as the observable collection reports it. */
  datatype CollectionChange = Removed(app: FullScreenApp) | Added(app: FullScreenApp)

  // ---------------------------------------------------------------------------
  // Classification

  /** The rectangle tested: the client area in screen coordinates for a captioned, resizable window, else the window rectangle. */
  function TestedRect(a: WindowAttrs): Rect
  {
    if (WS_CAPTION | WS_THICKFRAME) & a.style == WS_CAPTION | WS_THICKFRAME then a.clientRectOnScreen else a.windowRect
  }

  /** The screens a window is compared against: every monitor, plus the virtual screen when there is more than one. */
  function Candidates(screens: seq<ScreenInfo>, virtualScreen: ScreenInfo): seq<ScreenInfo>
  {
    screens + (if |screens| > 1 then [virtualScreen] else [])
  }

  /** All four edges equal. */
  predicate Fills(rect: Rect, s: ScreenInfo)
  {
    rect.top == s.bounds.top && rect.left == s.bounds.left && rect.bottom == s.bounds.bottom && rect.right == s.bounds.right
  }

  /** The index of the first candidate the rectangle fills exactly. */
  function FirstFilled(rect: Rect, cands: seq<ScreenInfo>): (r: Option<nat>)
    ensures r.Some? ==> r.value < |cands| && Fills(rect, cands[r.value])
    ensures r.Some? ==> forall j :: 0 <= j < r.value ==> !Fills(rect, cands[j])
    ensures r.None? ==> forall j :: 0 <= j < |cands| ==> !Fills(rect, cands[j])
  {
    if cands == [] then None
    else if Fills(rect, cands[0]) then Some(0)
    else
      match FirstFilled(rect, cands[1..])
      case None => None
      case Some(k) => Some(k + 1)
  }

  /** The checks that reject a window even when it fills a screen. */
  predicate Disqualified(a: WindowAttrs, d: Desktop)
  {
    a.processId == d.currentProcessId ||
    !a.isWindow || !a.isVisible || a.isIconic ||
    a.className == "Progman" || a.className == "WorkerW" ||
    (d.isWindows8OrBetter && a.cloaked > 0)
  }

  /**
   * getFullScreenApp: the window, the first screen (in enumeration order) whose
   * bounds its rectangle matches on all four edges, and that rectangle; nothing
   * when no screen matches or the first match is disqualified.
   */
  function GetFullScreenApp(hwnd: Hwnd, screens: seq<ScreenInfo>, d: Desktop): (r: Option<FullScreenApp>)
    ensures r.Some? ==> r.value.hwnd == hwnd && r.value.rect == TestedRect(d.attrs(hwnd))
    ensures r.Some? ==> Fills(r.value.rect, r.value.screen) && r.value.screen in Candidates(screens, d.virtualScreen)
    ensures r.Some? ==> !Disqualified(d.attrs(hwnd), d)
    ensures r.None? <==>
              Disqualified(d.attrs(hwnd), d) ||
              forall s :: s in Candidates(screens, d.virtualScreen) ==> !Fills(TestedRect(d.attrs(hwnd)), s)
  {
    var a := d.attrs(hwnd);
    var rect := TestedRect(a);
    var cands := Candidates(screens, d.virtualScreen);
    match FirstFilled(rect, cands)
    case None => None
    case Some(k) =>
      if Disqualified(a, d) then None
      else Some(FullScreenApp(hwnd, cands[k], rect))
  }

  /** The screen recorded is the first candidate the window fills. */
  lemma ClassifiedOnFirstMatch(hwnd: Hwnd, screens: seq<ScreenInfo>, d: Desktop)
    requires GetFullScreenApp(hwnd, screens, d).Some?
    ensures var cands := Candidates(screens, d.virtualScreen);
            exists k :: 0 <= k < |cands| && cands[k] == GetFullScreenApp(hwnd, screens, d).value.screen &&
                        forall j :: 0 <= j < k ==> !Fills(TestedRect(d.attrs(hwnd)), cands[j])
  {
    var cands := Candidates(screens, d.virtualScreen);
    var k := FirstFilled(TestedRect(d.attrs(hwnd)), cands).value;
    assert cands[k] == GetFullScreenApp(hwnd, screens, d).value.screen;
  }

  /** With a single monitor the virtual screen is never a candidate. */
  lemma SingleMonitorNeverVirtual(hwnd: Hwnd, screens: seq<ScreenInfo>, d: Desktop)
    requires |screens| <= 1
    requires GetFullScreenApp(hwnd, screens, d).Some?
    ensures GetFullScreenApp(hwnd, screens, d).value.screen in screens
  {
  }

  // ---------------------------------------------------------------------------
  // The keep / remove / add rules of one tick

  predicate SameDevice(a: ScreenInfo, b: ScreenInfo)
  {
    a.deviceName == b.deviceName
  }

  /** The tracked foreground window still fills the same device: keep it and do not add it again. */
  predicate SuppressesAdd(app: FullScreenApp, screens: seq<ScreenInfo>, d: Desktop)
  {
    var now := GetFullScreenApp(app.hwnd, screens, d);
    app.hwnd == d.foreground && now.Some? && SameDevice(app.screen, now.value.screen)
  }

  /**
   * Whether an entry survives the tick: it still fills the same device, and it
   * is either the foreground window or the foreground window is on another monitor.
   */
  predicate Keeps(app: FullScreenApp, screens: seq<ScreenInfo>, d: Desktop)
  {
    var now := GetFullScreenApp(app.hwnd, screens, d);
    SuppressesAdd(app, screens, d) ||
    (now.Some? && app.hwnd != d.foreground && SameDevice(app.screen, now.value.screen) &&
     d.attrs(d.foreground).monitorDevice != now.value.screen.deviceName)
  }

  function Kept(apps: seq<FullScreenApp>, screens: seq<ScreenInfo>, d: Desktop): seq<FullScreenApp>
  {
    if apps == [] then []
    else (if Keeps(apps[0], screens, d) then [apps[0]] else []) + Kept(apps[1..], screens, d)
  }

  function Dropped(apps: seq<FullScreenApp>, screens: seq<ScreenInfo>, d: Desktop): seq<FullScreenApp>
  {
    if apps == [] then []
    else (if Keeps(apps[0], screens, d) then [] else [apps[0]]) + Dropped(apps[1..], screens, d)
  }

  predicate AnySuppressesAdd(apps: seq<FullScreenApp>, screens: seq<ScreenInfo>, d: Desktop)
  {
    apps != [] && (SuppressesAdd(apps[0], screens, d) || AnySuppressesAdd(apps[1..], screens, d))
  }

  /** The entry a tick appends, if any. */
  function Addition(apps: seq<FullScreenApp>, screens: seq<ScreenInfo>, d: Desktop): seq<FullScreenApp>
  {
    if AnySuppressesAdd(apps, screens, d) then []
    else match GetFullScreenApp(d.foreground, screens, d)
      case None => []
      case Some(app) => [app]
  }

  /** The membership after one tick: the surviving entries in their order, then the possible addition. */
  function TickResult(apps: seq<FullScreenApp>, screens: seq<ScreenInfo>, d: Desktop): seq<FullScreenApp>
  {
    Kept(apps, screens, d) + Addition(apps, screens, d)
  }

  lemma {:induction false} KeptMembers(apps: seq<FullScreenApp>, screens: seq<ScreenInfo>, d: Desktop)
    ensures forall x :: x in Kept(apps, screens, d) <==> x in apps && Keeps(x, screens, d)
    ensures |Kept(apps, screens, d)| <= |apps|
  {
    if apps != [] {
      KeptMembers(apps[1..], screens, d);
      assert apps == [apps[0]] + apps[1..];
    }
  }

  lemma {:induction false} AnySuppressesAddMeans(apps: seq<FullScreenApp>, screens: seq<ScreenInfo>, d: Desktop)
    ensures AnySuppressesAdd(apps, screens, d) <==> exists x :: x in apps && SuppressesAdd(x, screens, d)
  {
    if apps != [] {
      AnySuppressesAddMeans(apps[1..], screens, d);
      assert apps == [apps[0]] + apps[1..];
    }
  }

  /** A tick grows the membership by at most one entry, and the addition is the classified foreground window. */
  lemma TickGrowsByAtMostOne(apps: seq<FullScreenApp>, screens: seq<ScreenInfo>, d: Desktop)
    ensures |TickResult(apps, screens, d)| <= |apps| + 1
    ensures forall x :: x in TickResult(apps, screens, d) ==>
              x in apps || Some(x) == GetFullScreenApp(d.foreground, screens, d)
  {
    KeptMembers(apps, screens, d);
  }

  /**
   * A tracked foreground window that still fills the same device is kept, and
   * then nothing is added: the membership does not grow.
   */
  lemma ForegroundEntryKeptAndNotReAdded(apps: seq<FullScreenApp>, screens: seq<ScreenInfo>, d: Desktop, app: FullScreenApp)
    requires app in apps && app.hwnd == d.foreground
    requires GetFullScreenApp(app.hwnd, screens, d).Some?
    requires SameDevice(app.screen, GetFullScreenApp(app.hwnd, screens, d).value.screen)
    ensures app in TickResult(apps, screens, d)
    ensures Addition(apps, screens, d) == []
    ensures |TickResult(apps, screens, d)| <= |apps|
  {
    KeptMembers(apps, screens, d);
    AnySuppressesAddMeans(apps, screens, d);
  }

  /**
   * Focus moved to a window on device D: no other tracked window that now
   * classifies on D survives the tick.
   */
  lemma NoBackgroundSurvivorOnForegroundMonitor(apps: seq<FullScreenApp>, screens: seq<ScreenInfo>, d: Desktop, x: FullScreenApp)
    requires x in Kept(apps, screens, d) && x.hwnd != d.foreground
    ensures GetFullScreenApp(x.hwnd, screens, d).Some?
    ensures GetFullScreenApp(x.hwnd, screens, d).value.screen.deviceName != d.attrs(d.foreground).monitorDevice
    ensures SameDevice(x.screen, GetFullScreenApp(x.hwnd, screens, d).value.screen)
  {
    KeptMembers(apps, screens, d);
  }

  /** At most one tracked window per monitor device. */
  predicate AtMostOnePerDevice(apps: seq<FullScreenApp>)
  {
    forall i, j :: 0 <= i < j < |apps| ==> apps[i].screen.deviceName != apps[j].screen.deviceName
  }

  /** Every survivor was tracked. */
  lemma {:induction false} KeptWithin(apps: seq<FullScreenApp>, screens: seq<ScreenInfo>, d: Desktop)
    ensures forall x :: x in Kept(apps, screens, d) ==> x in apps
  {
    if apps != [] {
      KeptWithin(apps[1..], screens, d);
    }
  }

  lemma TailOnePerDevice(apps: seq<FullScreenApp>)
    requires apps != [] && AtMostOnePerDevice(apps)
    ensures AtMostOnePerDevice(apps[1..])
  {
    var t := apps[1..];
    forall i, j | 0 <= i < j < |t| ensures t[i].screen.deviceName != t[j].screen.deviceName {
      assert t[i] == apps[i + 1] && t[j] == apps[j + 1];
    }
  }

  lemma ConsOnePerDevice(x: FullScreenApp, k: seq<FullScreenApp>)
    requires AtMostOnePerDevice(k)
    requires forall y :: y in k ==> y.screen.deviceName != x.screen.deviceName
    ensures AtMostOnePerDevice([x] + k)
  {
    var r := [x] + k;
    forall i, j | 0 <= i < j < |r| ensures r[i].screen.deviceName != r[j].screen.deviceName {
      if i == 0 {
        assert r[j] == k[j - 1] && r[j] in k;
      } else {
        assert r[i] == k[i - 1] && r[j] == k[j - 1];
      }
    }
  }

  lemma {:induction false} KeptKeepsOnePerDevice(apps: seq<FullScreenApp>, screens: seq<ScreenInfo>, d: Desktop)
    requires AtMostOnePerDevice(apps)
    ensures AtMostOnePerDevice(Kept(apps, screens, d))
  {
    if apps != [] {
      var t := apps[1..];
      TailOnePerDevice(apps);
      KeptKeepsOnePerDevice(t, screens, d);
      KeptWithin(t, screens, d);
      var k := Kept(t, screens, d);
      forall y | y in k ensures y.screen.deviceName != apps[0].screen.deviceName {
        var j :| 0 <= j < |t| && t[j] == y;
        assert apps[j + 1] == y;
      }
      ConsOnePerDevice(apps[0], k);
    }
  }

  /**
   * The one-entry-per-device property survives a tick provided the foreground
   * window, when it classifies, does so on the monitor Screen.FromHandle reports
   * for it. That proviso fails for a window spanning the virtual screen; see
   * TwoEntriesOnTheVirtualScreen.
   */
  lemma TickKeepsOnePerDevice(apps: seq<FullScreenApp>, screens: seq<ScreenInfo>, d: Desktop)
    requires AtMostOnePerDevice(apps)
    requires GetFullScreenApp(d.foreground, screens, d).Some? ==>
               GetFullScreenApp(d.foreground, screens, d).value.screen.deviceName == d.attrs(d.foreground).monitorDevice
    ensures AtMostOnePerDevice(TickResult(apps, screens, d))
  {
    KeptKeepsOnePerDevice(apps, screens, d);
    KeptMembers(apps, screens, d);
    AnySuppressesAddMeans(apps, screens, d);
    var k := Kept(apps, screens, d);
    var add := Addition(apps, screens, d);
    forall y | y in k && y.hwnd == d.foreground ensures AnySuppressesAdd(apps, screens, d) {
      assert SuppressesAdd(y, screens, d);
    }
    if add != [] {
      var n := add[0];
      forall y | y in k ensures y.screen.deviceName != n.screen.deviceName {
      }
      var r := k + add;
      forall i, j | 0 <= i < j < |r| ensures r[i].screen.deviceName != r[j].screen.deviceName {
        if j == |k| {
          assert r[i] == k[i] && r[i] in k;
        } else {
          assert r[i] == k[i] && r[j] == k[j];
        }
      }
    }
  }

  /**
   * Two side-by-side monitors, their virtual screen, and every window spanning
   * both of them while Screen.FromHandle reports the left monitor; window 2 is
   * in the foreground.
   */
  function SpanningDesktop(): Desktop
  {
    var left := ScreenInfo("DISPLAY1", true, Rect(0, 0, 100, 100), false);
    var right := ScreenInfo("DISPLAY2", false, Rect(100, 0, 200, 100), false);
    var virt := ScreenInfo("VIRTUAL", false, Rect(0, 0, 200, 100), true);
    var spanning := WindowAttrs(0, Rect(0, 0, 200, 100), Rect(0, 0, 200, 100), 7, true, true, false, "Game", 0, "DISPLAY1");
    Desktop(2, (h: Hwnd) => spanning, [left, right], virt, 1, true)
  }

  /** On that desktop every window classifies on the virtual screen. */
  lemma SpanningWindowOnVirtualScreen(hwnd: Hwnd)
    ensures GetFullScreenApp(hwnd, SpanningDesktop().screens, SpanningDesktop()) ==
              Some(FullScreenApp(hwnd, SpanningDesktop().virtualScreen, Rect(0, 0, 200, 100)))
  {
    var d := SpanningDesktop();
    var left, right, virt := d.screens[0], d.screens[1], d.virtualScreen;
    var rect := Rect(0, 0, 200, 100);
    assert TestedRect(d.attrs(hwnd)) == rect;
    assert Candidates(d.screens, virt) == [left, right, virt];
    assert !Fills(rect, left) && !Fills(rect, right) && Fills(rect, virt);
    assert [left, right, virt][1..] == [right, virt] && [right, virt][1..] == [virt];
    assert FirstFilled(rect, [virt]) == Some(0);
    assert FirstFilled(rect, [right, virt]) == Some(1);
    assert FirstFilled(rect, [left, right, virt]) == Some(2);
  }

  /**
   * Without that proviso the property fails: a background window spanning the
   * virtual screen survives because the foreground window's own monitor is a real
   * one, and the foreground window, also spanning the virtual screen, is added
   * beside it.
   */
  lemma TwoEntriesOnTheVirtualScreen()
    ensures exists apps: seq<FullScreenApp>, screens: seq<ScreenInfo>, d: Desktop ::
              AtMostOnePerDevice(apps) && !AtMostOnePerDevice(TickResult(apps, screens, d))
  {
    var d := SpanningDesktop();
    var stale := FullScreenApp(1, d.virtualScreen, Rect(0, 0, 200, 100));
    var apps := [stale];
    SpanningWindowOnVirtualScreen(1);
    SpanningWindowOnVirtualScreen(2);
    assert Keeps(stale, d.screens, d);
    assert Kept(apps, d.screens, d) == [stale];
    assert !AnySuppressesAdd(apps, d.screens, d);
    assert TickResult(apps, d.screens, d)[0].screen.deviceName == TickResult(apps, d.screens, d)[1].screen.deviceName;
  }

  // ---------------------------------------------------------------------------
  // Removal by value, as ObservableCollection.Remove does it

  /** Remove the first element equal to x (nothing if there is none). */
  function RemoveFirst(s: seq<FullScreenApp>, x: FullScreenApp): (r: seq<FullScreenApp>)
    ensures x in s ==> multiset(r) == multiset(s) - multiset{x}
    ensures x !in s ==> r == s
  {
    if s == [] then []
    else
      assert s == [s[0]] + s[1..];
      if s[0] == x then s[1..]
      else [s[0]] + RemoveFirst(s[1..], x)
  }

  /** Remove each element of r in turn. */
  function RemoveAll(s: seq<FullScreenApp>, r: seq<FullScreenApp>): seq<FullScreenApp>
    decreases r
  {
    if r == [] then s else RemoveAll(RemoveFirst(s, r[0]), r[1..])
  }

  lemma {:induction false} RemoveAllSkipsHead(x: FullScreenApp, t: seq<FullScreenApp>, r: seq<FullScreenApp>)
    requires x !in r
    ensures RemoveAll([x] + t, r) == [x] + RemoveAll(t, r)
    decreases r
  {
    if r != [] {
      assert ([x] + t)[1..] == t;
      assert RemoveFirst([x] + t, r[0]) == [x] + RemoveFirst(t, r[0]);
      RemoveAllSkipsHead(x, RemoveFirst(t, r[0]), r[1..]);
    }
  }

  lemma {:induction false} DroppedMembers(apps: seq<FullScreenApp>, screens: seq<ScreenInfo>, d: Desktop)
    ensures forall x :: x in Dropped(apps, screens, d) ==> x in apps && !Keeps(x, screens, d)
    ensures multiset(Dropped(apps, screens, d)) <= multiset(apps)
  {
    if apps != [] {
      DroppedMembers(apps[1..], screens, d);
      assert apps == [apps[0]] + apps[1..];
    }
  }

  /** Removing the dropped entries one by one leaves exactly the kept entries, in order. */
  lemma {:induction false} RemovingDroppedLeavesKept(apps: seq<FullScreenApp>, screens: seq<ScreenInfo>, d: Desktop)
    ensures RemoveAll(apps, Dropped(apps, screens, d)) == Kept(apps, screens, d)
  {
    if apps != [] {
      var x, t := apps[0], apps[1..];
      assert apps == [x] + t;
      RemovingDroppedLeavesKept(t, screens, d);
      DroppedMembers(t, screens, d);
      if Keeps(x, screens, d) {
        assert Dropped(apps, screens, d) == Dropped(t, screens, d);
        assert Kept(apps, screens, d) == [x] + Kept(t, screens, d);
        RemoveAllSkipsHead(x, t, Dropped(t, screens, d));
      } else {
        assert Dropped(apps, screens, d) == [x] + Dropped(t, screens, d);
        assert RemoveFirst(apps, x) == t;
      }
    }
  }

  // ---------------------------------------------------------------------------
  // The tracker

  class FullScreenHelper {
    /** FullScreenApps, in insertion order. */
    var apps: seq<FullScreenApp>
    /** Every CollectionChanged event raised, in order. */
    var changes: seq<CollectionChange>
    /** The monitor enumeration the platform has cached (None after NotifyScreensChanged). */
    var screenCache: Option<seq<ScreenInfo>>

    constructor ()
      ensures apps == [] && changes == [] && screenCache == None
    {
      apps := [];
      changes := [];
      screenCache := None;
    }

    /** NotifyScreensChanged: drop the cached monitor enumeration. */
    method NotifyScreensChanged()
      modifies this`screenCache
      ensures screenCache == None
    {
      screenCache := None;
    }

    /** The monitors a classification compares against: the cached enumeration, or a fresh one. */
    function ScreensSeen(cache: Option<seq<ScreenInfo>>, d: Desktop): seq<ScreenInfo>
    {
      if cache.Some? then cache.value else d.screens
    }

    /**
     * FullscreenCheck_Tick: scan the entries without touching the collection,
     * then remove the dropped ones (one CollectionChanged each), then append the
     * foreground window if it is not tracked and fills a screen.
     */
    method Tick(d: Desktop)
      modifies this
      ensures apps == TickResult(old(apps), ScreensSeen(old(screenCache), d), d)
      ensures changes == old(changes)
                + RemovalEvents(Dropped(old(apps), ScreensSeen(old(screenCache), d), d))
                + AdditionEvents(Addition(old(apps), ScreensSeen(old(screenCache), d), d))
      ensures screenCache == Some(ScreensSeen(old(screenCache), d))
    {
      var screens := ScreensSeen(screenCache, d);
      screenCache := Some(screens);
      var hWnd := d.foreground;

      var removeApps, skipAdd := ScanEntries(apps, screens, d);
      DroppedMembers(apps, screens, d);
      RemovingDroppedLeavesKept(apps, screens, d);
      RemoveEach(removeApps);

      if !skipAdd {
        var appNew := GetFullScreenApp(hWnd, screens, d);
        if appNew.Some? {
          apps := apps + [appNew.value];
          changes := changes + [Added(appNew.value)];
        }
      }
    }

    /** Remove each listed entry in turn (ObservableCollection.Remove), raising one event per removal. */
    method RemoveEach(removeApps: seq<FullScreenApp>)
      requires multiset(removeApps) <= multiset(apps)
      modifies this`apps, this`changes
      ensures apps == RemoveAll(old(apps), removeApps)
      ensures changes == old(changes) + RemovalEvents(removeApps)
    {
      var remaining := apps;
      ghost var original := apps;
      var raised: seq<CollectionChange> := [];
      var j := 0;
      while j < |removeApps|
        invariant 0 <= j <= |removeApps|
        invariant RemoveAll(remaining, removeApps[j..]) == RemoveAll(original, removeApps)
        invariant multiset(removeApps[j..]) <= multiset(remaining)
        invariant raised + RemovalEvents(removeApps[j..]) == RemovalEvents(removeApps)
        invariant unchanged(this)
      {
        var existingApp := removeApps[j];
        RemoveStep(remaining, removeApps, j);
        RemovalEventsStep(removeApps, j, raised);
        remaining := RemoveFirst(remaining, existingApp);
        raised := raised + [Removed(existingApp)];
        j := j + 1;
      }
      assert removeApps[j..] == [];
      assert remaining == RemoveAll(original, removeApps);
      assert raised == RemovalEvents(removeApps);
      apps := remaining;
      changes := changes + raised;
    }
  }

  /**
   * The scan half of a tick: which entries to remove, in order, and whether the
   * foreground window is already tracked on the device it fills.
   */
  method ScanEntries(apps: seq<FullScreenApp>, screens: seq<ScreenInfo>, d: Desktop)
    returns (removeApps: seq<FullScreenApp>, skipAdd: bool)
    ensures removeApps == Dropped(apps, screens, d)
    ensures skipAdd == AnySuppressesAdd(apps, screens, d)
  {
    removeApps := [];
    skipAdd := false;
    var i := 0;
    while i < |apps|
      invariant 0 <= i <= |apps|
      invariant removeApps + Dropped(apps[i..], screens, d) == Dropped(apps, screens, d)
      invariant (skipAdd || AnySuppressesAdd(apps[i..], screens, d)) == AnySuppressesAdd(apps, screens, d)
    {
      var app := apps[i];
      ScanAdvanceDropped(apps, i, screens, d, removeApps);
      ScanAdvanceSkip(apps, i, screens, d, skipAdd);
      var stillForeground, keep := JudgeEntry(app, screens, d);
      if stillForeground {
        skipAdd := true;
      } else if !keep {
        removeApps := removeApps + [app];
      }
      i := i + 1;
    }
    assert apps[i..] == [];
  }

  /**
   * The verdict on one entry in the scan: it is the foreground window still on
   * the same screen (kept, and the addition is skipped), or it is kept because
   * the foreground window is on another screen, or it is to be removed.
   */
  method JudgeEntry(app: FullScreenApp, screens: seq<ScreenInfo>, d: Desktop) returns (stillForeground: bool, keep: bool)
    ensures stillForeground == SuppressesAdd(app, screens, d)
    ensures keep == Keeps(app, screens, d)
  {
    var hWnd := d.foreground;
    var appCurrentState := GetFullScreenApp(app.hwnd, screens, d);
    stillForeground := false;
    keep := false;
    if app.hwnd == hWnd && appCurrentState.Some? && app.screen.deviceName == appCurrentState.value.screen.deviceName {
      // the foreground window, still on the same screen
      stillForeground := true;
      keep := true;
    } else if appCurrentState.Some? && app.hwnd != hWnd &&
              app.screen.deviceName == appCurrentState.value.screen.deviceName &&
              d.attrs(hWnd).monitorDevice != appCurrentState.value.screen.deviceName {
      // no longer foreground, but the foreground window is on another screen
      keep := true;
    }
  }

  /** The scan's removal list carried past the i-th entry. */
  lemma {:induction false} ScanAdvanceDropped(apps: seq<FullScreenApp>, i: nat, screens: seq<ScreenInfo>, d: Desktop,
                                              removeApps: seq<FullScreenApp>)
    requires i < |apps|
    requires removeApps + Dropped(apps[i..], screens, d) == Dropped(apps, screens, d)
    ensures Keeps(apps[i], screens, d) ==> removeApps + Dropped(apps[i + 1..], screens, d) == Dropped(apps, screens, d)
    ensures !Keeps(apps[i], screens, d) ==> (removeApps + [apps[i]]) + Dropped(apps[i + 1..], screens, d) == Dropped(apps, screens, d)
  {
    var rest := Dropped(apps[i + 1..], screens, d);
    assert apps[i..][1..] == apps[i + 1..];
    assert Dropped(apps[i..], screens, d) == (if Keeps(apps[i], screens, d) then [] else [apps[i]]) + rest;
    if !Keeps(apps[i], screens, d) {
      assert (removeApps + [apps[i]]) + rest == removeApps + ([apps[i]] + rest);
    }
  }

  /** The scan's skip flag carried past the i-th entry. */
  lemma {:induction false} ScanAdvanceSkip(apps: seq<FullScreenApp>, i: nat, screens: seq<ScreenInfo>, d: Desktop, skipAdd: bool)
    requires i < |apps|
    requires (skipAdd || AnySuppressesAdd(apps[i..], screens, d)) == AnySuppressesAdd(apps, screens, d)
    ensures (skipAdd || SuppressesAdd(apps[i], screens, d) || AnySuppressesAdd(apps[i + 1..], screens, d)) == AnySuppressesAdd(apps, screens, d)
  {
    assert apps[i..][1..] == apps[i + 1..];
  }

  /** One step of the removal loop: the entry is present, and what remains to remove still is. */
  lemma RemoveStep(apps: seq<FullScreenApp>, r: seq<FullScreenApp>, j: nat)
    requires j < |r| && multiset(r[j..]) <= multiset(apps)
    ensures r[j] in apps
    ensures RemoveAll(RemoveFirst(apps, r[j]), r[j + 1..]) == RemoveAll(apps, r[j..])
    ensures multiset(r[j + 1..]) <= multiset(RemoveFirst(apps, r[j]))
  {
    assert r[j..] == [r[j]] + r[j + 1..];
    assert r[j] in multiset(apps);
  }

  /** The events at step j: those raised so far, the j-th removal, then the rest. */
  lemma RemovalEventsStep(r: seq<FullScreenApp>, j: nat, raised: seq<CollectionChange>)
    requires j < |r|
    ensures raised + RemovalEvents(r[j..]) == (raised + [Removed(r[j])]) + RemovalEvents(r[j + 1..])
  {
    assert r[j..][1..] == r[j + 1..];
    assert RemovalEvents(r[j..]) == [Removed(r[j])] + RemovalEvents(r[j + 1..]);
  }

  function RemovalEvents(removed: seq<FullScreenApp>): (e: seq<CollectionChange>)
    ensures |e| == |removed|
  {
    if removed == [] then [] else [Removed(removed[0])] + RemovalEvents(removed[1..])
  }

  function AdditionEvents(added: seq<FullScreenApp>): seq<CollectionChange>
  {
    if added == [] then [] else [Added(added[0])]
  }
}
