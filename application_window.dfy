/**
 * A top-level window as the task list sees it: whether it belongs in the
 * taskbar, its progress and flashing state, and the properties it computes
 * lazily and caches.
 *
 * Native queries (IsWindow, IsWindowVisible, GetWindowLong, GetWindow,
 * DwmGetWindowAttribute, GetClassName, the process path, MonitorFromWindow,
 * IsIconic) are given as a `NativeWindow` snapshot taken at the time of the call;
 * the task category provider's answer is given as a parameter.
 */
module WindowsTasks {
  import opened Common
  import PropertyNotify
  import WindowHelper

  datatype WindowState = Active | Inactive | Hidden | Flashing | Unknown

  /** TBPFLAG: the taskbar progress states. */
  datatype ProgressFlag = NoProgress | Indeterminate | NormalProgress | ErrorProgress | Paused

  /** What native queries report about the window. `cloaked` is the DWMWA_CLOAKED word. */
  datatype NativeWindow = NativeWindow(
    isWindow: bool,
    isVisible: bool,
    isMinimized: bool,
    exStyle: bv32,
    owner: Hwnd,
    cloaked: nat,
    className: string,
    processPath: string,
    monitor: Hwnd)

  // ---------------------------------------------------------------------------
  // Strings

  function LowerChar(c: char): char
  {
    if 'A' <= c <= 'Z' then (c as int + 32) as char else c
  }

  /** ToLower, for the ASCII letters the tests below look for. */
  function ToLower(s: string): (r: string)
    ensures |r| == |s|
    ensures forall i :: 0 <= i < |s| ==> r[i] == LowerChar(s[i])
  {
    if s == [] then [] else [LowerChar(s[0])] + ToLower(s[1..])
  }

  /** String.Contains: `sub` occurs somewhere in `s`. */
  predicate Contains(s: string, sub: string)
    decreases |s|
  {
    |sub| <= |s| && (s[..|sub|] == sub || (s != [] && Contains(s[1..], sub)))
  }

  // ---------------------------------------------------------------------------
  // Taskbar membership

  predicate HasExStyle(w: NativeWindow, flag: bv32)
  {
    w.exStyle & flag != 0
  }

  /**
   * CanAddToTaskbar: a visible window that is not a tool window, and that is
   * either unowned or marked WS_EX_APPWINDOW, and either activatable or marked
   * WS_EX_APPWINDOW.
   */
  function CanAddToTaskbar(w: NativeWindow): bool
  {
    var isToolWindow := w.exStyle & WS_EX_TOOLWINDOW != 0;
    var isAppWindow := w.exStyle & WS_EX_APPWINDOW != 0;
    var isNoActivate := w.exStyle & WS_EX_NOACTIVATE != 0;
    w.isWindow && w.isVisible && (w.owner == NullHwnd || isAppWindow) && (!isNoActivate || isAppWindow) && !isToolWindow
  }

  /** A tool window, or a hidden or destroyed one, never goes in the taskbar. */
  lemma ToolOrHiddenNeverAdded(w: NativeWindow)
    requires HasExStyle(w, WS_EX_TOOLWINDOW) || !w.isVisible || !w.isWindow
    ensures !CanAddToTaskbar(w)
  {
  }

  /** WS_EX_APPWINDOW overrides both an owner and WS_EX_NOACTIVATE. */
  lemma AppWindowOverridesOwnerAndNoActivate(w: NativeWindow)
    requires HasExStyle(w, WS_EX_APPWINDOW)
    ensures CanAddToTaskbar(w) <==> w.isWindow && w.isVisible && !HasExStyle(w, WS_EX_TOOLWINDOW)
  {
  }

  /** Without WS_EX_APPWINDOW a window must be unowned and activatable. */
  lemma PlainWindowMustBeUnownedAndActivatable(w: NativeWindow)
    requires !HasExStyle(w, WS_EX_APPWINDOW)
    ensures CanAddToTaskbar(w) <==>
              w.isWindow && w.isVisible && !HasExStyle(w, WS_EX_TOOLWINDOW) &&
              w.owner == NullHwnd && !HasExStyle(w, WS_EX_NOACTIVATE)
  {
  }

  /** A window passed through HideWindowFromTasks (as every docked bar is) is never added to the taskbar. */
  lemma HiddenFromTasksNeverAdded(w: NativeWindow)
    ensures !CanAddToTaskbar(w.(exStyle := WindowHelper.HideWindowFromTasks(w.exStyle)))
  {
  }

  predicate IsUwpFrameClass(className: string)
  {
    className == "ApplicationFrameWindow" || className == "Windows.UI.Core.CoreWindow"
  }

  predicate IsImmersiveShellClass(className: string)
  {
    className == "ImmersiveBackgroundWindow" || className == "SearchPane" || className == "NativeHWNDHost" ||
    className == "Shell_CharmWindow" || className == "ImmersiveLauncher"
  }

  /** Whether GetShowInTaskbar reads the window's file name (only for an immersive shell class before Windows 10). */
  predicate ReadsFileName(w: NativeWindow, os: WindowHelper.OsVersion)
  {
    os.isWindows8OrBetter && w.cloaked == 0 && !IsUwpFrameClass(w.className) &&
    !os.isWindows10OrBetter && IsImmersiveShellClass(w.className)
  }

  /**
   * GetShowInTaskbar's decision tree, given the file name WinFileName yields:
   * on Windows 8 and later, cloaked windows, frameless UWP frames and (before
   * Windows 10) explorer's immersive shell windows are hidden; everything else
   * follows CanAddToTaskbar.
   */
  function ShowInTaskbarDecision(w: NativeWindow, os: WindowHelper.OsVersion, winFileName: string): bool
  {
    if os.isWindows8OrBetter then
      if w.cloaked > 0 then false
      else if IsUwpFrameClass(w.className) then
        if !HasExStyle(w, WS_EX_WINDOWEDGE) then false else CanAddToTaskbar(w)
      else if !os.isWindows10OrBetter && IsImmersiveShellClass(w.className) && Contains(ToLower(winFileName), "explorer.exe") then false
      else CanAddToTaskbar(w)
    else CanAddToTaskbar(w)
  }

  /** On Windows 8 and later a cloaked window is never shown in the taskbar. */
  lemma CloakedNeverShown(w: NativeWindow, os: WindowHelper.OsVersion, winFileName: string)
    requires os.isWindows8OrBetter && w.cloaked > 0
    ensures !ShowInTaskbarDecision(w, os, winFileName)
  {
  }

  /** A UWP frame class without WS_EX_WINDOWEDGE is hidden. */
  lemma UwpFrameWithoutEdgeHidden(w: NativeWindow, os: WindowHelper.OsVersion, winFileName: string)
    requires os.isWindows8OrBetter && IsUwpFrameClass(w.className) && !HasExStyle(w, WS_EX_WINDOWEDGE)
    ensures !ShowInTaskbarDecision(w, os, winFileName)
  {
  }

  /** Before Windows 10, explorer's immersive shell windows are hidden. */
  lemma ImmersiveExplorerWindowHidden(w: NativeWindow, os: WindowHelper.OsVersion, winFileName: string)
    requires ReadsFileName(w, os) && Contains(ToLower(winFileName), "explorer.exe")
    ensures !ShowInTaskbarDecision(w, os, winFileName)
  {
  }

  /**
   * Every other case, including all cases before Windows 8, falls back to
   * CanAddToTaskbar; so a window is shown exactly when it can be added and none of
   * the three hiding rules applies.
   */
  lemma ShowInTaskbarOtherwiseCanAdd(w: NativeWindow, os: WindowHelper.OsVersion, winFileName: string)
    ensures ShowInTaskbarDecision(w, os, winFileName) <==>
              CanAddToTaskbar(w) &&
              !(os.isWindows8OrBetter && w.cloaked > 0) &&
              !(os.isWindows8OrBetter && IsUwpFrameClass(w.className) && !HasExStyle(w, WS_EX_WINDOWEDGE)) &&
              !(ReadsFileName(w, os) && Contains(ToLower(winFileName), "explorer.exe"))
    ensures !os.isWindows8OrBetter ==> ShowInTaskbarDecision(w, os, winFileName) == CanAddToTaskbar(w)
  {
  }

  /** The file name WinFileName yields: the cached one, or a fresh query when the cache is empty. */
  function WinFileNameValue(cached: string, w: NativeWindow): string
  {
    if cached == "" then w.processPath else cached
  }

  /** What an ApplicationWindow does to the window itself. */
  datatype NativeCall = ShowWindowShow | RestoreCommand | MakeForeground

  class ApplicationWindow {
    var handle: Hwnd
    var state: WindowState
    var progressState: ProgressFlag
    var progressValue: int
    /** _showInTaskbar: None until computed or set. */
    var showInTaskbar: Option<bool>
    /** _category: None is null. */
    var category: Option<string>
    /** _isUWP: None until computed. */
    var isUWP: Option<bool>
    /** _winFileName: "" until fetched. */
    var winFileName: string
    /** _hMonitor: 0 until fetched. */
    var hMonitor: Hwnd
    /** Every PropertyChanged raised, by property name, in order. */
    var notifications: seq<string>
    /** How many times the task category provider was asked. */
    var categoryLookups: nat
    var nativeCalls: seq<NativeCall>

    /** A new window starts Inactive (its state setter raises "State"), with every cache empty. */
    constructor (h: Hwnd)
      ensures handle == h && state == Inactive
      ensures progressState == NoProgress && progressValue == 0
      ensures showInTaskbar == None && category == None && isUWP == None && winFileName == "" && hMonitor == NullHwnd
      ensures notifications == ["State"] && categoryLookups == 0 && nativeCalls == []
    {
      handle := h;
      var r := PropertyNotify.SetProperty(Active, Inactive, Some("State"), false);
      state := r.field;
      notifications := PropertyNotify.Names(r.effects);
      progressState := NoProgress;
      progressValue := 0;
      showInTaskbar := None;
      category := None;
      isUWP := None;
      winFileName := "";
      hMonitor := NullHwnd;
      categoryLookups := 0;
      nativeCalls := [];
    }

    /** Equals: two task windows are equal exactly when their handles are. */
    predicate Equals(other: ApplicationWindow)
      reads this, other
    {
      handle == other.handle
    }

    /** WinFileName: fetched on first use and cached; an empty answer is fetched again next time. */
    method GetWinFileName(w: NativeWindow) returns (name: string)
      modifies this`winFileName
      ensures name == WinFileNameValue(old(winFileName), w)
      ensures winFileName == name
      ensures old(winFileName) != "" ==> name == old(winFileName)
    {
      if winFileName == "" {
        winFileName := w.processPath;
      }
      name := winFileName;
    }

    /** IsUWP: computed once from the file name, then served from the cache. */
    method GetIsUWP(w: NativeWindow) returns (r: bool)
      modifies this`isUWP, this`winFileName
      ensures old(isUWP).Some? ==> r == old(isUWP).value && winFileName == old(winFileName)
      ensures old(isUWP).None? ==> r == Contains(ToLower(WinFileNameValue(old(winFileName), w)), "applicationframehost.exe")
      ensures isUWP == Some(r)
    {
      if isUWP.None? {
        var name := GetWinFileName(w);
        isUWP := Some(Contains(ToLower(name), "applicationframehost.exe"));
      }
      r := isUWP.value;
    }

    /** HMonitor getter: fetched while the field is 0, cached silently (no notification). */
    method GetHMonitor(w: NativeWindow) returns (m: Hwnd)
      modifies this`hMonitor
      ensures old(hMonitor) != NullHwnd ==> m == old(hMonitor)
      ensures old(hMonitor) == NullHwnd ==> m == w.monitor
      ensures hMonitor == m
    {
      if hMonitor == NullHwnd {
        hMonitor := w.monitor;
      }
      m := hMonitor;
    }

    /** UpdateMonitor: stores the current monitor through the notifying setter. */
    method UpdateMonitor(w: NativeWindow)
      modifies this`hMonitor, this`notifications
      ensures hMonitor == w.monitor
      ensures notifications == old(notifications) + (if old(hMonitor) != w.monitor then ["HMonitor"] else [])
    {
      var r := PropertyNotify.SetProperty(hMonitor, w.monitor, Some("HMonitor"), false);
      hMonitor := r.field;
      notifications := notifications + PropertyNotify.Names(r.effects);
    }

    /** GetShowInTaskbar: the decision tree; the file name is read (and cached) only where the tree needs it. */
    method GetShowInTaskbar(w: NativeWindow, os: WindowHelper.OsVersion) returns (r: bool)
      modifies this`winFileName
      ensures r == ShowInTaskbarDecision(w, os, WinFileNameValue(old(winFileName), w))
      ensures winFileName == if ReadsFileName(w, os) then WinFileNameValue(old(winFileName), w) else old(winFileName)
    {
      if os.isWindows8OrBetter {
        if w.cloaked > 0 {
          return false;
        }
        if IsUwpFrameClass(w.className) {
          if !HasExStyle(w, WS_EX_WINDOWEDGE) {
            return false;
          }
        } else if !os.isWindows10OrBetter && IsImmersiveShellClass(w.className) {
          var name := GetWinFileName(w);
          if Contains(ToLower(name), "explorer.exe") {
            return false;
          }
        }
      }
      r := CanAddToTaskbar(w);
    }

    /** ShowInTaskbar getter: computed on first read and cached silently. */
    method GetShowInTaskbarProperty(w: NativeWindow, os: WindowHelper.OsVersion) returns (r: bool)
      modifies this`showInTaskbar, this`winFileName
      ensures old(showInTaskbar).Some? ==> r == old(showInTaskbar).value && winFileName == old(winFileName)
      ensures old(showInTaskbar).None? ==> r == ShowInTaskbarDecision(w, os, WinFileNameValue(old(winFileName), w))
      ensures old(showInTaskbar).None? ==>
                winFileName == if ReadsFileName(w, os) then WinFileNameValue(old(winFileName), w) else old(winFileName)
      ensures showInTaskbar == Some(r)
    {
      if showInTaskbar.None? {
        var computed := GetShowInTaskbar(w, os);
        showInTaskbar := Some(computed);
      }
      r := showInTaskbar.value;
    }

    /**
     * Category getter: while the field is null and the window is shown in the
     * taskbar, the provider is asked and its answer stored silently (no
     * notification). `lookup` is the provider's answer (None: no provider, or null).
     */
    method GetCategory(w: NativeWindow, os: WindowHelper.OsVersion, lookup: Option<string>) returns (c: Option<string>)
      modifies this`category, this`showInTaskbar, this`winFileName, this`categoryLookups
      ensures old(category).Some? ==> c == old(category) && categoryLookups == old(categoryLookups) &&
                                      showInTaskbar == old(showInTaskbar) && winFileName == old(winFileName)
      ensures old(category).None? && old(showInTaskbar) == Some(true) ==>
                c == lookup && categoryLookups == old(categoryLookups) + 1 && winFileName == old(winFileName)
      ensures old(category).None? && old(showInTaskbar) == Some(false) ==>
                c == None && categoryLookups == old(categoryLookups) && winFileName == old(winFileName)
      ensures old(category).None? && old(showInTaskbar).None? ==>
                var shown := ShowInTaskbarDecision(w, os, WinFileNameValue(old(winFileName), w));
                c == (if shown then lookup else None) &&
                categoryLookups == old(categoryLookups) + (if shown then 1 else 0) &&
                showInTaskbar == Some(shown) &&
                winFileName == if ReadsFileName(w, os) then WinFileNameValue(old(winFileName), w) else old(winFileName)
      ensures category == c
      ensures old(showInTaskbar).Some? ==> showInTaskbar == old(showInTaskbar)
    {
      if category.None? {
        var shown := GetShowInTaskbarProperty(w, os);
        if shown {
          categoryLookups := categoryLookups + 1;
          category := lookup;
        }
      }
      c := category;
    }

    /** Category setter. */
    method SetCategory(value: Option<string>)
      modifies this`category, this`notifications
      ensures category == value
      ensures notifications == old(notifications) + (if old(category) != value then ["Category"] else [])
    {
      var r := PropertyNotify.SetProperty(category, value, Some("Category"), false);
      category := r.field;
      notifications := notifications + PropertyNotify.Names(r.effects);
    }

    /**
     * What the ShowInTaskbar setter does between two states, given the two
     * answers the category provider gives (`first` to the Category getter,
     * `second` to the callback's own lookup): the value is stored through the
     * nullable-field overload; on a change "ShowInTaskbar" is raised and, when
     * the window becomes shown with no category, the getter stores `first`
     * silently and, only if that is null, the callback assigns `second` through
     * the notifying setter.
     */
    twostate predicate ShowInTaskbarStored(value: bool, first: Option<string>, second: Option<string>)
      reads this
    {
      showInTaskbar == Some(value) &&
      (old(showInTaskbar) == Some(value) ==>
         category == old(category) && categoryLookups == old(categoryLookups) && notifications == old(notifications)) &&
      (old(showInTaskbar) != Some(value) && value && old(category).None? ==>
         category == (if first.Some? then first else second) &&
         categoryLookups == old(categoryLookups) + (if first.Some? then 1 else 2) &&
         notifications == old(notifications) + ["ShowInTaskbar"] + (if first.None? && second.Some? then ["Category"] else [])) &&
      (old(showInTaskbar) != Some(value) && (!value || old(category).Some?) ==>
         category == old(category) && categoryLookups == old(categoryLookups) &&
         notifications == old(notifications) + ["ShowInTaskbar"])
    }

    /**
     * ShowInTaskbar setter: the nullable-field overload with a callback that, when
     * the window becomes shown and Category reads null, looks a category up and
     * assigns it. Reading Category itself asks the provider and stores its answer
     * silently, so the notifying assignment only stores a category when the first
     * answer was null and the second is not.
     */
    method SetShowInTaskbar(value: bool, w: NativeWindow, os: WindowHelper.OsVersion, first: Option<string>, second: Option<string>)
      modifies this`showInTaskbar, this`category, this`winFileName, this`categoryLookups, this`notifications
      ensures ShowInTaskbarStored(value, first, second)
      ensures winFileName == old(winFileName)
    {
      var r := PropertyNotify.SetNullable(showInTaskbar, value, Some("ShowInTaskbar"), true);
      showInTaskbar := r.field;
      notifications := notifications + PropertyNotify.Names(r.effects);
      if r.changed {
        // the callback, run with the new value after the notification
        if value {
          var current := GetCategory(w, os, first);
          if current.None? {
            categoryLookups := categoryLookups + 1;
            SetCategory(second);
          }
        }
      }
    }

    /** UpdateShowInTaskbar: recompute the decision and store it through the setter. */
    method UpdateShowInTaskbar(w: NativeWindow, os: WindowHelper.OsVersion, first: Option<string>, second: Option<string>)
      modifies this`showInTaskbar, this`category, this`winFileName, this`categoryLookups, this`notifications
      ensures ShowInTaskbarStored(ShowInTaskbarDecision(w, os, WinFileNameValue(old(winFileName), w)), first, second)
      ensures winFileName == if ReadsFileName(w, os) then WinFileNameValue(old(winFileName), w) else old(winFileName)
    {
      var v := GetShowInTaskbar(w, os);
      SetShowInTaskbar(v, w, os, first, second);
    }

    /** ProgressValue setter. */
    method SetProgressValue(value: int)
      modifies this`progressValue, this`notifications
      ensures progressValue == value
      ensures notifications == old(notifications) + (if old(progressValue) != value then ["ProgressValue"] else [])
    {
      var r := PropertyNotify.SetProperty(progressValue, value, Some("ProgressValue"), false);
      progressValue := r.field;
      notifications := notifications + PropertyNotify.Names(r.effects);
    }

    /** ProgressState setter: TBPF_NOPROGRESS first resets the progress value to 0, then the state is stored. */
    method SetProgressState(value: ProgressFlag)
      modifies this`progressState, this`progressValue, this`notifications
      ensures progressState == value
      ensures value == NoProgress ==> progressValue == 0
      ensures value != NoProgress ==> progressValue == old(progressValue)
      ensures notifications == old(notifications)
                + (if value == NoProgress && old(progressValue) != 0 then ["ProgressValue"] else [])
                + (if old(progressState) != value then ["ProgressState"] else [])
    {
      if value == NoProgress {
        SetProgressValue(0);
      }
      var r := PropertyNotify.SetProperty(progressState, value, Some("ProgressState"), false);
      progressState := r.field;
      notifications := notifications + PropertyNotify.Names(r.effects);
    }

    /** State setter. */
    method SetState(value: WindowState)
      modifies this`state, this`notifications
      ensures state == value
      ensures notifications == old(notifications) + (if old(state) != value then ["State"] else [])
    {
      var r := PropertyNotify.SetProperty(state, value, Some("State"), false);
      state := r.field;
      notifications := notifications + PropertyNotify.Names(r.effects);
    }

    /**
     * BringToFront: a minimised window is only restored and brought forward; any
     * other window is shown and brought forward, and a flashing one becomes Active.
     */
    method BringToFront(w: NativeWindow)
      modifies this`state, this`notifications, this`nativeCalls
      ensures w.isMinimized ==> state == old(state) && notifications == old(notifications) &&
                                nativeCalls == old(nativeCalls) + [RestoreCommand, MakeForeground]
      ensures !w.isMinimized ==> nativeCalls == old(nativeCalls) + [ShowWindowShow, MakeForeground]
      ensures !w.isMinimized && old(state) == Flashing ==> state == Active && notifications == old(notifications) + ["State"]
      ensures !w.isMinimized && old(state) != Flashing ==> state == old(state) && notifications == old(notifications)
    {
      if w.isMinimized {
        nativeCalls := nativeCalls + [RestoreCommand, MakeForeground];
      } else {
        nativeCalls := nativeCalls + [ShowWindowShow, MakeForeground];
        if state == Flashing {
          SetState(Active);
        }
      }
    }
  }

  /**
   * Equals looks at the handle only: two task windows with the same handle are
   * equal whatever their state, category, progress or caches, and windows with
   * different handles never are.
   */
  lemma EqualsIgnoresEverythingButHandle(a: ApplicationWindow, b: ApplicationWindow)
    ensures a.handle == b.handle ==> a.Equals(b)
    ensures a.handle != b.handle ==> !a.Equals(b)
  {
  }
}
