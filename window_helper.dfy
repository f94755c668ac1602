/**
 * Window helpers: z-order placement calls, the blur/acrylic accent selection,
 * the ARGB to ABGR gradient colour encoding, the live-preview flag, the search
 * for the Windows taskbar and for the desktop window.
 *
 * Native window enumeration (FindWindow, FindWindowEx, GetWindow) is given as
 * data: the z-ordered lists the enumeration would walk.
 */
module WindowHelper {
  import opened Common

  // ---------------------------------------------------------------------------
  // Z-order placement

  /** ShowWindowBottomMost: move to the bottom of the z-order without moving, sizing or activating. */
  function ShowWindowBottomMost(handle: Hwnd): (c: WindowPosCall)
    ensures c.hwnd == handle && c.insertAfter == HWND_BOTTOM
    ensures c.flags & SWP_NOACTIVATE != 0 && c.flags & SWP_NOMOVE != 0 && c.flags & SWP_NOSIZE != 0
    ensures c.flags & SWP_SHOWWINDOW == 0 && c.flags & SWP_NOZORDER == 0
  {
    WindowPosCall(handle, HWND_BOTTOM, 0, 0, 0, 0, SWP_NOSIZE | SWP_NOMOVE | SWP_NOACTIVATE)
  }

  /** ShowWindowTopMost: insert after HWND_TOPMOST and show, without moving or sizing (activation is allowed). */
  function ShowWindowTopMost(handle: Hwnd): (c: WindowPosCall)
    ensures c.hwnd == handle && c.insertAfter == HWND_TOPMOST
    ensures c.flags & SWP_SHOWWINDOW != 0 && c.flags & SWP_NOZORDER == 0
    ensures c.flags & SWP_NOMOVE != 0 && c.flags & SWP_NOSIZE != 0 && c.flags & SWP_NOACTIVATE == 0
  {
    WindowPosCall(handle, HWND_TOPMOST, 0, 0, 0, 0, SWP_NOSIZE | SWP_NOMOVE | SWP_SHOWWINDOW)
  }

  // ---------------------------------------------------------------------------
  // Desktop window search

  /** A top-level WorkerW window and the SHELLDLL_DefView child FindWindowEx finds in it (0 if none). */
  datatype WorkerWindow = WorkerWindow(hwnd: Hwnd, defView: Hwnd)

  /**
   * What the desktop search can observe: the Progman window (0 if FindWindow
   * fails) and its SHELLDLL_DefView child, the WorkerW windows in z-order, the
   * SHELLDLL_DefView a top-level search finds, and the window GetWindow(h,
   * GW_HWNDPREV) reports above each window.
   */
  datatype DesktopWindows = DesktopWindows(
    progman: Hwnd,
    progmanDefView: Hwnd,
    workers: seq<WorkerWindow>,
    topLevelDefView: Hwnd,
    windowAbove: Hwnd -> Hwnd)

  /** FindWindowEx(0, previous, "WorkerW") as the k-th step of the walk: the k-th worker, or 0 past the end. */
  function WorkerAt(d: DesktopWindows, k: nat): Hwnd
  {
    if k < |d.workers| then d.workers[k].hwnd else NullHwnd
  }

  /** FindWindowEx(worker, 0, "SHELLDLL_DefView") for the k-th step (searching top-level windows once past the end). */
  function DefViewAt(d: DesktopWindows, k: nat): Hwnd
  {
    if k < |d.workers| then d.workers[k].defView else d.topLevelDefView
  }

  /** The WorkerW window hosting the desktop icons: the first worker that has a DefView child (0 if none, or a null worker ends the walk). */
  function DesktopWorker(workers: seq<WorkerWindow>): Hwnd
  {
    if workers == [] then NullHwnd
    else if workers[0].defView != NullHwnd || workers[0].hwnd == NullHwnd then workers[0].hwnd
    else DesktopWorker(workers[1..])
  }

  /** The desktop parent window: Progman when it hosts the icons, otherwise the WorkerW that does. */
  function LowestDesktopParent(d: DesktopWindows): Hwnd
  {
    if d.progmanDefView != NullHwnd then d.progman else DesktopWorker(d.workers)
  }

  /** GetLowestDesktopParentHwnd: the do-while walk over the WorkerW windows. */
  method GetLowestDesktopParentHwnd(d: DesktopWindows) returns (desktopHwnd: Hwnd)
    ensures desktopHwnd == LowestDesktopParent(d)
    ensures d.progmanDefView == NullHwnd && desktopHwnd != NullHwnd ==>
              exists k :: 0 <= k < |d.workers| && d.workers[k].hwnd == desktopHwnd && d.workers[k].defView != NullHwnd
  {
    if d.progmanDefView == NullHwnd {
      // first pass of the do-while
      var k := 0;
      var workerHwnd := WorkerAt(d, 0);
      var shellIconsHwnd := DefViewAt(d, 0);
      while shellIconsHwnd == NullHwnd && workerHwnd != NullHwnd
        invariant 0 <= k < |d.workers| || (k == |d.workers| && workerHwnd == NullHwnd)
        invariant workerHwnd == WorkerAt(d, k) && shellIconsHwnd == DefViewAt(d, k)
        invariant DesktopWorker(d.workers[k..]) == DesktopWorker(d.workers)
        decreases |d.workers| - k
      {
        assert d.workers[k..][1..] == d.workers[k + 1..];
        k := k + 1;
        workerHwnd := WorkerAt(d, k);
        shellIconsHwnd := DefViewAt(d, k);
      }
      if k < |d.workers| {
        assert d.workers[k..][0] == d.workers[k];
      }
      desktopHwnd := workerHwnd;
    } else {
      desktopHwnd := d.progman;
    }
  }

  /**
   * ShowWindowDesktop: place the window just under the desktop parent (after the
   * window above it); when no desktop parent is found, fall back to bottom-most.
   */
  method ShowWindowDesktop(hwnd: Hwnd, d: DesktopWindows) returns (call: WindowPosCall)
    ensures LowestDesktopParent(d) == NullHwnd ==> call == ShowWindowBottomMost(hwnd)
    ensures LowestDesktopParent(d) != NullHwnd ==>
              call.hwnd == hwnd && call.insertAfter == d.windowAbove(LowestDesktopParent(d)) &&
              call.flags == SWP_NOSIZE | SWP_NOMOVE | SWP_NOACTIVATE
  {
    var desktopHwnd := GetLowestDesktopParentHwnd(d);
    if desktopHwnd != NullHwnd {
      var nextHwnd := d.windowAbove(desktopHwnd);
      call := WindowPosCall(hwnd, nextHwnd, 0, 0, 0, 0, SWP_NOSIZE | SWP_NOMOVE | SWP_NOACTIVATE);
    } else {
      call := ShowWindowBottomMost(hwnd);
    }
  }

  // ---------------------------------------------------------------------------
  // Taskbar search

  /** The first taskbar window in z-order that is not `ignore` (0 if there is none). */
  function FirstTrayOtherThan(trays: seq<Hwnd>, ignore: Hwnd): Hwnd
  {
    if trays == [] then NullHwnd
    else if trays[0] != ignore then trays[0]
    else FirstTrayOtherThan(trays[1..], ignore)
  }

  /** The k-th answer of the FindWindow / FindWindowEx walk over the Shell_TrayWnd windows (0 past the end). */
  function TrayAt(trays: seq<Hwnd>, k: nat): Hwnd
  {
    if k < |trays| then trays[k] else NullHwnd
  }

  /**
   * FindWindowsTray: the first Shell_TrayWnd window, skipping `hwndIgnore` (our
   * own taskbar) when it is non-zero. `trays` lists the Shell_TrayWnd windows in
   * the z-order FindWindow and FindWindowEx walk.
   */
  method FindWindowsTray(trays: seq<Hwnd>, hwndIgnore: Hwnd) returns (taskbarHwnd: Hwnd)
    ensures hwndIgnore != NullHwnd ==> taskbarHwnd != hwndIgnore
    ensures hwndIgnore != NullHwnd ==> taskbarHwnd == FirstTrayOtherThan(trays, hwndIgnore)
    ensures hwndIgnore == NullHwnd ==> taskbarHwnd == TrayAt(trays, 0)
    ensures taskbarHwnd == NullHwnd || taskbarHwnd in trays
  {
    var k := 0;
    taskbarHwnd := TrayAt(trays, 0);
    if hwndIgnore != NullHwnd {
      while taskbarHwnd == hwndIgnore
        invariant 0 <= k <= |trays|
        invariant taskbarHwnd == TrayAt(trays, k)
        invariant FirstTrayOtherThan(trays[k..], hwndIgnore) == FirstTrayOtherThan(trays, hwndIgnore)
        decreases |trays| - k
      {
        assert trays[k..][1..] == trays[k + 1..];
        k := k + 1;
        taskbarHwnd := TrayAt(trays, k);
      }
      if k < |trays| {
        assert trays[k..][0] == trays[k];
      }
    }
  }

  // ---------------------------------------------------------------------------
  // Hiding a window from task switchers

  /** HideWindowFromTasks: the new extended style, with WS_EX_TOOLWINDOW added and every other bit kept. */
  function HideWindowFromTasks(exStyle: bv32): (newExStyle: bv32)
    ensures newExStyle & WS_EX_TOOLWINDOW != 0
    ensures newExStyle & !WS_EX_TOOLWINDOW == exStyle & !WS_EX_TOOLWINDOW
  {
    exStyle | WS_EX_TOOLWINDOW
  }

  // ---------------------------------------------------------------------------
  // Live preview

  /** One DwmActivateLivePreview call: the enable flag, the windows, and whether the Windows 8.1 form with the extra argument was used. */
  datatype LivePreviewCall = LivePreviewCall(enable: int, targetHwnd: Hwnd, callingHwnd: Hwnd, extendedForm: bool)

  /** PeekWindow: enable is 1 exactly when showing; Windows 8.1 and later take the extended form. */
  function PeekWindow(show: bool, targetHwnd: Hwnd, callingHwnd: Hwnd, isWindows81OrBetter: bool): (c: LivePreviewCall)
    ensures c.enable == 1 <==> show
    ensures c.enable == 0 <==> !show
    ensures c.targetHwnd == targetHwnd && c.callingHwnd == callingHwnd
    ensures c.extendedForm == isWindows81OrBetter
  {
    var enable := if show then 1 else 0;
    LivePreviewCall(enable, targetHwnd, callingHwnd, isWindows81OrBetter)
  }

  // ---------------------------------------------------------------------------
  // Gradient colour

  /** A WPF Color: alpha and the three channels, one byte each. */
  datatype Color = Color(a: bv8, r: bv8, g: bv8, b: bv8)

  /** Color.FromRgb(255, 255, 255): opaque white, the default blur tint. */
  const OpaqueWhite: Color := Color(255, 255, 255, 255)

  /**
   * CalculateGradientColor: the ACCENT_POLICY gradient word, alpha in the top
   * byte and the channels in B, G, R order below it (R in the lowest byte). The
   * source computes in a 32-bit signed int with unchecked shifts; the bit pattern
   * is the bv32 here and AsInt32 gives the signed value.
   */
  function CalculateGradientColor(color: Color): (bits: bv32)
    ensures bits & 0xFF == color.r as bv32
    ensures (bits >> 8) & 0xFF == color.g as bv32
    ensures (bits >> 16) & 0xFF == color.b as bv32
    ensures bits >> 24 == color.a as bv32
  {
    var alpha := color.a as bv32;
    var bgr := (color.b as bv32 << 16) | (color.g as bv32 << 8) | color.r as bv32;
    (alpha << 24) | (bgr & 0xFF_FFFF)
  }

  /** The colour a gradient word stands for: the inverse reading of the four bytes. */
  function GradientChannels(bits: bv32): (color: Color)
  {
    Color((bits >> 24) as bv8, (bits & 0xFF) as bv8, ((bits >> 8) & 0xFF) as bv8, ((bits >> 16) & 0xFF) as bv8)
  }

  /** The signed value of a 32-bit word, as the source's int holds it. */
  function AsInt32(bits: bv32): int
  {
    if bits < 0x8000_0000 then bits as int else bits as int - 0x1_0000_0000
  }

  /** The 0xFFFFFF mask never clears a bit of the packed B, G, R value. */
  lemma MaskKeepsBgr(color: Color)
    ensures var bgr := (color.b as bv32 << 16) | (color.g as bv32 << 8) | color.r as bv32;
            bgr & 0xFF_FFFF == bgr
  {
  }

  /** Decoding an encoded colour gives the colour back. */
  lemma GradientRoundTrip(color: Color)
    ensures GradientChannels(CalculateGradientColor(color)) == color
  {
  }

  /** Every 32-bit word is the encoding of exactly one colour. */
  lemma GradientOnto(bits: bv32)
    ensures CalculateGradientColor(GradientChannels(bits)) == bits
  {
  }

  /** Opaque white encodes to all 32 bits set, the int -1. */
  lemma WhiteIsAllOnes()
    ensures CalculateGradientColor(OpaqueWhite) == 0xFFFF_FFFF
    ensures AsInt32(CalculateGradientColor(OpaqueWhite)) == -1
  {
  }

  // ---------------------------------------------------------------------------
  // Blur

  datatype AccentState = AccentDisabled | AccentEnableBlurBehind | AccentEnableAcrylicBlurBehind

  /** The ACCENT_POLICY written to the window; the gradient word stays 0 unless set. */
  datatype AccentPolicy = AccentPolicy(state: AccentState, gradientColor: bv32)

  /** The Windows versions the helpers test. */
  datatype OsVersion = OsVersion(isWindows8OrBetter: bool, isWindows81OrBetter: bool, isWindows10OrBetter: bool, isWindows10RS4OrBetter: bool)

  /**
   * IsWindowBlurSupportedAndEnabled: desktop composition is on and the user's
   * transparency setting is on. `composition` is None when the composition query
   * threw, which reads as unsupported; the registry setting is taken as given.
   */
  function IsWindowBlurSupportedAndEnabled(composition: Option<bool>, transparencyEnabled: bool): (r: bool)
    ensures r <==> composition == Some(true) && transparencyEnabled
  {
    match composition
    case None => false
    case Some(enabled) => enabled && transparencyEnabled
  }

  /** The value SetWindowBlur returns and the accent policy it applies to the window, if any. */
  datatype BlurResult = BlurResult(returned: bool, applied: Option<AccentPolicy>)

  /**
   * SetWindowBlur: nothing happens before Windows 10 or when blur is unavailable;
   * otherwise the accent is acrylic tinted with the colour (white by default) on
   * RS4 and later, blur-behind before RS4, and disabled when turning blur off.
   */
  function SetWindowBlur(enable: bool, color: Option<Color>, os: OsVersion, blurSupported: bool): (r: BlurResult)
    ensures !os.isWindows10OrBetter || !blurSupported ==> r == BlurResult(false, None)
    ensures os.isWindows10OrBetter && blurSupported ==> r.returned && r.applied.Some?
    ensures r.applied.Some? && enable && os.isWindows10RS4OrBetter ==>
              r.applied.value.state == AccentEnableAcrylicBlurBehind &&
              GradientChannels(r.applied.value.gradientColor) == (if color.Some? then color.value else OpaqueWhite)
    ensures r.applied.Some? && enable && !os.isWindows10RS4OrBetter ==> r.applied.value == AccentPolicy(AccentEnableBlurBehind, 0)
    ensures r.applied.Some? && !enable ==> r.applied.value == AccentPolicy(AccentDisabled, 0)
  {
    if !os.isWindows10OrBetter || !blurSupported then BlurResult(false, None)
    else
      var accent :=
        if enable then
          if os.isWindows10RS4OrBetter then
            var tint := if color.Some? then color.value else OpaqueWhite;
            GradientRoundTrip(tint);
            AccentPolicy(AccentEnableAcrylicBlurBehind, CalculateGradientColor(tint))
          else AccentPolicy(AccentEnableBlurBehind, 0)
        else AccentPolicy(AccentDisabled, 0);
      BlurResult(true, Some(accent))
  }
}
