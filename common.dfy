/** Types shared by the docking window, the full-screen tracker and the task-window model. */
module Common {

  datatype Option<+T> = None | Some(value: T)

  /** A native window handle; 0 is IntPtr.Zero ("no window"). */
  type Hwnd = int

  const NullHwnd: Hwnd := 0

  /** A native RECT: left/top inclusive, right/bottom exclusive, in device pixels. */
  datatype Rect = Rect(left: int, top: int, right: int, bottom: int) {
    function Width(): int { right - left }
    function Height(): int { bottom - top }
  }

  /**
   * A monitor as the shell sees it: its device name, whether it is the primary
   * monitor, its bounds, and whether it is the synthetic "virtual screen" that
   * spans every monitor.
   */
  datatype ScreenInfo = ScreenInfo(deviceName: string, primary: bool, bounds: Rect, isVirtualScreen: bool)

  // Win32 constants used by the modelled code (values from the Windows SDK headers).

  // Window styles (GWL_STYLE).
  const WS_CAPTION: bv32 := 0x00C0_0000
  const WS_THICKFRAME: bv32 := 0x0004_0000

  // Extended window styles (GWL_EXSTYLE).
  const WS_EX_TOOLWINDOW: bv32 := 0x0000_0080
  const WS_EX_WINDOWEDGE: bv32 := 0x0000_0100
  const WS_EX_APPWINDOW: bv32 := 0x0004_0000
  const WS_EX_NOACTIVATE: bv32 := 0x0800_0000

  // SetWindowPos flags.
  const SWP_NOSIZE: bv32 := 0x0001
  const SWP_NOMOVE: bv32 := 0x0002
  const SWP_NOZORDER: bv32 := 0x0004
  const SWP_NOACTIVATE: bv32 := 0x0010
  const SWP_SHOWWINDOW: bv32 := 0x0040

  // Special insert-after handles of SetWindowPos.
  const HWND_TOPMOST: Hwnd := -1
  const HWND_BOTTOM: Hwnd := 1

  /** One SetWindowPos call: the window, the insert-after handle, the position and size, and the flags. */
  datatype WindowPosCall = WindowPosCall(hwnd: Hwnd, insertAfter: Hwnd, x: int, y: int, cx: int, cy: int, flags: bv32)
}
