/**
 * The native side of the shell's app-bar interface: the RECT and APPBARDATA
 * structs, the ABMsg message codes and the ABEdge edge codes, and the 32-bit
 * signed integers they are made of.
 */
module Native {

  const MinInt32: int := -0x8000_0000
  const MaxInt32: int := 0x7FFF_FFFF

  /** A C# `int`. */
  type Int32 = x: int | -0x8000_0000 <= x <= 0x7FFF_FFFF

  /**
   * The result of C# unchecked `int` arithmetic on a mathematical value:
   * the Int32 congruent to `x` modulo 2^32.
   */
  function Wrap32(x: int): (r: Int32)
    ensures (r - x) % 0x1_0000_0000 == 0
    ensures MinInt32 <= x <= MaxInt32 ==> r == x
  {
    (x + 0x8000_0000) % 0x1_0000_0000 - 0x8000_0000
  }

  /** RECT: left, top, right and bottom in screen pixels. */
  datatype Rect = Rect(left: Int32, top: Int32, right: Int32, bottom: Int32)

  /** ABMsg: the message codes passed to SHAppBarMessage. */
  const ABM_NEW: int := 0
  const ABM_REMOVE: int := 1
  const ABM_QUERYPOS: int := 2
  const ABM_SETPOS: int := 3
  const ABM_GETSTATE: int := 4
  const ABM_GETTASKBARPOS: int := 5
  const ABM_ACTIVATE: int := 6
  const ABM_GETAUTOHIDEBAR: int := 7
  const ABM_SETAUTOHIDEBAR: int := 8
  const ABM_WINDOWPOSCHANGED: int := 9
  const ABM_SETSTATE: int := 10

  /** ABEdge: the edge codes carried in APPBARDATA.uEdge. */
  const ABE_LEFT: int := 0
  const ABE_TOP: int := 1
  const ABE_RIGHT: int := 2
  const ABE_BOTTOM: int := 3

  /** Whether `e` is the value of one of the four ABEdge members. */
  predicate IsEdge(e: int) {
    ABE_LEFT <= e <= ABE_BOTTOM
  }

  /** A window handle (the IntPtr of a form). */
  type Handle = nat

  /**
   * APPBARDATA. `cbSize` is `Marshal.SizeOf(APPBARDATA)`, a constant of the
   * process's platform; `lParam` is never set by the program and stays 0.
   */
  datatype AppBarData = AppBarData(
    cbSize: int,
    hWnd: Handle,
    uCallbackMessage: int,
    uEdge: int,
    rc: Rect,
    lParam: int)

  /** `Marshal.SizeOf(APPBARDATA)` in a 64-bit process. */
  const AppBarDataSize: int := 48

  /** A freshly constructed APPBARDATA after `abd.cbSize = Marshal.SizeOf(abd)`. */
  function NewAppBarData(): AppBarData {
    AppBarData(AppBarDataSize, 0, 0, 0, Rect(0, 0, 0, 0), 0)
  }

  /** One call `SHAppBarMessage(code, ref data)`, as the shell receives it. */
  datatype Message = Message(code: int, data: AppBarData)
}
