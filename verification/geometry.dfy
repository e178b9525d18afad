/**
 * The placement of a popup window opened by `window.open`: the
 * NewWindowRequested handler turns the requested window features into the
 * `RECT` handed to the new window, and the window constructor turns that
 * `RECT` into a position and size for `CreateWindowExW`.
 */
module Geometry {
  import opened Win32

  /** The smallest width and height a `window.open` popup gets, in pixels. */
  const MinNewWindowSize: UInt32 := 100

  /** What the page asked for (`ICoreWebView2WindowFeatures`). */
  datatype WindowFeatures = WindowFeatures(
    hasPosition: bool,
    hasSize: bool,
    left: UInt32,
    top: UInt32,
    width: UInt32,
    height: UInt32,
    shouldDisplayToolbar: bool)

  datatype Rect = Rect(left: Long, top: Long, right: Long, bottom: Long)

  /** The arguments the handler passes when it creates the popup window. */
  datatype NewWindowArgs = NewWindowArgs(useDefaultWindow: bool, windowRect: Rect, shouldHaveToolbar: bool)

  /** Where `CreateWindowExW` puts a new window. */
  datatype Placement =
    | DefaultPlacement                          // `CW_USEDEFAULT`
    | At(x: int, y: int, width: int, height: int)

  /** A requested width or height raised to the popup minimum. */
  function ClampSize(requested: UInt32): (r: UInt32)
    ensures MinNewWindowSize <= r && requested <= r
    ensures r == requested || r == MinNewWindowSize
  {
    if requested < MinNewWindowSize then MinNewWindowSize else requested
  }

  /**
   * The NewWindowRequested handler's rectangle. Position and size are read
   * only when the page gave both; otherwise all four stay 0. The right and
   * bottom edges are computed in unsigned 32-bit arithmetic and stored in
   * the signed `LONG` fields of the `RECT`.
   */
  function NewWindowRect(f: WindowFeatures): (r: NewWindowArgs)
    ensures r.useDefaultWindow <==> !(f.hasPosition && f.hasSize)
    ensures r.useDefaultWindow ==> r.windowRect == Rect(0, 0, MinNewWindowSize, MinNewWindowSize)
    ensures !r.useDefaultWindow ==> r.windowRect.left == AsLong(f.left) && r.windowRect.top == AsLong(f.top)
    ensures (r.windowRect.right - r.windowRect.left) % TwoTo32 == ClampSize(if r.useDefaultWindow then 0 else f.width)
    ensures (r.windowRect.bottom - r.windowRect.top) % TwoTo32 == ClampSize(if r.useDefaultWindow then 0 else f.height)
    ensures r.shouldHaveToolbar == f.shouldDisplayToolbar
  {
    var useFeatures := f.hasPosition && f.hasSize;
    var left: UInt32 := if useFeatures then f.left else 0;
    var top: UInt32 := if useFeatures then f.top else 0;
    var width: UInt32 := if useFeatures then f.width else 0;
    var height: UInt32 := if useFeatures then f.height else 0;
    WrappedExtent(left, ClampSize(width));
    WrappedExtent(top, ClampSize(height));
    NewWindowArgs(
      !useFeatures,
      Rect(AsLong(left), AsLong(top),
           AsLong(AddUInt32(left, ClampSize(width))),
           AsLong(AddUInt32(top, ClampSize(height)))),
      f.shouldDisplayToolbar)
  }

  /** An edge `start + extent` stored through the 32-bit wrap is still `extent` past `start`, modulo 2^32. */
  lemma WrappedExtent(start: UInt32, extent: UInt32)
    ensures (AsLong(AddUInt32(start, extent)) - AsLong(start)) % TwoTo32 == extent
  {
    var e: int := AsLong(AddUInt32(start, extent));
    var s: int := AsLong(start);
    var sum := start + extent;
    if sum < TwoTo32 {
      assert AddUInt32(start, extent) == sum;
    } else {
      assert AddUInt32(start, extent) == sum - TwoTo32;
    }
    assert e - s == extent || e - s == extent - TwoTo32 || e - s == extent + TwoTo32 || e - s == extent - 2 * TwoTo32;
  }

  /** The window constructor's choice between the given rectangle and the system default. */
  function WindowPlacement(customWindowRect: bool, rect: Rect): (p: Placement)
    ensures p.At? <==> customWindowRect
    ensures p.At? ==> p.x + p.width == rect.right && p.y + p.height == rect.bottom
    ensures p.At? ==> p.x == rect.left && p.y == rect.top
  {
    if customWindowRect then At(rect.left, rect.top, rect.right - rect.left, rect.bottom - rect.top)
    else DefaultPlacement
  }

  /**
   * A popup whose features give both position and size opens at the requested
   * position with at least 100 x 100 pixels: each requested dimension raised
   * to the minimum. This holds while the right and bottom edges fit in a `LONG`.
   */
  lemma PopupOpensWithClampedSize(f: WindowFeatures)
    requires f.hasPosition && f.hasSize
    requires f.left + ClampSize(f.width) < 0x8000_0000
    requires f.top + ClampSize(f.height) < 0x8000_0000
    ensures var args := NewWindowRect(f);
            && !args.useDefaultWindow
            && WindowPlacement(true, args.windowRect)
               == At(f.left, f.top, ClampSize(f.width), ClampSize(f.height))
    ensures ClampSize(f.width) >= MinNewWindowSize && ClampSize(f.height) >= MinNewWindowSize
  {
    var args := NewWindowRect(f);
    assert AddUInt32(f.left, ClampSize(f.width)) == f.left + ClampSize(f.width);
    assert AddUInt32(f.top, ClampSize(f.height)) == f.top + ClampSize(f.height);
    assert args.windowRect.right == f.left + ClampSize(f.width);
    assert args.windowRect.bottom == f.top + ClampSize(f.height);
  }

  /**
   * Without both position and size the popup takes the default-window path;
   * the rectangle the handler still computes is the 100 x 100 square at the origin.
   */
  lemma DefaultWindowWithoutFullFeatures(f: WindowFeatures)
    requires !f.hasPosition || !f.hasSize
    ensures NewWindowRect(f).useDefaultWindow
    ensures WindowPlacement(false, NewWindowRect(f).windowRect) == DefaultPlacement
    ensures NewWindowRect(f).windowRect.right - NewWindowRect(f).windowRect.left == MinNewWindowSize
  {
  }
}
