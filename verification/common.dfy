/** Values shared by every part of the overlay model: optional values,
    error results, rectangles, sizes and colours. */
module Common {

  /** The program's `Option<T>`. */
  datatype Option<T> = None | Some(value: T)

  /** The Direct2D calls inside an overlay frame that return an HRESULT the
      program propagates with `?`. Which of them fail is an input of the model. */
  datatype CallSite =
    | FullRectGeometry      // CreateRectangleGeometry for the whole surface
    | ExcludedRectGeometry  // CreateRectangleGeometry for the selection
    | PathGeometry          // CreatePathGeometry
    | SinkOpen              // ID2D1PathGeometry::Open
    | GeometryCombine       // CombineWithGeometry
    | SinkClose             // ID2D1GeometrySink::Close
    | LayerCreation         // CreateLayer

  /** Every error value the core can return. The program uses `anyhow` strings and
      `windows::core::Error`; each distinct origin is one constructor here. */
  datatype Error =
    | InvalidWindowType            // "Invalid window type"
    | LockFailed                   // "Failed to lock window mutex"
    | RegisterClassFailed          // "Failed to register window class"
    | CreateWindowFailed           // "Failed to create window"
    | ModuleHandleFailed           // `?` on GetModuleHandleW
    | LoadCursorFailed             // `?` on LoadCursorW
    | MissingDrawing               // Error::from_win32() when a window has no drawing
    | NullPaintDc                  // Error::from_win32() when BeginPaint yields a null hdc
    | DeviceCallFailed(site: CallSite)

  /** `Result<T>` of the program. */
  datatype Result<T> = Ok(value: T) | Err(error: Error)

  /** `Result<()>` of the program. */
  datatype Outcome = Pass | Fail(error: Error)

  /** A `D2D_RECT_F`. Coordinates come from 16-bit integers, so they are exact
      integers; nothing forces `left <= right` or `top <= bottom`. */
  datatype Rect = Rect(left: int, top: int, right: int, bottom: int)

  /** The size of a render target as returned by `GetSize`. */
  datatype Size = Size(width: int, height: int)

  /** The rectangle (0, 0, width, height) covering a whole surface. */
  function FullSurface(s: Size): (r: Rect)
    ensures r.left == 0 && r.top == 0
    ensures r.right - r.left == s.width && r.bottom - r.top == s.height
  {
    Rect(0, 0, s.width, s.height)
  }

  /** A `D2D1_COLOR_F`; channels are opaque constants of the model. */
  datatype Color = Color(r: real, g: real, b: real, a: real)

  /** The frame clear colour: every channel zero, so fully transparent. */
  const TransparentBlack := Color(0.0, 0.0, 0.0, 0.0)

  /** The brush colour of the overlay mask. */
  const OpaqueBlack := Color(0.0, 0.0, 0.0, 1.0)

  /** The colour the opaque window fills itself with on WM_PAINT. */
  const OpaqueWhite := Color(1.0, 1.0, 1.0, 1.0)
}
