/** Windows, their per-role configuration records, the three window factories
    and the builder that selects one of them. Class registration and window
    creation are operating-system calls: their results are inputs (`Os`) and
    the arguments passed to them are recorded (`OsCall`). */
module WinFact {
  import opened Common
  import opened Trace
  import Drawing

  /** The window roles; `NoType` is the program's `WindowType::None`. */
  datatype WindowType = Transparent | Opaque | Main | NoType

  /** The window procedures the program can install: `default_window_proc`,
      `win_proc` and `opaque_handler`. */
  datatype WindowProc = DefaultWindowProc | OverlayWindowProc | OpaqueWindowProc

  /** A window: its handle, its role and, once attached, its drawing context. */
  datatype Window = Window(hwnd: int, windowType: WindowType, drawing: Option<Drawing.Drawing>)

  /** `Window::new`: a window without a drawing context. */
  function NewWindow(hwnd: int, windowType: WindowType): (w: Window)
    ensures w.hwnd == hwnd && w.windowType == windowType
    ensures w.drawing.None?
  {
    Window(hwnd, windowType, None)
  }

  /** `Window::set_drawing`: installs a drawing context and nothing else. */
  function SetDrawing(w: Window, d: Drawing.Drawing): (w': Window)
    ensures w'.drawing == Some(d)
    ensures w'.hwnd == w.hwnd && w'.windowType == w.windowType
  {
    w.(drawing := Some(d))
  }

  /** `Window::draw_overlay`: fails without a drawing context, and otherwise
      paints the overlay on the window's own handle. */
  function DrawOverlay(w: Window, rect: Option<Rect>, env: Drawing.PaintEnv): (e: Effect)
    ensures w.drawing.None? ==> e == Effect(Fail(MissingDrawing), [])
    ensures w.drawing.Some? ==> e == Drawing.DrawOverlay(w.drawing.value, w.hwnd, rect, env)
    ensures e.outcome.Pass? <==> w.drawing.Some? && env.hdc != 0 && (rect.None? || env.failing == {})
  {
    match w.drawing
    case Some(d) => Drawing.DrawOverlay(d, w.hwnd, rect, env)
    case None => Effect(Fail(MissingDrawing), [])
  }

  /** `Window::fill_background`: fails without a drawing context, and otherwise
      fills the window's own surface. */
  function FillBackground(w: Window, color: Color, env: Drawing.PaintEnv): (e: Effect)
    ensures w.drawing.None? ==> e == Effect(Fail(MissingDrawing), [])
    ensures w.drawing.Some? ==> e == Drawing.FillBackground(w.drawing.value, w.hwnd, color, env)
    ensures e.outcome.Pass? <==> w.drawing.Some? && env.hdc != 0
  {
    match w.drawing
    case Some(d) => Drawing.FillBackground(d, w.hwnd, color, env)
    case None => Effect(Fail(MissingDrawing), [])
  }

  /** `Window::show`: one `ShowWindow(SW_SHOW)` on the window's own handle. */
  function Show(w: Window): (t: seq<Event>)
    ensures t == [ShowWindow(w.hwnd, SwShow)]
  {
    [ShowWindow(w.hwnd, SwShow)]
  }

  /** `Window::hide`: one `ShowWindow(SW_HIDE)` on the window's own handle. */
  function Hide(w: Window): (t: seq<Event>)
    ensures t == [ShowWindow(w.hwnd, SwHide)]
  {
    [ShowWindow(w.hwnd, SwHide)]
  }

  /** `Window::reload`: the window is hidden, then shown again. */
  function Reload(w: Window): (t: seq<Event>)
    ensures |t| == 2
    ensures t[0] == ShowWindow(w.hwnd, SwHide) && t[1] == ShowWindow(w.hwnd, SwShow)
  {
    Hide(w) + Show(w)
  }

  datatype ExStyle = ExComposited | ExLayered | ExNoRedirectionBitmap
  datatype Style = Popup
  datatype ClassStyle = OwnDc | HRedraw | VRedraw
  datatype Cursor = NoCursor | CrossCursor | ArrowCursor
  datatype Brush = NoBrush | SolidBrush(colorRef: int)
  datatype Instance = NullInstance | ModuleInstance

  /** The arguments of `CreateWindowExW` (`WINDOWPROPS`); style flag words are
      sets of flags, and `lpparam` is always absent. */
  datatype WindowProps = WindowProps(
    exStyle: set<ExStyle>, className: string, windowName: string, style: set<Style>,
    x: int, y: int, width: int, height: int, parent: int, menu: int, instance: Instance)

  /** The fields of `WNDCLASSW` the program sets. */
  datatype ClassProps = ClassProps(
    style: set<ClassStyle>, background: Brush, cursor: Cursor,
    proc: Option<WindowProc>, className: string, instance: Instance)

  /** `CW_USEDEFAULT` (`0x80000000` as a 32-bit signed value). */
  const CwUseDefault: int := -0x8000_0000

  /** `WINDOWPROPS::default()`. */
  const DefaultProps := WindowProps({}, "win_template_class", "win_template_window", {},
                                    CwUseDefault, CwUseDefault, CwUseDefault, CwUseDefault,
                                    0, 0, NullInstance)

  /** `WNDCLASSW::default()`. */
  const DefaultClass := ClassProps({}, NoBrush, NoCursor, None, "", NullInstance)

  /** The virtual-screen bounds `GetSystemMetrics` reports. */
  datatype VirtualScreen = VirtualScreen(x: int, y: int, width: int, height: int)

  /** The per-role `CreateWindowExW` arguments. */
  function RoleProps(t: WindowType, vs: VirtualScreen): (p: WindowProps)
    requires t != NoType
    ensures t == Transparent ==> p.exStyle == {ExComposited, ExLayered}
    ensures t == Opaque ==> p.exStyle == {ExComposited}
    ensures t == Main ==> p.exStyle == {ExNoRedirectionBitmap}
    ensures t != Main ==> p.x == vs.x && p.y == vs.y && p.width == vs.width && p.height == vs.height
    ensures t == Main ==> p.x == 100 && p.y == 100 && p.width == 800 && p.height == 600
    ensures p.style == {Popup} && p.parent == 0 && p.menu == 0
    ensures t != Main ==> p.instance == NullInstance
    ensures t == Main ==> p.instance == ModuleInstance
  {
    match t
    case Transparent =>
      DefaultProps.(className := "TransparentWindowClass", windowName := "TransparentWindow",
                    exStyle := {ExComposited, ExLayered}, style := {Popup},
                    x := vs.x, y := vs.y, width := vs.width, height := vs.height)
    case Opaque =>
      DefaultProps.(className := "OpaqueWindowClass", windowName := "OpaqueWindow",
                    exStyle := {ExComposited}, style := {Popup},
                    x := vs.x, y := vs.y, width := vs.width, height := vs.height)
    case Main =>
      WindowProps({ExNoRedirectionBitmap}, "MainWindowClass", "Main Window", {Popup},
                  100, 100, 800, 600, 0, 0, ModuleInstance)
  }

  /** The per-role window class, before the template fills in the instance. */
  function RoleClass(t: WindowType, proc: WindowProc): (c: ClassProps)
    requires t != NoType
    ensures c.style == {OwnDc, HRedraw, VRedraw}
    ensures c.proc == Some(proc)
    ensures c.cursor == (if t == Transparent then CrossCursor else ArrowCursor)
    ensures c.background == (if t == Transparent then SolidBrush(0) else NoBrush)
    ensures c.className == RoleProps(t, VirtualScreen(0, 0, 0, 0)).className
  {
    var base := DefaultClass.(style := {OwnDc, HRedraw, VRedraw}, proc := Some(proc));
    match t
    case Transparent =>
      base.(background := SolidBrush(0), cursor := CrossCursor, className := "TransparentWindowClass")
    case Opaque =>
      base.(cursor := ArrowCursor, className := "OpaqueWindowClass")
    case Main =>
      base.(cursor := ArrowCursor, className := "MainWindowClass")
  }

  /** What the operating system answers during window creation. */
  datatype Os = Os(moduleHandleOk: bool, cursorOk: bool, registerOk: bool,
                   createdHwnd: int, screen: VirtualScreen)

  /** The creation calls whose arguments the model records. */
  datatype OsCall = RegisterClass(cls: ClassProps) | CreateWindowEx(props: WindowProps)

  /** A factory's result and the creation calls it made. */
  datatype Creation = Creation(result: Result<Window>, calls: seq<OsCall>)

  /** `WindowBuilder`. */
  datatype WindowBuilder = WindowBuilder(windowProc: WindowProc, windowType: WindowType)

  /** `WindowTemplate::create_window`: register the template's class under the
      module instance and the builder's procedure, then create the window; a
      null handle is not checked. */
  function CreateFromTemplate(props: WindowProps, cls: ClassProps, b: WindowBuilder, os: Os): (c: Creation)
    ensures c.result.Ok? <==> os.moduleHandleOk && os.registerOk
    ensures c.result.Ok? ==> c.result.value == Window(os.createdHwnd, b.windowType, None)
    ensures c.result.Ok? ==> |c.calls| == 2 && c.calls[1] == CreateWindowEx(props)
    ensures c.result.Err? ==> c.result.error == (if os.moduleHandleOk then RegisterClassFailed else ModuleHandleFailed)
    ensures !os.moduleHandleOk ==> c.calls == []
    ensures os.moduleHandleOk && !os.registerOk ==>
              c.calls == [RegisterClass(cls.(instance := ModuleInstance, className := props.className,
                                            proc := Some(b.windowProc)))]
    ensures os.moduleHandleOk ==>
              |c.calls| >= 1 && c.calls[0] == RegisterClass(cls.(instance := ModuleInstance, className := props.className,
                                               proc := Some(b.windowProc)))
  {
    if !os.moduleHandleOk then Creation(Err(ModuleHandleFailed), [])
    else
      var wc := cls.(instance := ModuleInstance, className := props.className, proc := Some(b.windowProc));
      if !os.registerOk then Creation(Err(RegisterClassFailed), [RegisterClass(wc)])
      else Creation(Ok(Window(os.createdHwnd, b.windowType, None)), [RegisterClass(wc), CreateWindowEx(props)])
  }

  /** `TransparentWindowFactory::create_window` and
      `OpaqueWindowFactory::create_window`: load the cursor, then create from
      the role's template. */
  function TemplateFactory(t: WindowType, b: WindowBuilder, os: Os): (c: Creation)
    requires t == Transparent || t == Opaque
    ensures !os.cursorOk ==> c == Creation(Err(LoadCursorFailed), [])
    ensures os.cursorOk ==> c == CreateFromTemplate(RoleProps(t, os.screen), RoleClass(t, b.windowProc), b, os)
  {
    if !os.cursorOk then Creation(Err(LoadCursorFailed), [])
    else CreateFromTemplate(RoleProps(t, os.screen), RoleClass(t, b.windowProc), b, os)
  }

  /** `MainWindowFactory::create_window`: the only factory that rejects a null
      window handle. Its class is registered without an instance. */
  function MainFactory(b: WindowBuilder, os: Os): (c: Creation)
    ensures c.result.Ok? <==> os.moduleHandleOk && os.cursorOk && os.registerOk && os.createdHwnd != 0
    ensures c.result.Ok? ==> c.result.value == Window(os.createdHwnd, b.windowType, None)
    ensures !os.moduleHandleOk ==> c == Creation(Err(ModuleHandleFailed), [])
    ensures os.moduleHandleOk && !os.cursorOk ==> c == Creation(Err(LoadCursorFailed), [])
    ensures os.moduleHandleOk && os.cursorOk && !os.registerOk ==>
              c == Creation(Err(RegisterClassFailed), [RegisterClass(RoleClass(Main, b.windowProc))])
    ensures os.moduleHandleOk && os.cursorOk && os.registerOk ==>
              c.calls == [RegisterClass(RoleClass(Main, b.windowProc)), CreateWindowEx(RoleProps(Main, os.screen))]
    ensures os.moduleHandleOk && os.cursorOk && os.registerOk && os.createdHwnd == 0 ==>
              c.result == Err(CreateWindowFailed)
  {
    if !os.moduleHandleOk then Creation(Err(ModuleHandleFailed), [])
    else if !os.cursorOk then Creation(Err(LoadCursorFailed), [])
    else
      var wc := RoleClass(Main, b.windowProc);
      if !os.registerOk then Creation(Err(RegisterClassFailed), [RegisterClass(wc)])
      else
        var calls := [RegisterClass(wc), CreateWindowEx(RoleProps(Main, os.screen))];
        if os.createdHwnd == 0 then Creation(Err(CreateWindowFailed), calls)
        else Creation(Ok(Window(os.createdHwnd, b.windowType, None)), calls)
  }

  /** `WindowBuilder::new`. */
  function NewBuilder(): (b: WindowBuilder)
    ensures b.windowType == NoType && b.windowProc == DefaultWindowProc
  {
    WindowBuilder(DefaultWindowProc, NoType)
  }

  /** `WindowBuilder::set_window_type`: only the type changes. */
  function SetWindowType(b: WindowBuilder, t: WindowType): (b': WindowBuilder)
    ensures b'.windowType == t && b'.windowProc == b.windowProc
  {
    b.(windowType := t)
  }

  /** `WindowBuilder::set_window_proc`: only the procedure changes. */
  function SetWindowProc(b: WindowBuilder, p: WindowProc): (b': WindowBuilder)
    ensures b'.windowProc == p && b'.windowType == b.windowType
  {
    b.(windowProc := p)
  }

  /** The builder's setters are independent and the last call of each wins,
      so a build depends only on the last type and procedure set: a fresh
      builder given a type and a procedure, in either order, builds the window
      of that type registered with that procedure. */
  lemma BuilderSettersCommute(b: WindowBuilder, t: WindowType, t': WindowType, p: WindowProc, os: Os)
    ensures SetWindowType(SetWindowProc(b, p), t) == SetWindowProc(SetWindowType(b, t), p)
    ensures SetWindowType(SetWindowType(b, t'), t) == SetWindowType(b, t)
    ensures Build(SetWindowType(SetWindowProc(NewBuilder(), p), t), os) == Build(WindowBuilder(p, t), os)
  {
  }

  /** `WindowBuilder::build`: select the factory of the builder's type; a
      builder without a type fails before any creation call. */
  function Build(b: WindowBuilder, os: Os): (c: Creation)
    ensures b.windowType == NoType ==> c == Creation(Err(InvalidWindowType), [])
    ensures b.windowType == Main ==> c == MainFactory(b, os)
    ensures b.windowType == Transparent || b.windowType == Opaque ==> c == TemplateFactory(b.windowType, b, os)
    ensures c.result.Ok? ==>
              && b.windowType != NoType
              && c.result.value == Window(os.createdHwnd, b.windowType, None)
              && |c.calls| == 2
              && c.calls[1] == CreateWindowEx(RoleProps(b.windowType, os.screen))
    ensures c.result.Ok? <==>
              && b.windowType != NoType
              && os.moduleHandleOk && os.cursorOk && os.registerOk
              && (b.windowType == Main ==> os.createdHwnd != 0)
  {
    match b.windowType
    case Transparent => TemplateFactory(Transparent, b, os)
    case Opaque => TemplateFactory(Opaque, b, os)
    case Main => MainFactory(b, os)
    case NoType => Creation(Err(InvalidWindowType), [])
  }

  /** A failing build reports the first step that failed, in the order its
      factory takes them: the template factories load the cursor before the
      module handle, the main factory fetches the module handle first. */
  lemma BuildFirstError(b: WindowBuilder, os: Os)
    requires b.windowType != NoType
    ensures var r := Build(b, os).result;
            if b.windowType == Main then
              && (!os.moduleHandleOk ==> r == Err(ModuleHandleFailed))
              && (os.moduleHandleOk && !os.cursorOk ==> r == Err(LoadCursorFailed))
              && (os.moduleHandleOk && os.cursorOk && !os.registerOk ==> r == Err(RegisterClassFailed))
              && (os.moduleHandleOk && os.cursorOk && os.registerOk && os.createdHwnd == 0 ==>
                    r == Err(CreateWindowFailed))
            else
              && (!os.cursorOk ==> r == Err(LoadCursorFailed))
              && (os.cursorOk && !os.moduleHandleOk ==> r == Err(ModuleHandleFailed))
              && (os.cursorOk && os.moduleHandleOk && !os.registerOk ==> r == Err(RegisterClassFailed))
              && (os.cursorOk && os.moduleHandleOk && os.registerOk ==> r.Ok?)
  {
  }

  /** Every successful build registers the role's class with the builder's
      procedure before creating the window. */
  lemma BuildRegistersRoleClass(b: WindowBuilder, os: Os)
    requires Build(b, os).result.Ok?
    ensures var c := Build(b, os);
            && |c.calls| == 2
            && c.calls[0].RegisterClass?
            && c.calls[0].cls.proc == Some(b.windowProc)
            && c.calls[0].cls.className == RoleProps(b.windowType, os.screen).className
            && c.calls[0].cls.cursor == RoleClass(b.windowType, b.windowProc).cursor
  {
  }

  /** Of the three factories only the main one turns a null handle into an
      error; the other two hand out a window with handle 0. */
  lemma OnlyMainRejectsNullHandle(proc: WindowProc, screen: VirtualScreen)
    ensures var os := Os(true, true, true, 0, screen);
            && Build(WindowBuilder(proc, Main), os).result == Err(CreateWindowFailed)
            && Build(WindowBuilder(proc, Transparent), os).result == Ok(Window(0, Transparent, None))
            && Build(WindowBuilder(proc, Opaque), os).result == Ok(Window(0, Opaque, None))
  {
  }
}
