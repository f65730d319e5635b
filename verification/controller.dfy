/** `WindowController`: one mutex-guarded slot per window role, attaching
    windows to their slot and routing commands to the window in a slot. */
module Controller {
  import opened Common
  import opened Trace
  import opened WinFact
  import Drawing
  import Renderer

  /** `Command`: what a window procedure asks the controller to do. */
  datatype Command = ShowCommand | DrawOverlayCommand(rect: Option<Rect>) | FillBackgroundCommand(color: Color)

  /** A `Mutex<Option<Window>>`. A poisoned mutex can no longer be locked. */
  datatype Slot = Slot(window: Option<Window>, poisoned: bool)

  /** The names of the three slots. */
  datatype SlotName = TransparentSlot | OpaqueSlot | MainSlot

  /** The controller's window table. The shared Direct2D, DXGI and
      composition factories it also owns are not modelled. */
  datatype WindowController = WindowController(transparentWindow: Slot, opaqueWindow: Slot, mainWindow: Slot)

  /** `WindowController::new`: three empty, unpoisoned slots. */
  function NewController(): (c: WindowController)
    ensures forall n: SlotName :: SlotOf(c, n) == Slot(None, false)
  {
    WindowController(Slot(None, false), Slot(None, false), Slot(None, false))
  }

  function SlotOf(c: WindowController, n: SlotName): Slot {
    match n
    case TransparentSlot => c.transparentWindow
    case OpaqueSlot => c.opaqueWindow
    case MainSlot => c.mainWindow
  }

  /** Replaces the contents of one slot. */
  function WithSlot(c: WindowController, n: SlotName, s: Slot): (c': WindowController)
    ensures SlotOf(c', n) == s
    ensures forall m: SlotName :: m != n ==> SlotOf(c', m) == SlotOf(c, m)
  {
    match n
    case TransparentSlot => c.(transparentWindow := s)
    case OpaqueSlot => c.(opaqueWindow := s)
    case MainSlot => c.(mainWindow := s)
  }

  /** `window_ref`: the slot of a role; `NoType` has none. */
  function WindowRef(t: WindowType): (n: Option<SlotName>)
    ensures n.None? <==> t == NoType
  {
    match t
    case Transparent => Some(TransparentSlot)
    case Opaque => Some(OpaqueSlot)
    case Main => Some(MainSlot)
    case NoType => None
  }

  /** Distinct roles have distinct slots, so no two roles share a window. */
  lemma WindowRefInjective(t: WindowType, u: WindowType)
    requires t != NoType && WindowRef(t) == WindowRef(u)
    ensures t == u
  {
  }

  /** `locked_window`: the slot of a role, locked; fails for `NoType` and for
      a poisoned slot. */
  function LockedWindow(c: WindowController, t: WindowType): (r: Result<SlotName>)
    ensures t == NoType ==> r == Err(InvalidWindowType)
    ensures t != NoType && SlotOf(c, WindowRef(t).value).poisoned ==> r == Err(LockFailed)
    ensures r.Ok? <==> t != NoType && !SlotOf(c, WindowRef(t).value).poisoned
    ensures r.Ok? ==> Some(r.value) == WindowRef(t)
  {
    match WindowRef(t)
    case None => Err(InvalidWindowType)
    case Some(n) => if SlotOf(c, n).poisoned then Err(LockFailed) else Ok(n)
  }

  /** The result of `add_window`: its outcome and the controller afterwards. */
  datatype Attach = Attach(outcome: Outcome, controller: WindowController)

  /** `add_window`: give the window a drawing context created for its own
      handle (`host` is what the system reports about that window), then
      store it in its role's slot, replacing any window there. */
  function AddWindow(c: WindowController, w: Window, host: Renderer.HostWindow): (a: Attach)
    ensures a.outcome.Pass? <==> LockedWindow(c, w.windowType).Ok?
    ensures a.outcome.Fail? ==> a.controller == c && a.outcome.error == LockedWindow(c, w.windowType).error
    ensures a.outcome.Pass? ==>
              var n := WindowRef(w.windowType).value;
              && SlotOf(a.controller, n).window
                   == Some(Window(w.hwnd, w.windowType, Some(Drawing.NewDrawing(w.hwnd, host))))
              && OwnsDrawing(SlotOf(a.controller, n).window.value, w.windowType)
              && !SlotOf(a.controller, n).poisoned
              && forall m: SlotName :: m != n ==> SlotOf(a.controller, m) == SlotOf(c, m)
  {
    var w' := SetDrawing(w, Drawing.NewDrawing(w.hwnd, host));
    match LockedWindow(c, w'.windowType)
    case Err(e) => Attach(Fail(e), c)
    case Ok(n) => Attach(Pass, WithSlot(c, n, Slot(Some(w'), false)))
  }

  /** Every stored window sits in the slot of its own role and has a drawing
      context bound to its own handle. */
  predicate Valid(c: WindowController) {
    forall t: WindowType | t != NoType ::
      var s := SlotOf(c, WindowRef(t).value);
      s.window.Some? ==> OwnsDrawing(s.window.value, t)
  }

  /** The window has role `t` and a drawing context whose surface is bound to
      the window's own handle. */
  predicate OwnsDrawing(w: Window, t: WindowType) {
    w.windowType == t && w.drawing.Some? && w.drawing.value.render.target == w.hwnd
  }

  lemma NewControllerValid()
    ensures Valid(NewController())
  {
  }

  /** `add_window` keeps the table valid, whatever window is attached. */
  lemma AddWindowPreservesValid(c: WindowController, w: Window, host: Renderer.HostWindow)
    requires Valid(c)
    ensures Valid(AddWindow(c, w, host).controller)
  {
    var a := AddWindow(c, w, host);
    if a.outcome.Pass? {
      var n := WindowRef(w.windowType).value;
      forall t: WindowType | t != NoType
        ensures var s := SlotOf(a.controller, WindowRef(t).value);
                s.window.Some? ==> OwnsDrawing(s.window.value, t)
      {
        if WindowRef(t).value != n {
          assert SlotOf(a.controller, WindowRef(t).value) == SlotOf(c, WindowRef(t).value);
        } else {
          assert t == w.windowType;
        }
      }
    }
  }

  /** `dispatch`: lock the role's slot; with no window there do nothing and
      succeed, otherwise run the command on the window and return its error. */
  function Dispatch(c: WindowController, t: WindowType, cmd: Command, env: Drawing.PaintEnv): (e: Effect)
    ensures t == NoType ==> e == Effect(Fail(InvalidWindowType), [])
    ensures LockedWindow(c, t).Ok? && SlotOf(c, LockedWindow(c, t).value).window.None? ==>
              e == Effect(Pass, [])
    ensures LockedWindow(c, t).Ok? && SlotOf(c, LockedWindow(c, t).value).window.Some? ==>
              var w := SlotOf(c, LockedWindow(c, t).value).window.value;
              match cmd
              case ShowCommand => e == Effect(Pass, Show(w))
              case DrawOverlayCommand(rect) => e == WinFact.DrawOverlay(w, rect, env)
              case FillBackgroundCommand(color) => e == WinFact.FillBackground(w, color, env)
    ensures LockedWindow(c, t).Err? ==> e == Effect(Fail(LockedWindow(c, t).error), [])
  {
    match LockedWindow(c, t)
    case Err(err) => Effect(Fail(err), [])
    case Ok(n) =>
      match SlotOf(c, n).window
      case None => Effect(Pass, [])
      case Some(w) =>
        match cmd
        case ShowCommand => Effect(Pass, Show(w))
        case DrawOverlayCommand(rect) => WinFact.DrawOverlay(w, rect, env)
        case FillBackgroundCommand(color) => WinFact.FillBackground(w, color, env)
  }

  /** In a valid table a window reached by dispatch always has its drawing
      context, so dispatch never fails for want of one. */
  lemma DispatchNeverMissesDrawing(c: WindowController, t: WindowType, cmd: Command, env: Drawing.PaintEnv)
    requires Valid(c)
    ensures Dispatch(c, t, cmd, env).outcome != Fail(MissingDrawing)
  {
    if t != NoType && !SlotOf(c, WindowRef(t).value).poisoned {
      var s := SlotOf(c, WindowRef(t).value);
      if s.window.Some? {
        assert s.window.value.drawing.Some?;
        match cmd
        case ShowCommand =>
        case DrawOverlayCommand(rect) =>
          var d := s.window.value.drawing.value;
          if env.hdc != 0 && rect.Some? && env.failing != {} {
            Drawing.DrawOverlayBrackets(d, s.window.value.hwnd, rect, env);
          }
        case FillBackgroundCommand(color) =>
      }
    }
  }

  /** Attaching a window and then dispatching to its role reaches that very
      window: its handle is the one painted, with the drawing context created
      for it. */
  lemma AttachThenDispatch(c: WindowController, w: Window, host: Renderer.HostWindow,
                           cmd: Command, env: Drawing.PaintEnv)
    requires LockedWindow(c, w.windowType).Ok?
    ensures var c' := AddWindow(c, w, host).controller;
            var w' := Window(w.hwnd, w.windowType, Some(Drawing.NewDrawing(w.hwnd, host)));
            match cmd
            case ShowCommand => Dispatch(c', w.windowType, cmd, env) == Effect(Pass, Show(w'))
            case DrawOverlayCommand(rect) =>
              Dispatch(c', w.windowType, cmd, env)
                == Drawing.DrawOverlay(Drawing.NewDrawing(w.hwnd, host), w.hwnd, rect, env)
            case FillBackgroundCommand(color) =>
              Dispatch(c', w.windowType, cmd, env)
                == Drawing.FillBackground(Drawing.NewDrawing(w.hwnd, host), w.hwnd, color, env)
  {
  }
}
