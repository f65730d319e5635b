/** The window procedures: the selection rectangle the transparent window's
    procedure keeps across messages, the `LPARAM` coordinate decoders, and the
    commands both procedures hand to the controller. */
module Handler {
  import opened Common
  import opened WinFact
  import Controller
  import Drawing
  import Renderer
  import Trace

  // Window messages, key and button codes (WinUser.h).
  const WmCreate: nat := 0x0001
  const WmDestroy: nat := 0x0002
  const WmPaint: nat := 0x000F
  const WmEraseBkgnd: nat := 0x0014
  const WmKeyDown: nat := 0x0100
  const WmMouseMove: nat := 0x0200
  const WmLButtonDown: nat := 0x0201
  const WmLButtonUp: nat := 0x0202
  const MkLButton: nat := 0x0001
  const VkEscape: nat := 0x1B

  const WordModulus: int := 0x1_0000
  const DwordModulus: int := 0x1_0000_0000

  /** `update_rect`: move the corner opposite the anchor to `(x, y)`. Each axis
      either swaps and overwrites (when the pointer is back on the anchor) or
      overwrites the far edge; both branches leave the anchor where it was. */
  function UpdateRect(r: Rect, x: int, y: int): (r': Rect)
    ensures r'.left == r.left && r'.top == r.top
    ensures r'.right == x && r'.bottom == y
  {
    var h := if x == r.left then r.(left := x, right := r.left) else r.(right := x);
    if y == h.top then h.(top := y, bottom := h.top) else h.(bottom := y)
  }

  /** Moving to the same point twice is the same as moving there once. */
  lemma UpdateRectIdempotent(r: Rect, x: int, y: int)
    ensures UpdateRect(UpdateRect(r, x, y), x, y) == UpdateRect(r, x, y)
  {
  }

  /** The horizontal edges depend only on the old horizontal edges and `x`, the
      vertical edges only on the old vertical edges and `y`. */
  lemma UpdateRectAxesIndependent(r: Rect, s: Rect, x: int, y: int, x': int, y': int)
    ensures r.left == s.left && r.right == s.right ==>
              UpdateRect(r, x, y).left == UpdateRect(s, x, y').left
              && UpdateRect(r, x, y).right == UpdateRect(s, x, y').right
    ensures r.top == s.top && r.bottom == s.bottom ==>
              UpdateRect(r, x, y).top == UpdateRect(s, x', y).top
              && UpdateRect(r, x, y).bottom == UpdateRect(s, x', y).bottom
  {
  }

  /** The rectangle is not normalised: dragging up and to the left of the
      anchor leaves `right < left` and `bottom < top`. */
  lemma UpdateRectNotNormalised()
    ensures UpdateRect(Rect(100, 100, 100, 100), 50, 50) == Rect(100, 100, 50, 50)
  {
  }

  /** `as i16` of a 16-bit pattern: two's-complement sign extension. */
  function AsI16(u: int): (s: int)
    requires 0 <= u < WordModulus
    ensures -0x8000 <= s < 0x8000
    ensures (s - u) % WordModulus == 0
  {
    if u < 0x8000 then u else u - WordModulus
  }

  /** `get_x_lparam!`: the sign-extended low word. `& 0xFFFF` on a
      two's-complement `isize` is the non-negative remainder. */
  function GetXLparam(lparam: int): (x: int)
    ensures -0x8000 <= x < 0x8000
    ensures (x - lparam) % WordModulus == 0
  {
    AsI16(lparam % WordModulus)
  }

  /** `get_y_lparam!`: the sign-extended second word. The arithmetic shift by
      16 of an `isize` is floor division by 2^16. */
  function GetYLparam(lparam: int): (y: int)
    ensures -0x8000 <= y < 0x8000
    ensures (y - lparam / WordModulus) % WordModulus == 0
  {
    AsI16((lparam / WordModulus) % WordModulus)
  }

  /** `MAKELPARAM(x, y)`: how the system packs a pointer position, the low word
      holding `x` and the high word `y`. */
  function PackLparam(x: int, y: int): (l: int)
    ensures 0 <= l < DwordModulus
  {
    x % WordModulus + WordModulus * (y % WordModulus)
  }

  lemma {:induction false} SplitWords(a: int, b: int)
    requires 0 <= a < WordModulus
    ensures (a + WordModulus * b) % WordModulus == a
    ensures (a + WordModulus * b) / WordModulus == b
  {
  }

  lemma {:induction false} SignExtendRoundTrip(v: int)
    requires -0x8000 <= v < 0x8000
    ensures AsI16(v % WordModulus) == v
  {
    if v < 0 {
      assert v % WordModulus == v + WordModulus;
    }
  }

  /** Decoding a packed 16-bit position gives the position back. */
  lemma {:induction false} DecodePacked(x: int, y: int)
    requires -0x8000 <= x < 0x8000 && -0x8000 <= y < 0x8000
    ensures GetXLparam(PackLparam(x, y)) == x
    ensures GetYLparam(PackLparam(x, y)) == y
  {
    var a := x % WordModulus;
    var b := y % WordModulus;
    SplitWords(a, b);
    SignExtendRoundTrip(x);
    SignExtendRoundTrip(y);
  }

  /** Packing the decoded position gives back the low 32 bits of the `LPARAM`:
      the decoders read exactly those bits and lose none of them. */
  lemma {:induction false} PackDecoded(lparam: int)
    ensures PackLparam(GetXLparam(lparam), GetYLparam(lparam)) == lparam % DwordModulus
  {
    var lo := lparam % WordModulus;
    var q := lparam / WordModulus;
    var hi := q % WordModulus;
    assert lparam == lo + WordModulus * q;
    assert q == hi + WordModulus * (q / WordModulus);
    assert lparam == lo + WordModulus * hi + DwordModulus * (q / WordModulus);
    assert GetXLparam(lparam) % WordModulus == lo;
    assert GetYLparam(lparam) % WordModulus == hi;
  }

  /** What a window procedure returns: an `LRESULT` of its own, or whatever the
      ANSI or wide default window procedure returns. */
  datatype Reply = Returned(value: int) | DefaultAnsi | DefaultWide

  /** The side effects of one message. */
  datatype Action =
    | PostQuit(exitCode: int)
    | RedrawInternalPaint
    | Dispatch(role: WindowType, command: Controller.Command)

  datatype Response = Response(reply: Reply, actions: seq<Action>)

  /** One message: `msg` and `wparam` are unsigned, `lparam` is a signed
      pointer-sized integer. */
  datatype Message = Message(msg: nat, wparam: nat, lparam: int)

  /** The selection slot `win_proc` keeps between messages. */
  type Selection = Option<Rect>

  datatype Transition = Transition(response: Response, selection: Selection)

  /** A mouse move with the left button held (`MK_LBUTTON` is bit 0). */
  predicate HeldMove(m: Message) {
    m.msg == WmMouseMove && m.wparam % 2 == MkLButton
  }

  /** Messages that overwrite the selection outright. */
  predicate Resets(m: Message) {
    m.msg == WmCreate || m.msg == WmLButtonDown
  }

  /** `win_proc`. `attached` says whether the window carries the controller
      pointer; it does not while `WM_CREATE` is delivered, since the pointer is
      stored only when the window is added to the controller. */
  function WinProc(attached: bool, sel: Selection, m: Message): (t: Transition)
    ensures !attached ==> t == Transition(Response(DefaultAnsi, []), sel)
    ensures attached && m.msg == WmCreate ==> t == Transition(Response(Returned(0), []), None)
    ensures attached && m.msg == WmLButtonDown ==>
              var x := GetXLparam(m.lparam);
              var y := GetYLparam(m.lparam);
              t == Transition(Response(Returned(0), []), Some(Rect(x, y, x, y)))
    ensures attached && m.msg == WmMouseMove ==>
              && t.response.reply == Returned(0)
              && (HeldMove(m) && sel.Some? ==>
                    && t.selection == Some(Rect(sel.value.left, sel.value.top,
                                                GetXLparam(m.lparam), GetYLparam(m.lparam)))
                    && t.response.actions == [RedrawInternalPaint])
              && (!HeldMove(m) || sel.None? ==> t.selection == sel && t.response.actions == [])
    ensures attached && m.msg == WmLButtonUp ==> t == Transition(Response(Returned(0), []), sel)
    ensures attached && m.msg == WmPaint ==>
              t == Transition(Response(Returned(0), [Dispatch(Transparent, Controller.DrawOverlayCommand(sel))]), sel)
    ensures attached && m.msg == WmKeyDown ==>
              && t.selection == sel && t.response.reply == Returned(0)
              && (t.response.actions == [PostQuit(0)] <==> m.wparam == VkEscape)
              && (t.response.actions == [] <==> m.wparam != VkEscape)
    ensures attached && m.msg == WmDestroy ==> t == Transition(Response(Returned(0), [PostQuit(0)]), sel)
    ensures attached && m.msg !in {WmCreate, WmLButtonDown, WmMouseMove, WmLButtonUp, WmPaint, WmKeyDown, WmDestroy} ==>
              t == Transition(Response(DefaultAnsi, []), sel)
    ensures !Resets(m) ==> (t.selection.Some? <==> sel.Some?)
    ensures !Resets(m) && sel.Some? ==>
              t.selection.value.left == sel.value.left && t.selection.value.top == sel.value.top
  {
    if !attached then Transition(Response(DefaultAnsi, []), sel)
    else if m.msg == WmCreate then Transition(Response(Returned(0), []), None)
    else if m.msg == WmKeyDown then
      Transition(Response(Returned(0), if m.wparam == VkEscape then [PostQuit(0)] else []), sel)
    else if m.msg in {WmMouseMove, WmLButtonDown, WmLButtonUp} then
      var x := GetXLparam(m.lparam);
      var y := GetYLparam(m.lparam);
      if m.msg == WmLButtonDown then
        Transition(Response(Returned(0), []), Some(Rect(x, y, x, y)))
      else if m.msg == WmMouseMove && m.wparam % 2 == MkLButton && sel.Some? then
        Transition(Response(Returned(0), [RedrawInternalPaint]), Some(UpdateRect(sel.value, x, y)))
      else
        Transition(Response(Returned(0), []), sel)
    else if m.msg == WmPaint then
      Transition(Response(Returned(0), [Dispatch(Transparent, Controller.DrawOverlayCommand(sel))]), sel)
    else if m.msg == WmDestroy then
      Transition(Response(Returned(0), [PostQuit(0)]), sel)
    else
      Transition(Response(DefaultAnsi, []), sel)
  }

  /** `opaque_handler`. Of its two `WM_ERASEBKGND` arms only the first can
      match, so erasing the background answers 1. */
  function OpaqueHandler(attached: bool, m: Message): (r: Response)
    ensures !attached ==> r == Response(DefaultAnsi, [])
    ensures attached && m.msg == WmPaint ==>
              r == Response(Returned(0), [Dispatch(Opaque, Controller.FillBackgroundCommand(OpaqueWhite))])
    ensures attached && m.msg == WmEraseBkgnd ==> r == Response(Returned(1), [])
    ensures attached && m.msg == WmKeyDown ==>
              && r.reply == Returned(0)
              && (r.actions == [PostQuit(0)] <==> m.wparam == VkEscape)
              && (r.actions == [] <==> m.wparam != VkEscape)
    ensures attached && m.msg == WmDestroy ==> r == Response(Returned(0), [PostQuit(0)])
    ensures attached && m.msg !in {WmPaint, WmEraseBkgnd, WmKeyDown, WmDestroy} ==>
              r == Response(DefaultWide, [])
    ensures forall i :: 0 <= i < |r.actions| ==> r.actions[i].Dispatch? ==> r.actions[i].role == Opaque
  {
    if !attached then Response(DefaultAnsi, [])
    else if m.msg == WmKeyDown then
      Response(Returned(0), if m.wparam == VkEscape then [PostQuit(0)] else [])
    else if m.msg == WmDestroy then Response(Returned(0), [PostQuit(0)])
    else if m.msg == WmPaint then
      Response(Returned(0), [Dispatch(Opaque, Controller.FillBackgroundCommand(OpaqueWhite))])
    else if m.msg == WmEraseBkgnd then Response(Returned(1), [])
    else Response(DefaultWide, [])
  }

  /** The selection after `win_proc` has handled `ms` in order on an attached
      window. */
  function RunWinProc(sel: Selection, ms: seq<Message>): Selection
    decreases |ms|
  {
    if |ms| == 0 then sel
    else WinProc(true, RunWinProc(sel, ms[..|ms| - 1]), ms[|ms| - 1]).selection
  }

  /** Handling `a` then `b` is handling `a + b`. */
  lemma {:induction false} RunConcat(sel: Selection, a: seq<Message>, b: seq<Message>)
    ensures RunWinProc(sel, a + b) == RunWinProc(RunWinProc(sel, a), b)
    decreases |b|
  {
    if |b| == 0 {
      assert a + b == a;
    } else {
      assert (a + b)[..|a + b| - 1] == a + b[..|b| - 1];
      RunConcat(sel, a, b[..|b| - 1]);
    }
  }

  /** A position on the surface. */
  datatype Point = Point(x: int, y: int)

  /** The position of the last move in `ms` made with the left button held. */
  function LastHeldMove(ms: seq<Message>): (p: Option<Point>)
    decreases |ms|
  {
    if |ms| == 0 then None
    else if HeldMove(ms[|ms| - 1]) then
      Some(Point(GetXLparam(ms[|ms| - 1].lparam), GetYLparam(ms[|ms| - 1].lparam)))
    else LastHeldMove(ms[..|ms| - 1])
  }

  /** The selection a drag from `r` ends with: anchored at `r`'s corner, its
      opposite corner at the last held move, or `r` itself if there was none. */
  function Dragged(r: Rect, last: Option<Point>): Rect {
    match last
    case None => r
    case Some(p) => Rect(r.left, r.top, p.x, p.y)
  }

  /** Without presses or re-creation, the anchor survives every move and
      release, and the far corner follows the last held move. */
  lemma {:induction false} DragFromAnchor(r: Rect, ms: seq<Message>)
    requires forall i :: 0 <= i < |ms| ==> !Resets(ms[i])
    ensures RunWinProc(Some(r), ms) == Some(Dragged(r, LastHeldMove(ms)))
    decreases |ms|
  {
    if |ms| != 0 {
      var init := ms[..|ms| - 1];
      DragFromAnchor(r, init);
      var last := LastHeldMove(init);
      if !HeldMove(ms[|ms| - 1]) {
        assert LastHeldMove(ms) == last;
      }
    }
  }

  /** Without a press nothing is ever selected. */
  lemma {:induction false} NoPressNoSelection(ms: seq<Message>)
    requires forall i :: 0 <= i < |ms| ==> ms[i].msg != WmLButtonDown
    ensures RunWinProc(None, ms) == None
    decreases |ms|
  {
    if |ms| != 0 {
      NoPressNoSelection(ms[..|ms| - 1]);
    }
  }

  /** After the last press, and no re-creation since, the selection is the
      rectangle from the press position to the last held move after it. */
  lemma PressThenDrag(sel: Selection, ms: seq<Message>, i: nat)
    requires i < |ms| && ms[i].msg == WmLButtonDown
    requires forall j :: i < j < |ms| ==> !Resets(ms[j])
    ensures var x := GetXLparam(ms[i].lparam);
            var y := GetYLparam(ms[i].lparam);
            RunWinProc(sel, ms) == Some(Dragged(Rect(x, y, x, y), LastHeldMove(ms[i + 1..])))
  {
    var x := GetXLparam(ms[i].lparam);
    var y := GetYLparam(ms[i].lparam);
    assert ms == ms[..i + 1] + ms[i + 1..];
    RunConcat(sel, ms[..i + 1], ms[i + 1..]);
    assert ms[..i + 1][..i] == ms[..i];
    assert RunWinProc(sel, ms[..i + 1]) == Some(Rect(x, y, x, y));
    DragFromAnchor(Rect(x, y, x, y), ms[i + 1..]);
  }

  /** A press at (100, 100) followed by a held move to (50, 50) selects a
      rectangle whose right and bottom lie left of and above its left and
      top. */
  lemma DragUpLeftNotNormalised(sel: Selection)
    ensures RunWinProc(sel, [Message(WmLButtonDown, 0, PackLparam(100, 100)),
                             Message(WmMouseMove, MkLButton, PackLparam(50, 50))])
            == Some(Rect(100, 100, 50, 50))
  {
    var ms := [Message(WmLButtonDown, 0, PackLparam(100, 100)),
               Message(WmMouseMove, MkLButton, PackLparam(50, 50))];
    DecodePacked(100, 100);
    DecodePacked(50, 50);
    assert ms[..1] == [ms[0]];
    assert [ms[0]][..0] == [];
  }

  /** Painting the transparent window, once a window of that role is attached
      and the device succeeds, draws the dimming layer whose mask leaves out
      exactly the current selection; the reply is 0 whatever the paint did. */
  lemma PaintShowsSelection(c: Controller.WindowController, w: Window, host: Renderer.HostWindow,
                            r: Rect, env: Drawing.PaintEnv)
    requires w.windowType == Transparent
    requires Controller.LockedWindow(c, Transparent).Ok?
    requires env.hdc != 0 && env.failing == {}
    ensures var t := WinProc(true, Some(r), Message(WmPaint, 0, 0));
            && t.response.reply == Returned(0)
            && t.response.actions[0].Dispatch?
            && var a := t.response.actions[0];
               var e := Controller.Dispatch(Controller.AddWindow(c, w, host).controller, a.role, a.command, env);
               && e.outcome.Pass?
               && Trace.PushLayer(Drawing.MaskLayer(env.size, r)) in e.trace
  {
    var c' := Controller.AddWindow(c, w, host).controller;
    Controller.AttachThenDispatch(c, w, host, Controller.DrawOverlayCommand(Some(r)), env);
    Drawing.DrawOverlayBrackets(Drawing.NewDrawing(w.hwnd, host), w.hwnd, Some(r), env);
  }
}
