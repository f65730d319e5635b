/** `Drawing`: the paint bracket around a frame and the two command sequences
    drawn inside it, the spotlight overlay and the plain background fill. */
module Drawing {
  import opened Common
  import opened Trace
  import Renderer

  /** A window's drawing context; it owns the window's `Render`. */
  datatype Drawing = Drawing(render: Renderer.Render)

  /** `Drawing::new`: the drawing context of a render surface freshly created
      for the window `hwnd`. */
  function NewDrawing(hwnd: int, host: Renderer.HostWindow): (d: Drawing)
    ensures d.render.target == hwnd
    ensures d.render.dpiX == host.dpiX && d.render.dpiY == host.dpiY
    ensures d.render.swapChain.bufferCount == 2
  {
    Drawing(Renderer.NewRender(hwnd, host))
  }

  /** What the host and the device report while one window is painted: the
      device context `BeginPaint` returns (0 is null), the render target size
      `GetSize` returns, and which fallible Direct2D calls fail. */
  datatype PaintEnv = PaintEnv(hdc: int, size: Size, failing: set<CallSite>)

  /** The window is validated exactly once: the trace opens with `BeginPaint`,
      closes with `EndPaint`, and holds no other paint bracket event. */
  predicate PaintBracketed(t: seq<Event>, hwnd: int) {
    && |t| >= 2
    && t[0] == BeginPaint(hwnd)
    && t[|t| - 1] == EndPaint(hwnd)
    && Count(t, BeginPaintKind) == 1
    && Count(t, EndPaintKind) == 1
  }

  /** `provide_env`: call `BeginPaint`; on a null device context return an
      error at once, otherwise run the closure (whose result and calls are
      `body`), call `EndPaint` whatever the closure returned, and return the
      closure's result. */
  function ProvideEnv(hwnd: int, hdc: int, body: Effect): (r: Effect)
    ensures hdc == 0 ==> r.outcome == Fail(NullPaintDc) && r.trace == [BeginPaint(hwnd)]
    ensures hdc != 0 ==> r.outcome == body.outcome
    ensures hdc != 0 ==> |r.trace| == |body.trace| + 2
    ensures hdc != 0 ==> r.trace[0] == BeginPaint(hwnd) && r.trace[|r.trace| - 1] == EndPaint(hwnd)
    ensures hdc != 0 ==> forall i :: 0 <= i < |body.trace| ==> r.trace[1 + i] == body.trace[i]
  {
    if hdc == 0 then
      Effect(Fail(NullPaintDc), [BeginPaint(hwnd)])
    else
      Effect(body.outcome, [BeginPaint(hwnd)] + body.trace + [EndPaint(hwnd)])
  }

  /** A closure free of paint events gets a proper paint bracket. */
  lemma ProvideEnvBracketed(hwnd: int, hdc: int, body: Effect)
    requires hdc != 0
    requires Count(body.trace, BeginPaintKind) == 0 && Count(body.trace, EndPaintKind) == 0
    ensures PaintBracketed(ProvideEnv(hwnd, hdc, body).trace, hwnd)
    ensures forall k :: k !in {BeginPaintKind, EndPaintKind} ==>
              Count(ProvideEnv(hwnd, hdc, body).trace, k) == Count(body.trace, k)
    ensures LayersBalanced(body.trace) ==> LayersBalanced(ProvideEnv(hwnd, hdc, body).trace)
  {
    var r := ProvideEnv(hwnd, hdc, body);
    assert r.trace == [BeginPaint(hwnd)] + (body.trace + [EndPaint(hwnd)]);
    forall k: Kind ensures Count(r.trace, k) == Indicator(BeginPaint(hwnd), k) + Count(body.trace, k) + Indicator(EndPaint(hwnd), k) {
      CountConcat([BeginPaint(hwnd)], body.trace + [EndPaint(hwnd)], k);
      CountConcat(body.trace, [EndPaint(hwnd)], k);
      CountOne(BeginPaint(hwnd), k);
      CountOne(EndPaint(hwnd), k);
    }
    if LayersBalanced(body.trace) {
      CountOne(EndPaint(hwnd), PushLayerKind);
      CountOne(EndPaint(hwnd), PopLayerKind);
      NoLayersBalanced([EndPaint(hwnd)]);
      BalancedConcat(body.trace, [EndPaint(hwnd)], 0);
      assert BalancedFrom(r.trace, 0);
    }
  }

  /** Opacity of the overlay layer. */
  const MaskOpacity: real := 0.6

  /** Flattening tolerance of the geometry combination. */
  const FlatteningTolerance: real := 0.001

  /** The layer mask: the whole surface minus the selection, winding fill. */
  function ExcludeMask(size: Size, sel: Rect): Geometry {
    Combined(RectangleGeometry(FullSurface(size)), RectangleGeometry(sel),
             CombineExclude, FlatteningTolerance, Winding)
  }

  /** The layer parameters of the overlay. */
  function MaskLayer(size: Size, sel: Rect): LayerParams {
    LayerParams(FullSurface(size), ExcludeMask(size, sel), PerPrimitive,
                MaskOpacity, OpaqueBlack, LayerOptionsNone)
  }

  /** The calls the overlay closure issues for a present selection, in program
      order: resource creation, then the masked fill. */
  function OverlaySteps(size: Size, sel: Rect): seq<Step> {
    OverlayResources(size, sel) + MaskedFill(size, sel)
  }

  /** The brush, the geometries and the layer the overlay creates. */
  function OverlayResources(size: Size, sel: Rect): seq<Step> {
    [ Always(CreateBrush(OpaqueBlack)),
      MayFail(FullRectGeometry, CreateRectGeometry(FullSurface(size))),
      MayFail(ExcludedRectGeometry, CreateRectGeometry(sel)),
      MayFail(PathGeometry, CreatePathGeometry),
      MayFail(SinkOpen, OpenSink),
      Always(SetFillMode(Winding)),
      MayFail(GeometryCombine, CombineWithGeometry(RectangleGeometry(FullSurface(size)),
                                                   RectangleGeometry(sel),
                                                   CombineExclude, FlatteningTolerance)),
      MayFail(SinkClose, CloseSink),
      MayFail(LayerCreation, CreateLayer(size)) ]
  }

  /** The fill of the whole surface through the mask layer. */
  function MaskedFill(size: Size, sel: Rect): seq<Step> {
    [ Always(PushLayer(MaskLayer(size, sel))),
      Always(FillRectangle(FullSurface(size), OpaqueBlack)),
      Always(PopLayer) ]
  }

  /** The first fallible call, in program order, that fails. */
  function FirstFailing(failing: set<CallSite>): (s: CallSite)
    requires failing != {}
    ensures s in failing
  {
    if FullRectGeometry in failing then FullRectGeometry
    else if ExcludedRectGeometry in failing then ExcludedRectGeometry
    else if PathGeometry in failing then PathGeometry
    else if SinkOpen in failing then SinkOpen
    else if GeometryCombine in failing then GeometryCombine
    else if SinkClose in failing then SinkClose
    else LastSiteFails(failing); LayerCreation
  }

  /** A non-empty set of call sites without the first six holds the seventh. */
  lemma LastSiteFails(failing: set<CallSite>)
    requires failing != {}
    requires FullRectGeometry !in failing && ExcludedRectGeometry !in failing
    requires PathGeometry !in failing && SinkOpen !in failing
    requires GeometryCombine !in failing && SinkClose !in failing
    ensures LayerCreation in failing
  {
    var x :| x in failing;
    assert x.FullRectGeometry? || x.ExcludedRectGeometry? || x.PathGeometry? || x.SinkOpen?
        || x.GeometryCombine? || x.SinkClose? || x.LayerCreation?;
  }

  /** The overlay closure: nothing for an absent selection, otherwise the
      overlay calls up to the first failing one. */
  function OverlayCommands(rect: Option<Rect>, env: PaintEnv): (e: Effect)
    ensures rect.None? ==> e == Effect(Pass, [])
    ensures rect.Some? ==> (e.outcome.Pass? <==> env.failing == {})
  {
    match rect
    case None => Effect(Pass, [])
    case Some(sel) =>
      OverlayRunPasses(env.size, sel, env.failing);
      Run(OverlaySteps(env.size, sel), env.failing)
  }

  /** Every call site belongs to some overlay step, so the overlay's chain
      passes exactly when no site fails. */
  lemma OverlayRunPasses(size: Size, sel: Rect, failing: set<CallSite>)
    ensures Run(OverlaySteps(size, sel), failing).outcome.Pass? <==> failing == {}
  {
    if failing != {} {
      FirstIndexIsFirst(size, sel, failing);
    }
  }

  /** Index of `FirstFailing(failing)` in `OverlaySteps`. */
  function FirstIndex(failing: set<CallSite>): (i: nat)
    requires failing != {}
    ensures i < 9
  {
    match FirstFailing(failing)
    case FullRectGeometry => 1
    case ExcludedRectGeometry => 2
    case PathGeometry => 3
    case SinkOpen => 4
    case GeometryCombine => 6
    case SinkClose => 7
    case LayerCreation => 8
  }

  /** `FirstIndex` is the first overlay step that fails. */
  lemma FirstIndexIsFirst(size: Size, sel: Rect, failing: set<CallSite>)
    requires failing != {}
    ensures var steps := OverlaySteps(size, sel);
            && Fails(steps[FirstIndex(failing)], failing)
            && steps[FirstIndex(failing)].site == FirstFailing(failing)
            && forall i :: 0 <= i < FirstIndex(failing) ==> !Fails(steps[i], failing)
  {
  }

  /** Up to the layer creation the overlay issues only resource calls, and
      after it nothing that can fail. */
  lemma OverlayStepKinds(size: Size, sel: Rect)
    ensures |OverlayResources(size, sel)| == 9 && |OverlaySteps(size, sel)| == 12
    ensures forall i :: 0 <= i < 9 ==> KindOf(OverlaySteps(size, sel)[i].event) == ResourceKind
    ensures forall i :: 0 <= i < 9 ==> KindOf(OverlayResources(size, sel)[i].event) == ResourceKind
    ensures forall i :: 9 <= i < 12 ==> OverlaySteps(size, sel)[i].Always?
  {
  }

  /** The calls of a successful overlay closure. */
  lemma OverlaySuccessTrace(sel: Rect, env: PaintEnv)
    requires env.failing == {}
    ensures OverlayCommands(Some(sel), env).outcome.Pass?
    ensures OverlayCommands(Some(sel), env).trace
            == Events(OverlayResources(env.size, sel)) + MaskedFillEvents(env.size, sel)
  {
    EventsConcat(OverlayResources(env.size, sel), MaskedFill(env.size, sel));
  }

  function MaskedFillEvents(size: Size, sel: Rect): seq<Event> {
    [PushLayer(MaskLayer(size, sel)), FillRectangle(FullSurface(size), OpaqueBlack), PopLayer]
  }

  /** A successful overlay closure issues one full-surface fill inside exactly
      one layer masked by the whole surface minus the selection. */
  lemma OverlaySuccessShape(sel: Rect, env: PaintEnv)
    requires env.failing == {}
    ensures var e := OverlayCommands(Some(sel), env);
            && e.outcome.Pass?
            && DrawCommandsOnly(e.trace)
            && LayersBalanced(e.trace)
            && |e.trace| == 12
            && e.trace[9..] == [PushLayer(MaskLayer(env.size, sel)),
                                FillRectangle(FullSurface(env.size), OpaqueBlack),
                                PopLayer]
            && Count(e.trace, PushLayerKind) == 1
            && Count(e.trace, FillKind) == 1
            && Count(e.trace, PopLayerKind) == 1
  {
    var e := OverlayCommands(Some(sel), env);
    var head := Events(OverlayResources(env.size, sel));
    var tail := MaskedFillEvents(env.size, sel);
    OverlaySuccessTrace(sel, env);
    OverlayStepKinds(env.size, sel);
    SuccessCounts(head, tail);
    assert e.trace[9..] == tail;
  }

  lemma SuccessCounts(head: seq<Event>, tail: seq<Event>)
    requires forall i :: 0 <= i < |head| ==> KindOf(head[i]) == ResourceKind
    requires |tail| == 3 && tail[0].PushLayer? && tail[1].FillRectangle? && tail[2].PopLayer?
    ensures DrawCommandsOnly(head + tail)
    ensures LayersBalanced(head + tail)
    ensures Count(head + tail, PushLayerKind) == 1
    ensures Count(head + tail, FillKind) == 1
    ensures Count(head + tail, PopLayerKind) == 1
  {
    SuccessDrawCommandsOnly(head, tail);
    SuccessBalanced(head, tail);
    SuccessKindCount(head, tail, PushLayerKind);
    SuccessKindCount(head, tail, FillKind);
    SuccessKindCount(head, tail, PopLayerKind);
  }

  lemma SuccessKindCount(head: seq<Event>, tail: seq<Event>, k: Kind)
    requires forall i :: 0 <= i < |head| ==> KindOf(head[i]) == ResourceKind
    requires |tail| == 3 && k != ResourceKind
    ensures Count(head + tail, k) == Indicator(tail[0], k) + Indicator(tail[1], k) + Indicator(tail[2], k)
  {
    assert tail == [tail[0], tail[1], tail[2]];
    CountAbsent(head, k);
    CountThree(tail[0], tail[1], tail[2], k);
    CountConcat(head, tail, k);
  }

  lemma SuccessBalanced(head: seq<Event>, tail: seq<Event>)
    requires forall i :: 0 <= i < |head| ==> KindOf(head[i]) == ResourceKind
    requires |tail| == 3 && tail[0].PushLayer? && tail[1].FillRectangle? && tail[2].PopLayer?
    ensures LayersBalanced(head + tail)
  {
    assert tail == [tail[0], tail[1], tail[2]];
    CountAbsent(head, PushLayerKind);
    CountAbsent(head, PopLayerKind);
    NoLayersBalanced(head);
    TripleBalanced(tail[0], tail[1], tail[2]);
    BalancedConcat(head, tail, 0);
  }

  lemma SuccessDrawCommandsOnly(head: seq<Event>, tail: seq<Event>)
    requires forall i :: 0 <= i < |head| ==> KindOf(head[i]) == ResourceKind
    requires |tail| == 3 && tail[0].PushLayer? && tail[1].FillRectangle? && tail[2].PopLayer?
    ensures DrawCommandsOnly(head + tail)
  {
    var t := head + tail;
    forall i | 0 <= i < |t| ensures IsDrawCommand(t[i]) {
      if i < |head| { assert t[i] == head[i]; } else { assert t[i] == tail[i - |head|]; }
    }
  }

  lemma TripleBalanced(push: Event, fill: Event, pop: Event)
    requires push.PushLayer? && fill.FillRectangle? && pop.PopLayer?
    ensures LayersBalanced([push, fill, pop])
  {
    var t := [push, fill, pop];
    assert BalancedFrom(t[3..], 0);
    assert BalancedFrom(t[2..], 1);
    assert BalancedFrom(t[1..], 1);
  }

  /** A failing overlay closure returns the error of the first failing call
      and issues neither a layer nor a fill. */
  lemma OverlayFailureShape(sel: Rect, env: PaintEnv)
    requires env.failing != {}
    ensures var e := OverlayCommands(Some(sel), env);
            && e.outcome == Fail(DeviceCallFailed(FirstFailing(env.failing)))
            && DrawCommandsOnly(e.trace)
            && LayersBalanced(e.trace)
            && Count(e.trace, PushLayerKind) == 0
            && Count(e.trace, FillKind) == 0
            && Count(e.trace, PopLayerKind) == 0
  {
    var e := OverlayCommands(Some(sel), env);
    OverlayFailureError(sel, env);
    OverlayStepKinds(env.size, sel);
    FailedRunResources(OverlaySteps(env.size, sel), env.failing, 9);
    CountAbsent(e.trace, PushLayerKind);
    CountAbsent(e.trace, FillKind);
    CountAbsent(e.trace, PopLayerKind);
    NoLayersBalanced(e.trace);
  }

  /** A failing overlay stops at the first failing call, in program order. */
  lemma OverlayFailureError(sel: Rect, env: PaintEnv)
    requires env.failing != {}
    ensures OverlayCommands(Some(sel), env).outcome == Fail(DeviceCallFailed(FirstFailing(env.failing)))
  {
    FirstIndexIsFirst(env.size, sel, env.failing);
    RunStopsAtFirstFailure(OverlaySteps(env.size, sel), env.failing, FirstIndex(env.failing));
  }

  /** A failed run of resource calls followed by infallible calls issued only
      resource calls. */
  lemma FailedRunResources(steps: seq<Step>, failing: set<CallSite>, n: nat)
    requires n <= |steps|
    requires forall i :: 0 <= i < n ==> KindOf(steps[i].event) == ResourceKind
    requires forall i :: n <= i < |steps| ==> steps[i].Always?
    requires Run(steps, failing).outcome.Fail?
    ensures forall i :: 0 <= i < |Run(steps, failing).trace| ==>
              KindOf(Run(steps, failing).trace[i]) == ResourceKind
  {
    RunFailurePrefix(steps, failing, n);
  }

  /** The background closure: one full-surface fill in the given colour. */
  function FillCommands(color: Color, size: Size): (e: Effect)
    ensures e.outcome.Pass?
    ensures DrawCommandsOnly(e.trace)
    ensures FillRectangle(FullSurface(size), color) in e.trace
  {
    Effect(Pass, [CreateBrush(color), FillRectangle(FullSurface(size), color)])
  }

  /** `Drawing::draw_overlay`: the overlay closure inside a frame inside the
      paint bracket. */
  function DrawOverlay(d: Drawing, hwnd: int, rect: Option<Rect>, env: PaintEnv): (e: Effect)
    ensures env.hdc == 0 ==> e == Effect(Fail(NullPaintDc), [BeginPaint(hwnd)])
    ensures e.outcome.Pass? <==> env.hdc != 0 && (rect.None? || env.failing == {})
  {
    ProvideEnv(hwnd, env.hdc, Renderer.WithRenderContext(d.render, OverlayCommands(rect, env)))
  }

  /** `Drawing::fill_background`: the fill closure inside a frame inside the
      paint bracket. */
  function FillBackground(d: Drawing, hwnd: int, color: Color, env: PaintEnv): (e: Effect)
    ensures env.hdc == 0 ==> e == Effect(Fail(NullPaintDc), [BeginPaint(hwnd)])
    ensures e.outcome.Pass? <==> env.hdc != 0
  {
    ProvideEnv(hwnd, env.hdc, Renderer.WithRenderContext(d.render, FillCommands(color, env.size)))
  }

  /** A closure of draw commands run in a frame inside a paint bracket: the
      window is validated once, the frame opens once and is presented exactly
      when the closure succeeds, and the closure's calls all appear. */
  lemma PaintedFrame(r: Renderer.Render, hwnd: int, hdc: int, body: Effect)
    requires hdc != 0
    requires DrawCommandsOnly(body.trace)
    ensures var e := ProvideEnv(hwnd, hdc, Renderer.WithRenderContext(r, body));
            && e.outcome == body.outcome
            && PaintedFrameCounts(e.trace, hwnd, body)
            && (LayersBalanced(body.trace) ==> LayersBalanced(e.trace))
            && forall i :: 0 <= i < |body.trace| ==> e.trace[4 + i] == body.trace[i]
  {
    PaintedFrameCounted(r, hwnd, hdc, body);
    if LayersBalanced(body.trace) {
      PaintedFrameBalanced(r, hwnd, hdc, body);
    }
    FrameBodyPosition(r, hwnd, hdc, body);
  }

  lemma PaintedFrameCounted(r: Renderer.Render, hwnd: int, hdc: int, body: Effect)
    requires hdc != 0
    requires DrawCommandsOnly(body.trace)
    ensures PaintedFrameCounts(ProvideEnv(hwnd, hdc, Renderer.WithRenderContext(r, body)).trace, hwnd, body)
  {
    var frame := Renderer.WithRenderContext(r, body);
    var e := ProvideEnv(hwnd, hdc, frame);
    Renderer.FrameCounts(r, body);
    ProvideEnvBracketed(hwnd, hdc, frame);
    assert Count(e.trace, SetTargetKind) == Count(frame.trace, SetTargetKind);
    assert Count(e.trace, PresentKind) == Count(frame.trace, PresentKind);
    assert Count(e.trace, EndDrawKind) == Count(frame.trace, EndDrawKind);
    assert Count(e.trace, PushLayerKind) == Count(frame.trace, PushLayerKind);
    assert Count(e.trace, FillKind) == Count(frame.trace, FillKind);
    assert Count(e.trace, PopLayerKind) == Count(frame.trace, PopLayerKind);
  }

  lemma PaintedFrameBalanced(r: Renderer.Render, hwnd: int, hdc: int, body: Effect)
    requires hdc != 0
    requires DrawCommandsOnly(body.trace)
    requires LayersBalanced(body.trace)
    ensures LayersBalanced(ProvideEnv(hwnd, hdc, Renderer.WithRenderContext(r, body)).trace)
  {
    var frame := Renderer.WithRenderContext(r, body);
    Renderer.FrameCounts(r, body);
    Renderer.FrameBalanced(r, body);
    ProvideEnvBracketed(hwnd, hdc, frame);
  }

  /** What a painted frame around `body` counts: one paint bracket, one
      target, one present and end exactly on success, and the closure's own
      layer and fill commands. */
  predicate PaintedFrameCounts(t: seq<Event>, hwnd: int, body: Effect) {
    && PaintBracketed(t, hwnd)
    && Count(t, SetTargetKind) == 1
    && Count(t, PresentKind) == (if body.outcome.Pass? then 1 else 0)
    && Count(t, EndDrawKind) == (if body.outcome.Pass? then 1 else 0)
    && Count(t, PushLayerKind) == Count(body.trace, PushLayerKind)
    && Count(t, FillKind) == Count(body.trace, FillKind)
    && Count(t, PopLayerKind) == Count(body.trace, PopLayerKind)
  }

  /** The closure's calls sit right after `BeginPaint` and the frame prologue. */
  lemma FrameBodyPosition(r: Renderer.Render, hwnd: int, hdc: int, body: Effect)
    requires hdc != 0
    ensures var e := ProvideEnv(hwnd, hdc, Renderer.WithRenderContext(r, body));
            forall i :: 0 <= i < |body.trace| ==> e.trace[4 + i] == body.trace[i]
  {
    var frame := Renderer.WithRenderContext(r, body);
    var e := ProvideEnv(hwnd, hdc, frame);
    forall i | 0 <= i < |body.trace| ensures e.trace[4 + i] == body.trace[i] {
      assert e.trace[1 + (3 + i)] == frame.trace[3 + i];
    }
  }

  /** Every overlay paint with a non-null device context is one paint bracket
      around one frame; a successful frame with a selection fills once through
      one layer masked by the surface minus exactly that selection, and a
      failed frame draws nothing and is neither ended nor presented. */
  lemma DrawOverlayBrackets(d: Drawing, hwnd: int, rect: Option<Rect>, env: PaintEnv)
    requires env.hdc != 0
    ensures var e := DrawOverlay(d, hwnd, rect, env);
            && PaintBracketed(e.trace, hwnd)
            && LayersBalanced(e.trace)
            && Count(e.trace, SetTargetKind) == 1
            && Count(e.trace, PresentKind) == (if e.outcome.Pass? then 1 else 0)
            && Count(e.trace, EndDrawKind) == (if e.outcome.Pass? then 1 else 0)
            && (rect.Some? && e.outcome.Pass? ==>
                  && Count(e.trace, PushLayerKind) == 1
                  && Count(e.trace, FillKind) == 1
                  && Count(e.trace, PopLayerKind) == 1
                  && PushLayer(MaskLayer(env.size, rect.value)) in e.trace)
            && (rect.Some? && e.outcome.Fail? ==>
                  && e.outcome.error == DeviceCallFailed(FirstFailing(env.failing))
                  && Count(e.trace, PushLayerKind) == 0
                  && Count(e.trace, FillKind) == 0)
  {
    var body := OverlayCommands(rect, env);
    if rect.None? {
      assert body.trace == [];
      assert LayersBalanced(body.trace);
    } else if env.failing == {} {
      OverlaySuccessShape(rect.value, env);
      assert body.trace[9] == PushLayer(MaskLayer(env.size, rect.value));
    } else {
      OverlayFailureShape(rect.value, env);
    }
    PaintedFrame(d.render, hwnd, env.hdc, body);
  }

  /** Without a selection an overlay paint only clears the surface to fully
      transparent and presents it. */
  lemma DrawOverlayWithoutSelection(d: Drawing, hwnd: int, env: PaintEnv)
    requires env.hdc != 0
    ensures DrawOverlay(d, hwnd, None, env)
            == Effect(Pass, [BeginPaint(hwnd), SetTarget(Renderer.TargetBitmap(d.render)), BeginDraw,
                             Clear(TransparentBlack), EndDraw, Present(1, 0), EndPaint(hwnd)])
  {
  }

  /** A background paint with a non-null device context is one paint bracket
      around one presented frame holding exactly one full-surface fill in the
      requested colour and no layer. */
  lemma FillBackgroundBrackets(d: Drawing, hwnd: int, color: Color, env: PaintEnv)
    requires env.hdc != 0
    ensures var e := FillBackground(d, hwnd, color, env);
            && e.outcome.Pass?
            && PaintBracketed(e.trace, hwnd)
            && Count(e.trace, PresentKind) == 1
            && Count(e.trace, FillKind) == 1
            && Count(e.trace, PushLayerKind) == 0
            && Count(e.trace, PopLayerKind) == 0
            && FillRectangle(FullSurface(env.size), color) in e.trace
  {
    var body := FillCommands(color, env.size);
    FillCommandsCounts(color, env.size);
    PaintedFrame(d.render, hwnd, env.hdc, body);
    var e := FillBackground(d, hwnd, color, env);
    assert e.trace[4 + 1] == body.trace[1];
  }

  /** The background closure holds one fill and no layer. */
  lemma FillCommandsCounts(color: Color, size: Size)
    ensures var t := FillCommands(color, size).trace;
            && Count(t, FillKind) == 1 && Count(t, PushLayerKind) == 0 && Count(t, PopLayerKind) == 0
            && t[1] == FillRectangle(FullSurface(size), color)
  {
    var t := FillCommands(color, size).trace;
    CountTwo(t[0], t[1], FillKind);
    CountTwo(t[0], t[1], PushLayerKind);
    CountTwo(t[0], t[1], PopLayerKind);
    assert t == [t[0], t[1]];
  }
}
