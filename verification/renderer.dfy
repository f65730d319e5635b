/** The per-window render surface (`Render`) and its frame bracket
    (`with_render_context`). Device, swap-chain and compositor creation are
    foreign calls; only the values the program passes to them are modelled. */
module Renderer {
  import opened Common
  import opened Trace

  datatype SwapEffect = SwapDiscard | SwapSequential | FlipSequential | FlipDiscard
  datatype Scaling = ScalingStretch | ScalingNone | ScalingAspectRatioStretch
  datatype BufferUsage = RenderTargetOutput | ShaderInput

  /** `DXGI_SWAP_CHAIN_DESC1`; `width` and `height` are the `u32` fields. */
  datatype SwapChainDesc = SwapChainDesc(
    width: nat, height: nat, format: DxgiFormat, stereo: bool,
    sampleCount: nat, sampleQuality: nat, usage: BufferUsage, bufferCount: nat,
    scaling: Scaling, swapEffect: SwapEffect, alphaMode: AlphaMode, flags: nat)

  /** The `RECT` that `GetClientRect` writes (32-bit signed fields). */
  datatype ClientRect = ClientRect(left: int, top: int, right: int, bottom: int)

  /** What `Render::new` learns from the operating system about the window it
      is created for: the client rectangle and the DPI reported by
      `GetDeviceCaps`. */
  datatype HostWindow = HostWindow(client: ClientRect, dpiX: int, dpiY: int)

  /** The state of a `Render` that influences what it issues: the window its
      composition target is bound to, the swap chain it was created with and
      the cached DPI. */
  datatype Render = Render(target: int, swapChain: SwapChainDesc, dpiX: int, dpiY: int)

  const U32Modulus: int := 0x1_0000_0000

  /** `(a - b) as u32` for 32-bit `a` and `b`: the difference modulo 2^32. */
  function ExtentAsU32(a: int, b: int): (w: nat)
    ensures w < U32Modulus
    ensures (w - (a - b)) % U32Modulus == 0
    ensures 0 <= a - b < U32Modulus ==> w == a - b
  {
    (a - b) % U32Modulus
  }

  /** The swap-chain description `Render::new` builds for a client rectangle. */
  function SwapChainFor(client: ClientRect): (d: SwapChainDesc)
    ensures 0 <= client.right - client.left < U32Modulus ==> d.width == client.right - client.left
    ensures 0 <= client.bottom - client.top < U32Modulus ==> d.height == client.bottom - client.top
    ensures d.width < U32Modulus && d.height < U32Modulus
    ensures d.bufferCount == 2
    ensures d.format == B8G8R8A8Unorm && d.alphaMode == AlphaPremultiplied
    ensures d.swapEffect == FlipSequential && d.scaling == ScalingStretch
    ensures d.sampleCount == 1 && d.sampleQuality == 0 && !d.stereo
    ensures d.usage == RenderTargetOutput && d.flags == 0
  {
    SwapChainDesc(
      width := ExtentAsU32(client.right, client.left),
      height := ExtentAsU32(client.bottom, client.top),
      format := B8G8R8A8Unorm, stereo := false,
      sampleCount := 1, sampleQuality := 0,
      usage := RenderTargetOutput, bufferCount := 2,
      scaling := ScalingStretch, swapEffect := FlipSequential,
      alphaMode := AlphaPremultiplied, flags := 0)
  }

  /** `Render::new` for the window `hwnd`: a surface bound to that window,
      sized to its client area, that caches its DPI. */
  function NewRender(hwnd: int, host: HostWindow): (r: Render)
    ensures r.target == hwnd
    ensures r.swapChain.bufferCount == 2 && r.swapChain.format == B8G8R8A8Unorm
    ensures 0 <= host.client.right - host.client.left < U32Modulus ==>
              r.swapChain.width == host.client.right - host.client.left
    ensures 0 <= host.client.bottom - host.client.top < U32Modulus ==>
              r.swapChain.height == host.client.bottom - host.client.top
    ensures r.dpiX == host.dpiX && r.dpiY == host.dpiY
  {
    Render(hwnd, SwapChainFor(host.client), host.dpiX, host.dpiY)
  }

  /** The properties of the target bitmap created over the back buffer. */
  function TargetBitmap(r: Render): BitmapProps {
    BitmapProps(B8G8R8A8Unorm, AlphaPremultiplied, r.dpiX, r.dpiY,
                {TargetOption, CannotDrawOption})
  }

  /** The sync interval and flags passed to `Present`. */
  const PresentSyncInterval := 1
  const PresentFlags := 0

  /** `with_render_context`: bind the back buffer, begin a draw pass, clear it,
      run the render closure (whose result and calls are `body`) and, only if
      the closure succeeded, end the pass and present. */
  function WithRenderContext(r: Render, body: Effect): (f: Effect)
    ensures f.outcome == body.outcome
    ensures |f.trace| == 3 + |body.trace| + (if body.outcome.Pass? then 2 else 0)
    ensures f.trace[0] == SetTarget(BitmapProps(B8G8R8A8Unorm, AlphaPremultiplied, r.dpiX, r.dpiY,
                                                {TargetOption, CannotDrawOption}))
    ensures f.trace[1] == BeginDraw && f.trace[2] == Clear(TransparentBlack)
    ensures forall i :: 0 <= i < |body.trace| ==> f.trace[3 + i] == body.trace[i]
    ensures body.outcome.Pass? ==>
              f.trace[|f.trace| - 2] == EndDraw && f.trace[|f.trace| - 1] == Present(1, 0)
  {
    var prologue := [SetTarget(TargetBitmap(r)), BeginDraw, Clear(TransparentBlack)];
    if body.outcome.Fail? then
      Effect(body.outcome, prologue + body.trace)
    else
      Effect(Pass, prologue + body.trace + [EndDraw, Present(PresentSyncInterval, PresentFlags)])
  }

  /** When the closure only issues draw commands, a frame opens exactly once and
      is ended and presented exactly once when the closure succeeds and never
      when it fails; the closure's draw commands are neither dropped nor added. */
  lemma FrameCounts(r: Render, body: Effect)
    requires DrawCommandsOnly(body.trace)
    ensures var f := WithRenderContext(r, body);
            && Count(f.trace, SetTargetKind) == 1
            && Count(f.trace, BeginDrawKind) == 1
            && Count(f.trace, ClearKind) == 1
            && Count(f.trace, EndDrawKind) == (if body.outcome.Pass? then 1 else 0)
            && Count(f.trace, PresentKind) == (if body.outcome.Pass? then 1 else 0)
            && Count(f.trace, BeginPaintKind) == 0
            && Count(f.trace, EndPaintKind) == 0
            && Count(f.trace, PushLayerKind) == Count(body.trace, PushLayerKind)
            && Count(f.trace, FillKind) == Count(body.trace, FillKind)
            && Count(f.trace, PopLayerKind) == Count(body.trace, PopLayerKind)
  {
    FrameBracketCounts(r, body);
    FrameDrawCounts(r, body);
  }

  lemma FrameBracketCounts(r: Render, body: Effect)
    requires DrawCommandsOnly(body.trace)
    ensures var f := WithRenderContext(r, body);
            && Count(f.trace, SetTargetKind) == 1
            && Count(f.trace, BeginDrawKind) == 1
            && Count(f.trace, ClearKind) == 1
            && Count(f.trace, EndDrawKind) == (if body.outcome.Pass? then 1 else 0)
            && Count(f.trace, PresentKind) == (if body.outcome.Pass? then 1 else 0)
            && Count(f.trace, BeginPaintKind) == 0
            && Count(f.trace, EndPaintKind) == 0
  {
    BracketKindsAbsent(body.trace);
    FrameOpensOnce(r, body);
    FrameClosesOnSuccess(r, body);
    FrameHasNoPaint(r, body);
  }

  lemma FrameOpensOnce(r: Render, body: Effect)
    requires Count(body.trace, SetTargetKind) == 0 && Count(body.trace, BeginDrawKind) == 0
    requires Count(body.trace, ClearKind) == 0
    ensures var f := WithRenderContext(r, body);
            && Count(f.trace, SetTargetKind) == 1
            && Count(f.trace, BeginDrawKind) == 1
            && Count(f.trace, ClearKind) == 1
  {
    FrameCountSplit(r, body, SetTargetKind);
    FrameCountSplit(r, body, BeginDrawKind);
    FrameCountSplit(r, body, ClearKind);
  }

  lemma FrameClosesOnSuccess(r: Render, body: Effect)
    requires Count(body.trace, EndDrawKind) == 0 && Count(body.trace, PresentKind) == 0
    ensures var f := WithRenderContext(r, body);
            && Count(f.trace, EndDrawKind) == (if body.outcome.Pass? then 1 else 0)
            && Count(f.trace, PresentKind) == (if body.outcome.Pass? then 1 else 0)
  {
    FrameCountSplit(r, body, EndDrawKind);
    FrameCountSplit(r, body, PresentKind);
  }

  lemma FrameHasNoPaint(r: Render, body: Effect)
    requires Count(body.trace, BeginPaintKind) == 0 && Count(body.trace, EndPaintKind) == 0
    ensures var f := WithRenderContext(r, body);
            && Count(f.trace, BeginPaintKind) == 0
            && Count(f.trace, EndPaintKind) == 0
  {
    FrameCountSplit(r, body, BeginPaintKind);
    FrameCountSplit(r, body, EndPaintKind);
  }

  lemma FrameDrawCounts(r: Render, body: Effect)
    ensures var f := WithRenderContext(r, body);
            && Count(f.trace, PushLayerKind) == Count(body.trace, PushLayerKind)
            && Count(f.trace, FillKind) == Count(body.trace, FillKind)
            && Count(f.trace, PopLayerKind) == Count(body.trace, PopLayerKind)
  {
    FrameCountSplit(r, body, PushLayerKind);
    FrameCountSplit(r, body, FillKind);
    FrameCountSplit(r, body, PopLayerKind);
  }

  lemma BracketKindsAbsent(t: seq<Event>)
    requires DrawCommandsOnly(t)
    ensures Count(t, SetTargetKind) == 0 && Count(t, BeginDrawKind) == 0 && Count(t, ClearKind) == 0
    ensures Count(t, EndDrawKind) == 0 && Count(t, PresentKind) == 0
    ensures Count(t, BeginPaintKind) == 0 && Count(t, EndPaintKind) == 0
  {
    DrawCommandsCountZero(t, SetTargetKind);
    DrawCommandsCountZero(t, BeginDrawKind);
    DrawCommandsCountZero(t, ClearKind);
    DrawCommandsCountZero(t, EndDrawKind);
    DrawCommandsCountZero(t, PresentKind);
    DrawCommandsCountZero(t, BeginPaintKind);
    DrawCommandsCountZero(t, EndPaintKind);
  }

  /** The count of kind `k` in a frame: the prologue's, the closure's and, on
      success, the epilogue's. */
  function FrameCount(r: Render, body: Effect, k: Kind): nat {
    Indicator(SetTarget(TargetBitmap(r)), k) + Indicator(BeginDraw, k) + Indicator(Clear(TransparentBlack), k)
    + Count(body.trace, k)
    + (if body.outcome.Pass? then Indicator(EndDraw, k) + Indicator(Present(1, 0), k) else 0)
  }

  lemma FrameCountSplit(r: Render, body: Effect, k: Kind)
    ensures Count(WithRenderContext(r, body).trace, k) == FrameCount(r, body, k)
  {
    var f := WithRenderContext(r, body);
    var prologue := [SetTarget(TargetBitmap(r)), BeginDraw, Clear(TransparentBlack)];
    var tail := if body.outcome.Pass? then [EndDraw, Present(1, 0)] else [];
    assert f.trace == prologue + (body.trace + tail);
    CountConcat(prologue, body.trace + tail, k);
    CountConcat(body.trace, tail, k);
    CountThree(prologue[0], prologue[1], prologue[2], k);
    if body.outcome.Pass? {
      CountTwo(EndDraw, Present(1, 0), k);
    }
  }

  /** A frame is layer-balanced exactly when its closure's calls are: the
      calls around the closure open and close no layer. */
  lemma FrameBalanced(r: Render, body: Effect)
    ensures LayersBalanced(WithRenderContext(r, body).trace) <==> LayersBalanced(body.trace)
  {
    var f := WithRenderContext(r, body);
    var prologue := [SetTarget(TargetBitmap(r)), BeginDraw, Clear(TransparentBlack)];
    var tail := if body.outcome.Pass? then [EndDraw, Present(1, 0)] else [];
    assert f.trace == prologue + (body.trace + tail);
    CountThree(prologue[0], prologue[1], prologue[2], PushLayerKind);
    CountThree(prologue[0], prologue[1], prologue[2], PopLayerKind);
    if body.outcome.Pass? {
      CountTwo(EndDraw, Present(1, 0), PushLayerKind);
      CountTwo(EndDraw, Present(1, 0), PopLayerKind);
    }
    NeutralPrefixBalanced(prologue, body.trace + tail, 0);
    NeutralSuffixBalanced(body.trace, tail, 0);
  }
}
