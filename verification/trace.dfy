/** Abstract effect traces: the paint, frame, drawing and window-visibility
    calls the core issues, recorded as opaque events in issue order. No pixels
    are modelled. */
module Trace {
  import opened Common

  datatype DxgiFormat = FormatUnknown | B8G8R8A8Unorm
  datatype AlphaMode = AlphaUnspecified | AlphaPremultiplied | AlphaStraight | AlphaIgnore
  datatype BitmapOption = TargetOption | CannotDrawOption
  datatype FillMode = Alternate | Winding
  datatype CombineMode = CombineUnion | CombineIntersect | CombineXor | CombineExclude
  datatype AntialiasMode = PerPrimitive | Aliased
  datatype LayerOptions = LayerOptionsNone | InitializeFromBackground
  datatype ShowCommand = SwHide | SwShow

  /** `D2D1_BITMAP_PROPERTIES1` of a frame's target bitmap. */
  datatype BitmapProps = BitmapProps(format: DxgiFormat, alphaMode: AlphaMode,
                                     dpiX: int, dpiY: int, options: set<BitmapOption>)

  /** A Direct2D geometry: a rectangle, or the boolean combination written into a
      path geometry's sink by `CombineWithGeometry`. */
  datatype Geometry =
    | RectangleGeometry(rect: Rect)
    | Combined(base: Geometry, other: Geometry, mode: CombineMode, tolerance: real, fill: FillMode)

  /** `D2D1_LAYER_PARAMETERS1` (the mask transform is always the identity). */
  datatype LayerParams = LayerParams(contentBounds: Rect, geometricMask: Geometry,
                                     maskAntialias: AntialiasMode, opacity: real,
                                     opacityBrush: Color, options: LayerOptions)

  /** One issued call. */
  datatype Event =
    | BeginPaint(hwnd: int)
    | EndPaint(hwnd: int)
    | SetTarget(bitmap: BitmapProps)
    | BeginDraw
    | Clear(color: Color)
    | EndDraw
    | Present(syncInterval: int, flags: int)
    | CreateBrush(color: Color)
    | CreateRectGeometry(rect: Rect)
    | CreatePathGeometry
    | OpenSink
    | SetFillMode(fillMode: FillMode)
    | CombineWithGeometry(first: Geometry, second: Geometry, combineMode: CombineMode, flattening: real)
    | CloseSink
    | CreateLayer(size: Size)
    | PushLayer(params: LayerParams)
    | FillRectangle(rect: Rect, brush: Color)
    | PopLayer
    | ShowWindow(hwnd: int, command: ShowCommand)

  /** The kinds of event that the bracket properties count. */
  datatype Kind =
    | BeginPaintKind | EndPaintKind | SetTargetKind | BeginDrawKind | ClearKind
    | EndDrawKind | PresentKind | ResourceKind | PushLayerKind | FillKind | PopLayerKind
    | ShowKind

  function KindOf(e: Event): Kind {
    match e
    case BeginPaint(_) => BeginPaintKind
    case EndPaint(_) => EndPaintKind
    case SetTarget(_) => SetTargetKind
    case BeginDraw => BeginDrawKind
    case Clear(_) => ClearKind
    case EndDraw => EndDrawKind
    case Present(_, _) => PresentKind
    case PushLayer(_) => PushLayerKind
    case FillRectangle(_, _) => FillKind
    case PopLayer => PopLayerKind
    case ShowWindow(_, _) => ShowKind
    case _ => ResourceKind
  }

  /** Events a render closure may issue inside a frame: resource creation and
      draw commands, never a paint or frame bracket event. */
  predicate IsDrawCommand(e: Event) {
    KindOf(e) in {ResourceKind, PushLayerKind, FillKind, PopLayerKind}
  }

  predicate DrawCommandsOnly(t: seq<Event>) {
    forall i :: 0 <= i < |t| ==> IsDrawCommand(t[i])
  }

  /** How many events of kind `k` the trace holds. */
  function Count(t: seq<Event>, k: Kind): nat {
    if |t| == 0 then 0
    else (if KindOf(t[0]) == k then 1 else 0) + Count(t[1..], k)
  }

  lemma {:induction false} CountConcat(a: seq<Event>, b: seq<Event>, k: Kind)
    ensures Count(a + b, k) == Count(a, k) + Count(b, k)
  {
    if |a| != 0 {
      assert (a + b)[1..] == a[1..] + b;
      CountConcat(a[1..], b, k);
    } else {
      assert a + b == b;
    }
  }

  function Indicator(e: Event, k: Kind): nat {
    if KindOf(e) == k then 1 else 0
  }

  lemma CountOne(a: Event, k: Kind)
    ensures Count([a], k) == Indicator(a, k)
  {
    assert [a][1..] == [];
  }

  lemma CountTwo(a: Event, b: Event, k: Kind)
    ensures Count([a, b], k) == Indicator(a, k) + Indicator(b, k)
  {
    assert [a, b][1..] == [b];
    CountOne(b, k);
  }

  lemma CountThree(a: Event, b: Event, c: Event, k: Kind)
    ensures Count([a, b, c], k) == Indicator(a, k) + Indicator(b, k) + Indicator(c, k)
  {
    assert [a, b, c][1..] == [b, c];
    CountTwo(b, c, k);
  }

  /** A trace with no event of kind `k` counts zero of them. */
  lemma {:induction false} CountAbsent(t: seq<Event>, k: Kind)
    requires forall i :: 0 <= i < |t| ==> KindOf(t[i]) != k
    ensures Count(t, k) == 0
  {
    if |t| != 0 {
      CountAbsent(t[1..], k);
    }
  }

  /** A trace of draw commands holds no event of any bracket kind. */
  lemma DrawCommandsCountZero(t: seq<Event>, k: Kind)
    requires DrawCommandsOnly(t)
    requires k !in {ResourceKind, PushLayerKind, FillKind, PopLayerKind}
    ensures Count(t, k) == 0
  {
    CountAbsent(t, k);
  }

  /** Starting with `depth` open layers, every PopLayer closes an open layer and
      the trace ends with none open. */
  predicate BalancedFrom(t: seq<Event>, depth: nat)
    decreases |t|
  {
    if |t| == 0 then depth == 0
    else match KindOf(t[0])
      case PushLayerKind => BalancedFrom(t[1..], depth + 1)
      case PopLayerKind => depth > 0 && BalancedFrom(t[1..], depth - 1)
      case _ => BalancedFrom(t[1..], depth)
  }

  /** Every PushLayer is matched by a later PopLayer and no PopLayer comes first. */
  predicate LayersBalanced(t: seq<Event>) {
    BalancedFrom(t, 0)
  }

  /** A balanced continuation keeps a balanced prefix balanced. */
  lemma {:induction false} BalancedConcat(a: seq<Event>, b: seq<Event>, depth: nat)
    requires BalancedFrom(a, depth)
    requires LayersBalanced(b)
    ensures BalancedFrom(a + b, depth)
  {
    if |a| != 0 {
      assert (a + b)[1..] == a[1..] + b;
      match KindOf(a[0])
      case PushLayerKind => BalancedConcat(a[1..], b, depth + 1);
      case PopLayerKind => BalancedConcat(a[1..], b, depth - 1);
      case _ => BalancedConcat(a[1..], b, depth);
    } else {
      assert a + b == b;
    }
  }

  /** A trace with no layer events at all is balanced. */
  lemma {:induction false} NoLayersBalanced(t: seq<Event>)
    requires Count(t, PushLayerKind) == 0 && Count(t, PopLayerKind) == 0
    ensures LayersBalanced(t)
  {
    if |t| != 0 {
      NoLayersBalanced(t[1..]);
    }
  }

  /** Calls of no layer kind in front of a trace do not change its balance. */
  lemma {:induction false} NeutralPrefixBalanced(a: seq<Event>, b: seq<Event>, depth: nat)
    requires Count(a, PushLayerKind) == 0 && Count(a, PopLayerKind) == 0
    ensures BalancedFrom(a + b, depth) <==> BalancedFrom(b, depth)
  {
    if |a| != 0 {
      assert (a + b)[1..] == a[1..] + b;
      NeutralPrefixBalanced(a[1..], b, depth);
    } else {
      assert a + b == b;
    }
  }

  /** Calls of no layer kind after a trace do not change its balance. */
  lemma {:induction false} NeutralSuffixBalanced(a: seq<Event>, b: seq<Event>, depth: nat)
    requires Count(b, PushLayerKind) == 0 && Count(b, PopLayerKind) == 0
    ensures BalancedFrom(a + b, depth) <==> BalancedFrom(a, depth)
  {
    if |a| != 0 {
      assert (a + b)[1..] == a[1..] + b;
      match KindOf(a[0])
      case PushLayerKind => NeutralSuffixBalanced(a[1..], b, depth + 1);
      case PopLayerKind => if depth > 0 { NeutralSuffixBalanced(a[1..], b, depth - 1); }
      case _ => NeutralSuffixBalanced(a[1..], b, depth);
    } else {
      assert a + b == b;
      assert b + [] == b;
      NeutralPrefixBalanced(b, [], depth);
    }
  }

  /** One effectful computation: its `Result<()>` and the calls it issued. */
  datatype Effect = Effect(outcome: Outcome, trace: seq<Event>)

  /** One call of a straight-line command sequence. `MayFail` calls are followed
      by `?` in the program; `Always` calls return nothing or are unwrapped. */
  datatype Step = Always(event: Event) | MayFail(site: CallSite, event: Event)

  predicate Fails(s: Step, failing: set<CallSite>) {
    s.MayFail? && s.site in failing
  }

  function Events(steps: seq<Step>): (t: seq<Event>)
    ensures |t| == |steps|
    ensures forall i :: 0 <= i < |steps| ==> t[i] == steps[i].event
  {
    seq(|steps|, i requires 0 <= i < |steps| => steps[i].event)
  }

  lemma EventsConcat(a: seq<Step>, b: seq<Step>)
    ensures Events(a + b) == Events(a) + Events(b)
  {
  }

  /** Issues `steps` in order and stops at the first call whose site is in
      `failing`, returning that call's error: the program's chain of `?`. */
  function Run(steps: seq<Step>, failing: set<CallSite>): (r: Effect)
    ensures r.outcome.Pass? <==> forall i :: 0 <= i < |steps| ==> !Fails(steps[i], failing)
    ensures r.outcome.Pass? ==> r.trace == Events(steps)
    ensures r.outcome.Fail? ==>
              && 0 < |r.trace| <= |steps|
              && r.trace == Events(steps[..|r.trace|])
              && Fails(steps[|r.trace| - 1], failing)
              && r.outcome.error == DeviceCallFailed(steps[|r.trace| - 1].site)
              && forall i :: 0 <= i < |r.trace| - 1 ==> !Fails(steps[i], failing)
  {
    if |steps| == 0 then Effect(Pass, [])
    else if Fails(steps[0], failing) then
      Effect(Fail(DeviceCallFailed(steps[0].site)), [steps[0].event])
    else
      var rest := Run(steps[1..], failing);
      assert forall i :: 1 <= i < |steps| ==> steps[i] == steps[1..][i - 1];
      Effect(rest.outcome, [steps[0].event] + rest.trace)
  }

  /** A run that fails stops at or before the first step that cannot fail
      from there on, and its trace is the events of the steps it reached. */
  lemma RunFailurePrefix(steps: seq<Step>, failing: set<CallSite>, n: nat)
    requires n <= |steps|
    requires forall i :: n <= i < |steps| ==> steps[i].Always?
    requires Run(steps, failing).outcome.Fail?
    ensures |Run(steps, failing).trace| <= n
    ensures forall i :: 0 <= i < |Run(steps, failing).trace| ==>
              Run(steps, failing).trace[i] == steps[i].event
  {
    var r := Run(steps, failing);
    assert Fails(steps[|r.trace| - 1], failing);
    assert r.trace == Events(steps[..|r.trace|]);
  }

  /** The step a failing run stops at is the first failing step. */
  lemma RunStopsAtFirstFailure(steps: seq<Step>, failing: set<CallSite>, j: nat)
    requires j < |steps| && Fails(steps[j], failing)
    requires forall i :: 0 <= i < j ==> !Fails(steps[i], failing)
    ensures Run(steps, failing).outcome == Fail(DeviceCallFailed(steps[j].site))
    ensures |Run(steps, failing).trace| == j + 1
  {
    assert !Run(steps, failing).outcome.Pass?;
  }
}
