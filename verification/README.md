# Selection overlay core, modelled in Dafny

This project models the core of a Win32/Direct2D screen-snipping overlay. A
transparent window covering the virtual screen tracks the mouse. A
left-button press anchors a selection rectangle, and moving with the button
held drags its opposite corner. A paint with a selection, when no device call
fails, dims the whole surface except the selection: it draws a 60 %-opacity
black fill through a layer whose geometric mask is the surface minus the
selection. A paint without a selection only clears the surface to
transparent. An opaque sibling window paints itself white. A window
controller keeps one mutex-guarded slot per window role. It attaches each
created window to its slot and routes `Show`, `DrawOverlay` and
`FillBackground` commands to the window in a slot. A builder picks one of
three window factories by role.

The model describes effects rather than pixels. The paint bracket, the
frame bracket, the overlay's resource and drawing calls and `ShowWindow` are
recorded as an `Event` in issue order (module `Trace`). Window-class
registration and window creation are recorded as an `OsCall` (module
`WinFact`). The calls that are not recorded are listed under "Left out". An
operation yields an `Effect`: its `Result<()>` (`Outcome`) and its trace.
Some calls are followed by `?` in the program. Which of them fail is an
input: the set `failing` of call sites. A chain of `?` calls is
`Trace.Run`, which stops at the first failing call and returns that call's
error.

Modules follow the program's files:

- `Common`: `Option`, `Result`, the error origins, rectangles, sizes and colours.
- `Trace`: events, event kinds and counting, layer balance, and the `?` chain.
- `Renderer`: `Render::new` (the swap-chain description) and `with_render_context`.
- `Drawing`: `provide_env`, `draw_overlay` and `fill_background`.
- `WinFact`: `Window`, the window properties and classes per role, the three factories and the builder.
- `Controller`: `WindowController`, `add_window` and `dispatch`.
- `Handler`: `update_rect`, the `LPARAM` decoders, `win_proc` with its selection slot, and `opaque_handler`.

Four behaviours of the code are easy to misread:

- `update_rect` does not normalise the rectangle. Its swap branch nets out to the same result as its other branch, so a drag up and to the left gives `right < left`.
- `with_render_context` returns the closure's error before `EndDraw` and `Present`. A failed frame is therefore never ended or presented.
- `opaque_handler` has two `WM_ERASEBKGND` arms. Only the first can match, so the handler returns 1.
- The `WM_CREATE` arm of `win_proc` resets the selection slot, but it cannot run for a window's own creation. The controller pointer is stored only after the window is created, so that `WM_CREATE` reaches `DefWindowProcA`. The model makes this an explicit `attached` input.

Coordinates are integers. The program converts `i16` pointer positions to
`f32`, which is exact in that range, and then only copies and compares them.
Colours and opacities are `real` constants that are passed along, never
computed with.

## Model

| member | source | states |
|---|---|---|
| Common.FullSurface | src/modules/drawing.rs:66-74 | the rectangle from the origin to the surface size has the surface's width and height |
| Trace.Run | src/modules/drawing.rs:66-111 | a `?` chain succeeds iff no call fails; on success it issues every call; on failure it issues exactly the calls up to and including the first failing one, returns that call's error, and every earlier call passed |
| Trace.RunFailurePrefix | src/modules/drawing.rs:79-113 | when every call after position n is infallible, a failed chain stops within the first n calls and its trace is their events |
| Trace.RunStopsAtFirstFailure | src/modules/drawing.rs:74-111 | the failing call a chain stops at is the first one in program order, and its trace ends there |
| Renderer.ExtentAsU32 | src/modules/renderer.rs:60-65 | the `as u32` width is below 2^32, congruent to the signed difference, and equal to it when that is in range |
| Renderer.SwapChainFor | src/modules/renderer.rs:58-78 | the swap chain covers the client area (when the extent is in range), with 2 buffers, BGRA8, premultiplied alpha, flip-sequential, stretch scaling and one sample |
| Renderer.NewRender | src/modules/renderer.rs:30-116 | a render surface is bound to the window it is created for, sized to that window's client area, and keeps the DPI the window reported |
| Renderer.WithRenderContext | src/modules/renderer.rs:118-159 | a frame binds a target bitmap with the cached DPI, begins, clears to transparent black, runs the closure, and ends and presents with (1, 0) only if the closure succeeded; the closure's result is the frame's |
| Renderer.FrameCounts | src/modules/renderer.rs:143-158 | a frame around draw commands opens once, is ended and presented once on success and never on failure, and neither adds nor drops the closure's layer and fill commands |
| Renderer.FrameBalanced | src/modules/renderer.rs:118-159 | a frame is layer-balanced exactly when its closure's calls are |
| Drawing.NewDrawing | src/modules/drawing.rs:26-29 | a drawing context owns a two-buffer surface bound to its window's handle and carrying that window's DPI |
| Drawing.ProvideEnv | src/modules/drawing.rs:31-46 | a null paint DC fails right after `BeginPaint` without running the closure; otherwise the closure runs between `BeginPaint` and `EndPaint` and its result is returned |
| Drawing.ProvideEnvBracketed | src/modules/drawing.rs:31-46 | the paint bracket adds exactly one `BeginPaint` and one `EndPaint` around the closure and keeps its layer balance |
| Drawing.OverlayCommands | src/modules/drawing.rs:51-127 | without a selection the overlay closure does nothing and succeeds; with one it succeeds iff no fallible call fails |
| Drawing.OverlayRunPasses | src/modules/drawing.rs:66-111 | the overlay's chain of `?` calls passes exactly when no call site fails |
| Drawing.FirstIndexIsFirst | src/modules/drawing.rs:66-111 | the step chosen as failing is the first fallible overlay call whose site fails |
| Drawing.OverlayStepKinds | src/modules/drawing.rs:60-123 | the overlay issues nine modelled resource calls before its push/fill/pop (the `GetSize` query and the two `cast`s are not recorded), and nothing after the layer creation can fail |
| Drawing.OverlaySuccessTrace | src/modules/drawing.rs:60-123 | a successful overlay issues the resource calls followed by push, fill and pop |
| Drawing.OverlaySuccessShape | src/modules/drawing.rs:91-123 | a successful overlay pushes one layer masked by the surface minus the selection at 0.6 opacity, fills the whole surface once in opaque black, pops it, and is layer-balanced |
| Drawing.OverlayFailureShape | src/modules/drawing.rs:66-111 | a failing overlay returns the first failing call's error and issues no layer and no fill |
| Drawing.FillCommands | src/modules/drawing.rs:133-151 | the background closure always succeeds, issues only draw commands, and fills the full surface in the requested colour |
| Drawing.DrawOverlay | src/modules/drawing.rs:48-130 | an overlay paint succeeds iff the paint DC is valid and either there is no selection or no device call fails |
| Drawing.FillBackground | src/modules/drawing.rs:131-153 | a background paint succeeds iff the paint DC is valid |
| Drawing.PaintedFrame | src/modules/drawing.rs:31-46 | a closure run in a frame inside the paint bracket is bracketed once, opens one frame, is presented exactly when it succeeds, and keeps its layer and fill commands |
| Drawing.DrawOverlayBrackets | src/modules/drawing.rs:48-130 | every overlay paint with a valid DC is bracketed and layer-balanced; on success with a selection it has exactly one layer masked by the surface minus that selection and one fill; on failure it reports the first failing call and draws nothing |
| Drawing.DrawOverlayWithoutSelection | src/modules/drawing.rs:48-130 | without a selection a paint only clears the surface to transparent and presents it |
| Drawing.FillBackgroundBrackets | src/modules/drawing.rs:131-153 | a background paint with a valid DC is bracketed, presented once, and fills the full surface once in the given colour without layers |
| WinFact.NewWindow | src/modules/win_fact.rs:36-42 | a new window has its handle and role and no drawing context |
| WinFact.SetDrawing | src/modules/win_fact.rs:54-56 | attaching a drawing context changes neither the handle nor the role |
| WinFact.DrawOverlay | src/modules/win_fact.rs:43-48 | a window without a drawing context fails and issues nothing; otherwise it paints its own handle, succeeding iff the drawing paint does |
| WinFact.FillBackground | src/modules/win_fact.rs:58-63 | a window without a drawing context fails and issues nothing; otherwise it paints its own handle, succeeding iff the drawing paint does |
| WinFact.Show | src/modules/win_fact.rs:104-108 | showing issues one `ShowWindow(SW_SHOW)` on the window's own handle |
| WinFact.Hide | src/modules/win_fact.rs:77-81 | hiding issues one `ShowWindow(SW_HIDE)` on the window's own handle |
| WinFact.Reload | src/modules/win_fact.rs:77-86 | reloading hides the window and then shows it |
| WinFact.RoleProps | src/modules/win_fact.rs:223-315 | the extended styles per role; the transparent and opaque windows cover the virtual screen; the main window sits at (100, 100) with size 800x600 and the module instance; all are parentless pop-ups |
| WinFact.RoleClass | src/modules/win_fact.rs:217-280 | each class is OWNDC, HREDRAW and VREDRAW with the builder's procedure; the transparent class has the cross cursor and a black brush, the others the arrow cursor and no brush |
| WinFact.CreateFromTemplate | src/modules/win_fact.rs:170-206 | the template fails on the module handle or on registration, and otherwise registers the class and creates the window, with no check of the handle |
| WinFact.TemplateFactory | src/modules/win_fact.rs:217-280 | the transparent and opaque factories fail on the cursor before any recorded call, and otherwise are the template with their role's properties and class |
| WinFact.MainFactory | src/modules/win_fact.rs:282-329 | the main factory succeeds iff the module handle, cursor, registration and a non-null window handle all succeed; it fails at the first that does not, with no recorded call before registration, only the registration call when registration fails, and both calls once registration succeeds |
| WinFact.NewBuilder | src/modules/win_fact.rs:361-366 | a new builder has no role and the default procedure |
| WinFact.SetWindowType | src/modules/win_fact.rs:368-371 | setting the role keeps the procedure |
| WinFact.SetWindowProc | src/modules/win_fact.rs:373-384 | setting the procedure keeps the role |
| WinFact.BuilderSettersCommute | src/modules/win_fact.rs:361-384 | the two setters commute, setting the role twice keeps the last role, and a fresh builder given a role and a procedure builds exactly as a builder holding both |
| WinFact.Build | src/modules/win_fact.rs:386-397 | building without a role fails before any call; a build succeeds iff every system call does (and, for the main window, the handle is non-null), creating the window with its role's properties; a typed build returns exactly what its role's factory returns |
| WinFact.BuildFirstError | src/modules/win_fact.rs:170-397 | a failing build reports the first failing step in its factory's order: cursor, module handle, registration for the template roles; module handle, cursor, registration, null handle for the main role |
| WinFact.BuildRegistersRoleClass | src/modules/win_fact.rs:170-329 | every successful build registers its role's class with the builder's procedure before creating the window |
| WinFact.OnlyMainRejectsNullHandle | src/modules/win_fact.rs:186-206 | given a null window handle only the main factory fails; the other two return a window with handle 0 |
| Controller.NewController | src/modules/controller.rs:24-33 | a new controller has three empty, unpoisoned slots |
| Controller.WithSlot | src/modules/controller.rs:59-60 | storing into one slot leaves the other two unchanged |
| Controller.WindowRef | src/modules/controller.rs:34-41 | exactly the window types other than none have a slot |
| Controller.WindowRefInjective | src/modules/controller.rs:34-41 | distinct roles have distinct slots |
| Controller.LockedWindow | src/modules/controller.rs:43-51 | locking fails with "invalid window type" for no role and with a lock failure for a poisoned slot, and otherwise yields the role's own slot |
| Controller.AddWindow | src/modules/controller.rs:53-68 | adding a window succeeds iff its slot can be locked; it then stores the window, with a drawing context whose surface is bound to the window's own handle, in its role's slot and leaves the others alone; on failure nothing changes |
| Controller.NewControllerValid | src/modules/controller.rs:24-33 | a new controller satisfies the table invariant |
| Controller.AddWindowPreservesValid | src/modules/controller.rs:53-68 | adding any window keeps every stored window in its own role's slot with a drawing context bound to its own handle |
| Controller.Dispatch | src/modules/controller.rs:70-79 | dispatch fails before reaching a window only when locking fails; an empty slot does nothing and succeeds; otherwise the command runs on the stored window and its error is returned |
| Controller.DispatchNeverMissesDrawing | src/modules/controller.rs:53-79 | under the table invariant dispatch never fails for want of a drawing context |
| Controller.AttachThenDispatch | src/modules/controller.rs:53-79 | after a window is added, a command dispatched to its role paints that window's handle with the drawing context created for that handle during the add |
| Handler.UpdateRect | src/modules/handler.rs:11-25 | whichever branches run, the anchor corner stays and the opposite corner moves to (x, y) |
| Handler.UpdateRectIdempotent | src/modules/handler.rs:11-25 | updating twice to the same point equals updating once |
| Handler.UpdateRectAxesIndependent | src/modules/handler.rs:12-24 | the horizontal edges depend only on the old horizontal edges and x, the vertical ones only on the old vertical edges and y |
| Handler.UpdateRectNotNormalised | src/modules/handler.rs:16-23 | moving from anchor (100, 100) to (50, 50) yields left 100, top 100, right 50, bottom 50 |
| Handler.GetXLparam | src/modules/handler.rs:27-31 | the x coordinate lies in the `i16` range and agrees with the `LPARAM` modulo 2^16 |
| Handler.GetYLparam | src/modules/handler.rs:33-37 | the y coordinate lies in the `i16` range and agrees with the `LPARAM` shifted right by 16, modulo 2^16 |
| Handler.DecodePacked | src/modules/handler.rs:27-37 | decoding a packed `i16` pair gives the pair back |
| Handler.PackDecoded | src/modules/handler.rs:27-37 | packing the decoded pair gives back the low 32 bits of the `LPARAM` |
| Handler.WinProc | src/modules/handler.rs:39-92 | the per-message behaviour: unattached windows go to the default procedure; create clears the selection; a press sets a degenerate rectangle at the pointer; only a held move with a selection updates it and requests a redraw; release keeps it; paint dispatches the current selection to the transparent window; escape and destroy post quit; other messages go to the default procedure; only create and press can move the anchor |
| Handler.OpaqueHandler | src/modules/handler.rs:94-145 | paint dispatches a white fill to the opaque window; erasing the background answers 1; escape and destroy post quit; other messages go to the wide default procedure |
| Handler.RunConcat | src/modules/handler.rs:48-90 | handling two message sequences one after the other is handling their concatenation |
| Handler.DragFromAnchor | src/modules/handler.rs:61-79 | without presses or creation the anchor survives every move and release, and the far corner is the last held move's position |
| Handler.NoPressNoSelection | src/modules/handler.rs:61-79 | without a press nothing is ever selected |
| Handler.PressThenDrag | src/modules/handler.rs:61-79 | after the last press the selection runs from the press position to the last held move after it |
| Handler.DragUpLeftNotNormalised | src/modules/handler.rs:65-74 | a press at (100, 100) and a held move to (50, 50) select left 100, top 100, right 50, bottom 50 |
| Handler.PaintShowsSelection | src/modules/handler.rs:81-84 | once a transparent window is attached and the device succeeds, a paint draws the dimming layer whose mask leaves out exactly the current selection, and the procedure answers 0 |

## Left out

- Window creation plumbing beyond the recorded calls: the `lpParam` argument is not modelled, and the handle is an input. `GetModuleHandleW`, `LoadCursorW`, `CreateSolidBrush` and `GetSystemMetrics` (`src/modules/win_fact.rs`) are not recorded; their results are inputs (`Os`) or constants of the class and property records.
- Calls not recorded in the traces: `GetBuffer` and `CreateBitmapFromDxgiSurface` in `with_render_context` are folded into the one `SetTarget` event; `GetSize` and the two `cast` calls in `draw_overlay` and `GetSize` in `fill_background` are queries or conversions with no effect, and the surface size is an input.
- The message loop, `main`, the resource manager, and the Direct3D, DXGI and DirectComposition object creation in `Render::new`: these are foreign calls with no logic of their own.
- Panics from `unwrap`: the model treats every unwrapped call as succeeding, because a panic ends the program and has no result to model.
- `println!`/`eprintln!` output and the effect of `RedrawWindow`: these are side channels. `RedrawWindow` is recorded only as the `RedrawInternalPaint` action.
- `get_dpi_for_window`: the DPI is an input (`HostWindow`), because it comes from the device.
- Mutex concurrency: a slot is either lockable or poisoned, and a poisoned slot is an input. No thread interleaving is modelled.
- `Window::set_foreground`, `set_position` and `trigger_screenshot`: they only forward to the operating system and are not part of the selection or paint logic.
- Dropping windows and `DestroyWindow`: resource lifetimes are not modelled.
- The `SetWindowLongPtrA` call at the end of `add_window`: it is what makes a window "attached" for the window procedures. The procedures take that as their `attached` input instead of reading it from the controller.
- The layer mask transform: it is always the identity.
- Fractional sizes: `GetSize` returns `f32` device-independent pixels, which are fractional at DPIs other than 96; the model takes sizes as integers. No model property computes with a size; sizes are only copied into rectangles and compared for equality.
- Renderer.ExtentAsU32: the `i32` subtraction in `Render::new` can overflow, which panics in a debug build; the model uses the release build's wrap-around.
- WinFact.DrawOverlay: the program reports a missing drawing context, and also a null paint DC in `provide_env`, through `Error::from_win32()`, which reads whatever the last OS error is. The model gives them the distinct errors `MissingDrawing` and `NullPaintDc`.
- Handler.WinProc: the selection slot is a `static mut` shared by every window using this procedure. The model passes it explicitly and threads it through `RunWinProc`.
