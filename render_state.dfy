/** Per-frame render state (src/gfx/vulkan/state.rs): a staleness flag, the dynamic
    pipeline state holding the viewport, and the future of the previous frame. */
module RenderState {
  import opened Ints
  import opened Wrappers

  /** A GPU future, as an opaque token: `Now(device)` is vulkano's already-complete
      `sync::now(device)`, `Pending(id)` stands for any other future a caller supplies. */
  datatype Future = Now(device: nat) | Pending(id: nat)

  /** vulkano's Viewport (32-bit floats, seen as reals). */
  datatype Viewport = Viewport(origin: (real, real), dimensions: (real, real), depthRange: (real, real))

  datatype Scissor = Scissor(origin: (i32, i32), dimensions: (u32, u32))

  datatype StencilFaces = Front | Back | FrontAndBack

  datatype StencilValue = StencilValue(face: StencilFaces, value: u32)

  /** vulkano's DynamicState. */
  datatype DynamicState = DynamicState(
    lineWidth: Option<real>,
    viewports: Option<seq<Viewport>>,
    scissors: Option<seq<Scissor>>,
    compareMask: Option<StencilValue>,
    writeMask: Option<StencilValue>,
    reference: Option<StencilValue>)

  /** `DynamicState` with only its viewports replaced. */
  predicate SameExceptViewports(a: DynamicState, b: DynamicState)
  {
    a.lineWidth == b.lineWidth && a.scissors == b.scissors && a.compareMask == b.compareMask
    && a.writeMask == b.writeMask && a.reference == b.reference
  }

  class State {
    var stale: bool
    var dynamicState: DynamicState
    var prevFrame: Option<Future>
    /** The futures `cleanup_finished` has been called on, in order. */
    ghost var cleaned: seq<Future>

    /** What every method of `State` keeps: there is a previous frame to clean up. */
    ghost predicate Valid()
      reads this
    {
      prevFrame.Some?
    }

    /** `State::new(swapchain)`, given the swapchain's viewport and its device. */
    constructor (viewport: Viewport, device: nat)
      ensures Valid()
      ensures !stale
      ensures prevFrame == Some(Now(device))
      ensures dynamicState.viewports == Some([viewport])
      ensures dynamicState == DynamicState(None, Some([viewport]), None, None, None, None)
      ensures cleaned == []
    {
      stale := false;
      dynamicState := DynamicState(None, Some([viewport]), None, None, None, None);
      prevFrame := Some(Now(device));
      cleaned := [];
    }

    /** `set_viewport`: the viewports become exactly `[viewport]`, nothing else changes. */
    method SetViewport(viewport: Viewport)
      modifies this`dynamicState
      ensures dynamicState.viewports == Some([viewport])
      ensures SameExceptViewports(dynamicState, old(dynamicState))
      ensures Valid() == old(Valid())
    {
      dynamicState := dynamicState.(viewports := Some([viewport]));
    }

    /** `replace_frame`: the given future becomes the previous frame. */
    method ReplaceFrame(frame: Future)
      modifies this`prevFrame
      ensures prevFrame == Some(frame)
      ensures Valid()
    {
      prevFrame := Some(frame);
    }

    /** `cleanup_frame`: `cleanup_finished` on the previous frame. `unwrap` panics when
        there is none, hence the precondition; the future's own bookkeeping lives in
        vulkano and only the call is recorded. */
    method CleanupFrame()
      requires prevFrame.Some?
      modifies this`cleaned
      ensures cleaned == old(cleaned) + [prevFrame.value]
    {
      cleaned := cleaned + [prevFrame.value];
    }
  }

  /** A call a client of `State` can make. */
  datatype StateCall = SetViewportCall(viewport: Viewport) | ReplaceFrameCall(frame: Future) | CleanupFrameCall

  /** Any sequence of calls on a `State`: the previous frame is never lost, `stale` is
      never changed, and the dynamic state other than the viewports stays as it was. */
  method RunCalls(s: State, ops: seq<StateCall>)
    requires s.Valid()
    modifies s
    ensures s.Valid()
    ensures s.stale == old(s.stale)
    ensures SameExceptViewports(s.dynamicState, old(s.dynamicState))
    ensures s.dynamicState.viewports.Some? || s.dynamicState.viewports == old(s.dynamicState.viewports)
  {
    for i := 0 to |ops|
      invariant s.Valid()
      invariant s.stale == old(s.stale)
      invariant SameExceptViewports(s.dynamicState, old(s.dynamicState))
      invariant s.dynamicState.viewports.Some? || s.dynamicState.viewports == old(s.dynamicState.viewports)
    {
      match ops[i]
      case SetViewportCall(v) => s.SetViewport(v);
      case ReplaceFrameCall(f) => s.ReplaceFrame(f);
      case CleanupFrameCall => s.CleanupFrame();
    }
  }

  /** One client sequence: it keeps the previous frame and ends with the submitted
      future, the resized viewport and both cleanups recorded. */
  method FrameSequence(viewport: Viewport, resized: Viewport, device: nat, submitted: Future)
    returns (s: State)
    ensures s.Valid() && s.prevFrame == Some(submitted) && !s.stale
    ensures s.dynamicState == DynamicState(None, Some([resized]), None, None, None, None)
    ensures s.cleaned == [Now(device), submitted]
  {
    s := new State(viewport, device);
    s.CleanupFrame();
    s.SetViewport(resized);
    s.ReplaceFrame(submitted);
    s.CleanupFrame();
  }
}
