/**
 * The vulkano `GraphicsContext` of `src/graphics/context.rs`: the model-view
 * stack, projection and MVP value; the per-frame batch of secondary command
 * buffers recorded by `draw`; and the swapchain-recreation state machine run
 * by `flush`.
 *
 * GPU objects are opaque handles. What the GPU answers (the surface extent,
 * swapchain recreation, image acquisition, the final flush) is passed to
 * `Flush` as parameters.
 */
module Context {
  import opened Outcomes
  import opened Types

  // ---------------------------------------------------------------------
  // The transform stack as a value
  // ---------------------------------------------------------------------

  /** The current transform: the last element of the stack. */
  function Top(stack: seq<Matrix>): Matrix
    requires |stack| >= 1
  {
    stack[|stack| - 1]
  }

  /** The stack after `pop_transform`: the top is removed only while more than one matrix is held. */
  function Popped(stack: seq<Matrix>): (r: seq<Matrix>)
    ensures |stack| >= 1 ==> |r| >= 1
    ensures |stack| > 1 ==> r == stack[..|stack| - 1]
    ensures |stack| <= 1 ==> r == stack
  {
    if |stack| > 1 then stack[..|stack| - 1] else stack
  }

  /** The stack after `set_transform(t)`: only the last element is replaced. */
  function WithTop(stack: seq<Matrix>, t: Matrix): (r: seq<Matrix>)
    requires |stack| >= 1
    ensures |r| == |stack| && Top(r) == t
    ensures forall i :: 0 <= i < |stack| - 1 ==> r[i] == stack[i]
  {
    stack[..|stack| - 1] + [t]
  }

  /** One operation of a client on the transform stack. */
  datatype StackOp = PushOp(m: Matrix) | PopOp | SetOp(m: Matrix)

  /** The stack after applying `ops` in order. */
  function Run(stack: seq<Matrix>, ops: seq<StackOp>): seq<Matrix>
    decreases |ops|
  {
    if ops == [] then stack
    else
      var next := match ops[0]
        case PushOp(m) => stack + [m]
        case PopOp => Popped(stack)
        case SetOp(m) => if |stack| >= 1 then WithTop(stack, m) else stack;
      Run(next, ops[1..])
  }

  /** No sequence of push, pop and set calls empties a non-empty stack. */
  lemma {:induction false} RunKeepsStackNonEmpty(stack: seq<Matrix>, ops: seq<StackOp>)
    requires |stack| >= 1
    ensures |Run(stack, ops)| >= 1
    decreases |ops|
  {
    if ops != [] {
      var next := match ops[0]
        case PushOp(m) => stack + [m]
        case PopOp => Popped(stack)
        case SetOp(m) => WithTop(stack, m);
      assert Run(stack, ops) == Run(next, ops[1..]);
      RunKeepsStackNonEmpty(next, ops[1..]);
    }
  }

  /** A push followed by a pop restores the stack, whatever the stack was. */
  lemma PushThenPopRestores(stack: seq<Matrix>, t: Matrix)
    requires |stack| >= 1
    ensures Popped(stack + [t]) == stack
  {
    assert (stack + [t])[..|stack|] == stack;
  }

  /** Pushing `A` on `[I]` and popping twice gives back `[I]`: the second pop is a no-op. */
  lemma PushPopPopScenario(a: Matrix)
    ensures Run([Identity], [PushOp(a), PopOp, PopOp]) == [Identity]
    ensures Run([Identity], [PushOp(a)]) == [Identity, a]
  {
    assert Run([Identity], [PushOp(a), PopOp, PopOp]) == Run([Identity, a], [PopOp, PopOp]);
    assert Run([Identity, a], [PopOp, PopOp]) == Run([Identity], [PopOp]);
    assert Run([Identity], [PopOp]) == Run([Identity], []);
    assert Run([Identity], [PushOp(a)]) == Run([Identity, a], []);
  }

  // ---------------------------------------------------------------------
  // Command buffers and the frame state
  // ---------------------------------------------------------------------

  /** A framebuffer built from the render pass and one swapchain image. */
  datatype Framebuffer = Framebuffer(renderPass: RenderPassId, attachment: SwapchainImageId)

  /**
   * One secondary command buffer recorded by `draw`: an indexed draw with its
   * bindings. `scissor` is the extent of the dynamic state's scissor (and
   * viewport), baked in from the context's dimensions when the buffer is recorded.
   */
  datatype SecondaryCommandBuffer = SecondaryCommandBuffer(
    mvp: Matrix,
    scissor: Extent,
    texture: TextureId,
    sampler: SamplerId,
    vertexBuffer: VertexBufferId,
    indexBuffer: IndexBufferId,
    instances: seq<InstanceProperties>)

  /** The primary command buffer `flush` submits: one render pass that runs the secondaries in order. */
  datatype PrimaryCommandBuffer = PrimaryCommandBuffer(
    framebuffer: Framebuffer,
    clearColor: Color,
    executed: seq<SecondaryCommandBuffer>)

  /** What `draw` falls back to when it is given no texture, sampler or geometry. */
  datatype DrawDefaults = DrawDefaults(
    whiteTexture: TextureId,
    defaultSampler: SamplerId,
    quadVertexBuffer: VertexBufferId,
    quadIndexBuffer: IndexBufferId)

  /** The instance records of a draw: one per parameter, in order (the `par_iter` map). */
  function Instances(params: seq<DrawTransform>): seq<InstanceProperties>
  {
    seq(|params|, i requires 0 <= i < |params| => ToInstanceProperties(params[i]))
  }

  /** The secondary command buffer one `draw` call records, with the MVP value current at the call. */
  function RecordDraw(
    mvp: Matrix, dimensions: Extent, defaults: DrawDefaults, params: seq<DrawTransform>,
    vertexBuffer: Option<VertexBufferId>, indexBuffer: Option<IndexBufferId>,
    texture: Option<TextureId>, sampler: Option<SamplerId>): SecondaryCommandBuffer
  {
    SecondaryCommandBuffer(
      mvp,
      dimensions,
      texture.GetOr(defaults.whiteTexture),
      sampler.GetOr(defaults.defaultSampler),
      vertexBuffer.GetOr(defaults.quadVertexBuffer),
      indexBuffer.GetOr(defaults.quadIndexBuffer),
      Instances(params))
  }

  /** One framebuffer per swapchain image, in image order. */
  function FramebuffersFor(renderPass: RenderPassId, images: seq<SwapchainImageId>): (r: seq<Framebuffer>)
    ensures |r| == |images|
    ensures forall i :: 0 <= i < |images| ==> r[i] == Framebuffer(renderPass, images[i])
  {
    if images == [] then []
    else FramebuffersFor(renderPass, images[..|images| - 1]) + [Framebuffer(renderPass, images[|images| - 1])]
  }

  /** The part of the context that `draw`, `resize_viewport` and `flush` change. */
  datatype FrameState = FrameState(
    recreateSwapchain: bool,
    dimensions: Extent,
    swapchain: SwapchainId,
    swapchainImages: seq<SwapchainImageId>,
    framebuffers: Option<seq<Framebuffer>>,
    batch: seq<SecondaryCommandBuffer>)

  /** Built framebuffers, when there are any, are exactly one per current swapchain image. */
  predicate FramebuffersMatch(renderPass: RenderPassId, s: FrameState)
  {
    s.framebuffers.Some? ==> s.framebuffers.value == FramebuffersFor(renderPass, s.swapchainImages)
  }

  /** `swapchain.recreate_with_dimension`: new swapchain and images, unsupported dimensions, or another error (a panic). */
  datatype RecreateResult = Recreated(swapchain: SwapchainId, images: seq<SwapchainImageId>) | UnsupportedDimensions | RecreateFailed

  /** `swapchain::acquire_next_image`: an image index, out of date, or another error (a panic). */
  datatype AcquireResult = Acquired(imageNum: nat) | AcquireOutOfDate | AcquireFailed

  /** `then_signal_fence_and_flush`: success, `FlushError::OutOfDate`, or another error (printed and ignored). */
  datatype SubmitResult = Submitted | SubmitOutOfDate | SubmitFailed

  /** How a `flush` ended. */
  datatype FlushOutcome =
    | FrameSubmitted(commands: PrimaryCommandBuffer, result: SubmitResult)
      /** `flush` returned early: this frame is lost and nothing was submitted. */
    | FrameLost
      /** An `unwrap`, `panic!` or an out-of-range index aborted the program. */
    | Panicked

  datatype FlushStep = FlushStep(state: FrameState, outcome: FlushOutcome)

  /** Where the recreation phase of `flush` leaves it: go on to acquire, or stop here. */
  datatype RecreateStep = Proceed(state: FrameState) | Stopped(step: FlushStep)

  /** Recreation of the swapchain at the start of `flush`, when the flag is set. */
  function RecreatePhase(s: FrameState, extent: Option<Extent>, recreate: RecreateResult): RecreateStep
  {
    if extent.None? then Stopped(FlushStep(s, Panicked))
    else
      var sized := s.(dimensions := extent.value);
      match recreate
      case UnsupportedDimensions => Stopped(FlushStep(sized.(recreateSwapchain := true), FrameLost))
      case RecreateFailed => Stopped(FlushStep(sized, Panicked))
      case Recreated(sc, images) =>
        Proceed(sized.(swapchain := sc, swapchainImages := images, framebuffers := None, recreateSwapchain := false))
  }

  /** Acquisition, recording and submission, after the swapchain and framebuffers are in place. */
  function PresentPhase(s: FrameState, renderPass: RenderPassId, clearColor: Color,
                        acquire: AcquireResult, submit: SubmitResult): FlushStep
  {
    var s1 := if s.framebuffers.None? then s.(framebuffers := Some(FramebuffersFor(renderPass, s.swapchainImages))) else s;
    match acquire
    case AcquireOutOfDate => FlushStep(s1.(recreateSwapchain := true), FrameLost)
    case AcquireFailed => FlushStep(s1, Panicked)
    case Acquired(i) =>
      if i >= |s1.framebuffers.value| then FlushStep(s1, Panicked)
      else
        var commands := PrimaryCommandBuffer(s1.framebuffers.value[i], clearColor, s1.batch);
        var drained := s1.(batch := []);
        FlushStep(if submit.SubmitOutOfDate? then drained.(recreateSwapchain := true) else drained,
                  FrameSubmitted(commands, submit))
  }

  /** The whole of `flush` on the frame state, given what the GPU answers. */
  function FlushSpec(s: FrameState, renderPass: RenderPassId, clearColor: Color, extent: Option<Extent>,
                     recreate: RecreateResult, acquire: AcquireResult, submit: SubmitResult): FlushStep
  {
    if s.recreateSwapchain then
      match RecreatePhase(s, extent, recreate)
      case Proceed(s1) => PresentPhase(s1, renderPass, clearColor, acquire, submit)
      case Stopped(step) => step
    else PresentPhase(s, renderPass, clearColor, acquire, submit)
  }

  /**
   * Unsupported dimensions while the flag is set: the flag stays set, only the
   * stored dimensions change, the batch is untouched and nothing is acquired.
   */
  lemma UnsupportedDimensionsKeepsFrame(s: FrameState, renderPass: RenderPassId, clearColor: Color,
                                        extent: Extent, acquire: AcquireResult, submit: SubmitResult)
    requires s.recreateSwapchain
    ensures FlushSpec(s, renderPass, clearColor, Some(extent), UnsupportedDimensions, acquire, submit)
            == FlushStep(s.(dimensions := extent), FrameLost)
  {
  }

  /**
   * A successful recreation replaces the swapchain and its images and rebuilds
   * exactly one framebuffer per new image; the flag ends cleared unless this
   * very frame finds the new swapchain out of date again.
   */
  lemma {:induction false} RecreationRebuildsFramebuffers(
    s: FrameState, renderPass: RenderPassId, clearColor: Color, extent: Extent,
    sc: SwapchainId, images: seq<SwapchainImageId>, acquire: AcquireResult, submit: SubmitResult)
    requires s.recreateSwapchain
    requires !acquire.AcquireFailed? && !(acquire.Acquired? && acquire.imageNum >= |images|)
    ensures var r := FlushSpec(s, renderPass, clearColor, Some(extent), Recreated(sc, images), acquire, submit);
      && r.state.swapchain == sc && r.state.swapchainImages == images && r.state.dimensions == extent
      && r.state.framebuffers.Some? && |r.state.framebuffers.value| == |images|
      && (forall i :: 0 <= i < |images| ==> r.state.framebuffers.value[i].attachment == images[i])
      && r.state.recreateSwapchain == (acquire.AcquireOutOfDate? || submit.SubmitOutOfDate?)
  {
    var r := FlushSpec(s, renderPass, clearColor, Some(extent), Recreated(sc, images), acquire, submit);
    assert r.state.framebuffers == Some(FramebuffersFor(renderPass, images));
  }

  /** An out-of-date acquire sets the flag and keeps the batch for the next frame. */
  lemma AcquireOutOfDateCarriesBatch(s: FrameState, renderPass: RenderPassId, clearColor: Color,
                                     extent: Option<Extent>, recreate: RecreateResult, submit: SubmitResult)
    ensures var r := FlushSpec(s, renderPass, clearColor, extent, recreate, AcquireOutOfDate, submit);
      r.outcome != Panicked ==> r.outcome == FrameLost && r.state.batch == s.batch && r.state.recreateSwapchain
  {
  }

  /**
   * A submitted frame executes every recorded secondary buffer, in insertion
   * order, inside one render pass on the acquired image's framebuffer, and
   * leaves the batch empty; `FlushError::OutOfDate` also sets the flag.
   */
  lemma SubmittedFrameDrainsBatch(s: FrameState, renderPass: RenderPassId, clearColor: Color,
                                  extent: Option<Extent>, recreate: RecreateResult,
                                  acquire: AcquireResult, submit: SubmitResult)
    requires FramebuffersMatch(renderPass, s)
    ensures var r := FlushSpec(s, renderPass, clearColor, extent, recreate, acquire, submit);
      r.outcome.FrameSubmitted? ==>
        && acquire.Acquired?
        && r.outcome.commands.executed == s.batch
        && r.outcome.commands.clearColor == clearColor
        && r.outcome.commands.framebuffer == Framebuffer(renderPass, r.state.swapchainImages[acquire.imageNum])
        && r.state.batch == []
        && r.outcome.result == submit
        && (submit.SubmitOutOfDate? ==> r.state.recreateSwapchain)
  {
    var r := FlushSpec(s, renderPass, clearColor, extent, recreate, acquire, submit);
    if r.outcome.FrameSubmitted? {
      if s.recreateSwapchain {
        assert RecreatePhase(s, extent, recreate).Proceed?;
        assert FramebuffersMatch(renderPass, RecreatePhase(s, extent, recreate).state);
      }
    }
  }

  /** Every `flush` keeps the framebuffers, when built, in step with the swapchain images. */
  lemma FlushKeepsFramebuffersMatched(s: FrameState, renderPass: RenderPassId, clearColor: Color,
                                      extent: Option<Extent>, recreate: RecreateResult,
                                      acquire: AcquireResult, submit: SubmitResult)
    requires FramebuffersMatch(renderPass, s)
    ensures FramebuffersMatch(renderPass, FlushSpec(s, renderPass, clearColor, extent, recreate, acquire, submit).state)
  {
  }

  /**
   * A draw followed by a flush that submits: the record the draw appended is
   * executed last, after the records already in the batch, and it carries
   * the MVP value and the dimensions of the moment it was drawn (not those
   * of the flush, which may have recreated the swapchain), one instance per
   * parameter in order, and the given or default texture, sampler and quad
   * buffers.
   */
  lemma DrawThenFlushExecutesRecord(
    s: FrameState, renderPass: RenderPassId, clearColor: Color, mvp: Matrix, defaults: DrawDefaults,
    params: seq<DrawTransform>, vertexBuffer: Option<VertexBufferId>, indexBuffer: Option<IndexBufferId>,
    texture: Option<TextureId>, sampler: Option<SamplerId>,
    extent: Option<Extent>, recreate: RecreateResult, acquire: AcquireResult, submit: SubmitResult)
    requires FramebuffersMatch(renderPass, s)
    ensures var drawn := s.(batch := s.batch + [RecordDraw(mvp, s.dimensions, defaults, params, vertexBuffer, indexBuffer, texture, sampler)]);
      var r := FlushSpec(drawn, renderPass, clearColor, extent, recreate, acquire, submit);
      r.outcome.FrameSubmitted? ==>
        var executed := r.outcome.commands.executed;
        && |executed| == |s.batch| + 1 && executed[..|s.batch|] == s.batch
        && executed[|s.batch|].mvp == mvp && executed[|s.batch|].scissor == s.dimensions
        && |executed[|s.batch|].instances| == |params|
        && (forall i :: 0 <= i < |params| ==>
              executed[|s.batch|].instances[i] == InstanceProperties(params[i].src, params[i].matrix, params[i].color))
        && executed[|s.batch|].texture == (if texture.Some? then texture.value else defaults.whiteTexture)
        && executed[|s.batch|].sampler == (if sampler.Some? then sampler.value else defaults.defaultSampler)
        && executed[|s.batch|].vertexBuffer == (if vertexBuffer.Some? then vertexBuffer.value else defaults.quadVertexBuffer)
        && executed[|s.batch|].indexBuffer == (if indexBuffer.Some? then indexBuffer.value else defaults.quadIndexBuffer)
        && r.state.batch == []
  {
    var cb := RecordDraw(mvp, s.dimensions, defaults, params, vertexBuffer, indexBuffer, texture, sampler);
    var drawn := s.(batch := s.batch + [cb]);
    assert FramebuffersMatch(renderPass, drawn);
    SubmittedFrameDrainsBatch(drawn, renderPass, clearColor, extent, recreate, acquire, submit);
    assert (s.batch + [cb])[..|s.batch|] == s.batch;
  }

  // ---------------------------------------------------------------------
  // The context object
  // ---------------------------------------------------------------------

  class GraphicsContext {
    var modelviewStack: seq<Matrix>
    var projection: Matrix
    var mvp: Matrix
    var screenRect: Rect
    var clearColor: Color

    var recreateSwapchain: bool
    var dimensions: Extent
    var swapchain: SwapchainId
    var swapchainImages: seq<SwapchainImageId>
    var framebuffers: Option<seq<Framebuffer>>
    var secondaryCommandBuffers: seq<SecondaryCommandBuffer>

    const renderPass: RenderPassId
    const defaults: DrawDefaults

    /** The stack is never empty and built framebuffers match the swapchain images. */
    ghost predicate Valid()
      reads this
    {
      |modelviewStack| >= 1 && FramebuffersMatch(renderPass, State())
    }

    function State(): FrameState
      reads this
    {
      FrameState(recreateSwapchain, dimensions, swapchain, swapchainImages, framebuffers, secondaryCommandBuffers)
    }

    /**
     * The end of `GraphicsContext::new`: the swapchain is marked for
     * recreation, no framebuffers exist, the batch is empty, the stack is the
     * identity alone, and the projection is set from the window rectangle
     * with the MVP value computed from it.
     */
    constructor (width: real, height: real, renderPass: RenderPassId, defaults: DrawDefaults,
                 swapchain: SwapchainId, swapchainImages: seq<SwapchainImageId>, dimensions: Extent)
      ensures Valid()
      ensures recreateSwapchain && framebuffers == None && secondaryCommandBuffers == []
      ensures modelviewStack == [Identity]
      ensures screenRect == Rect(0.0, 0.0, width, height)
      ensures projection == Orthographic(screenRect)
      ensures mvp == Product(projection, Identity)
      ensures clearColor == Color(0.2, 0.4, 0.6, 1.0)
      ensures this.renderPass == renderPass && this.defaults == defaults
      ensures this.swapchain == swapchain && this.swapchainImages == swapchainImages && this.dimensions == dimensions
    {
      this.renderPass := renderPass;
      this.defaults := defaults;
      this.swapchain := swapchain;
      this.swapchainImages := swapchainImages;
      this.dimensions := dimensions;
      framebuffers := None;
      secondaryCommandBuffers := [];
      projection := Identity;
      modelviewStack := [Identity];
      clearColor := Color(0.2, 0.4, 0.6, 1.0);
      recreateSwapchain := true;
      mvp := Identity;
      screenRect := Rect(0.0, 0.0, width, height);
      new;
      SetProjectionRect(Rect(0.0, 0.0, width, height));
      CalculateTransformMatrix();
    }

    /** `calculate_transform_matrix`: mvp := projection * current transform. */
    method CalculateTransformMatrix()
      requires Valid()
      modifies this`mvp
      ensures Valid()
      ensures mvp == Product(projection, Top(modelviewStack))
    {
      var modelview := modelviewStack[|modelviewStack| - 1];
      mvp := Product(projection, modelview);
    }

    /** `push_transform(t)`: `t` becomes the new top. */
    method PushTransform(t: Matrix)
      requires Valid()
      modifies this`modelviewStack
      ensures Valid()
      ensures modelviewStack == old(modelviewStack) + [t]
      ensures GetTransform() == t
    {
      modelviewStack := modelviewStack + [t];
    }

    /** `pop_transform`: removes the top only when more than one matrix is held. */
    method PopTransform()
      requires Valid()
      modifies this`modelviewStack
      ensures Valid()
      ensures modelviewStack == Popped(old(modelviewStack))
      ensures |old(modelviewStack)| > 1 ==> GetTransform() == old(modelviewStack)[|old(modelviewStack)| - 2]
      ensures |old(modelviewStack)| == 1 ==> GetTransform() == old(GetTransform())
    {
      if |modelviewStack| > 1 {
        modelviewStack := modelviewStack[..|modelviewStack| - 1];
      }
    }

    /** `set_transform(t)`: replaces the last element only. */
    method SetTransform(t: Matrix)
      requires Valid()
      modifies this`modelviewStack
      ensures Valid()
      ensures modelviewStack == WithTop(old(modelviewStack), t)
      ensures GetTransform() == t
    {
      modelviewStack := modelviewStack[..|modelviewStack| - 1] + [t];
    }

    /** `get_transform`: the current (last) transform. */
    function GetTransform(): Matrix
      requires Valid()
      reads this
    {
      modelviewStack[|modelviewStack| - 1]
    }

    /** `set_projection_rect(r)`: stores the rectangle and the orthographic projection derived from it. */
    method SetProjectionRect(r: Rect)
      modifies this`screenRect, this`projection
      ensures screenRect == r && GetProjection() == Orthographic(r)
    {
      screenRect := r;
      projection := Orthographic(r);
    }

    /** `set_projection(t)`: overwrites the projection. */
    method SetProjection(t: Matrix)
      modifies this`projection
      ensures GetProjection() == t
    {
      projection := t;
    }

    /** `get_projection`. */
    function GetProjection(): Matrix
      reads this
    {
      projection
    }

    /**
     * `draw`: appends exactly one secondary command buffer holding one
     * instance per parameter, the MVP value current now, and the given or
     * default texture, sampler and quad buffers.
     */
    method Draw(params: seq<DrawTransform>, vertexBuffer: Option<VertexBufferId>, indexBuffer: Option<IndexBufferId>,
                texture: Option<TextureId>, sampler: Option<SamplerId>)
      requires Valid()
      modifies this`secondaryCommandBuffers
      ensures Valid()
      ensures secondaryCommandBuffers
              == old(secondaryCommandBuffers) + [RecordDraw(mvp, dimensions, defaults, params, vertexBuffer, indexBuffer, texture, sampler)]
    {
      var currentTexture := texture.GetOr(defaults.whiteTexture);
      var currentSampler := sampler.GetOr(defaults.defaultSampler);
      var instances := Instances(params);
      var vb := vertexBuffer.GetOr(defaults.quadVertexBuffer);
      var ib := indexBuffer.GetOr(defaults.quadIndexBuffer);
      var cb := SecondaryCommandBuffer(mvp, dimensions, currentTexture, currentSampler, vb, ib, instances);
      secondaryCommandBuffers := secondaryCommandBuffers + [cb];
    }

    /** `resize_viewport`: only marks the swapchain for recreation. */
    method ResizeViewport()
      requires Valid()
      modifies this`recreateSwapchain
      ensures Valid()
      ensures recreateSwapchain
    {
      recreateSwapchain := true;
    }

    /**
     * `flush`: recreates the swapchain when flagged, rebuilds missing
     * framebuffers, acquires an image, submits one primary command buffer that
     * executes the whole batch in order, and drains the batch; the GPU's
     * answers are the parameters. The new frame state is `FlushSpec` of the old.
     */
    method Flush(extent: Option<Extent>, recreate: RecreateResult, acquire: AcquireResult, submit: SubmitResult)
      returns (outcome: FlushOutcome)
      requires Valid()
      modifies this`recreateSwapchain, this`dimensions, this`swapchain, this`swapchainImages,
               this`framebuffers, this`secondaryCommandBuffers
      ensures Valid()
      ensures FlushStep(State(), outcome)
              == FlushSpec(old(State()), renderPass, clearColor, extent, recreate, acquire, submit)
    {
      if recreateSwapchain {
        if extent.None? {
          return Panicked;
        }
        dimensions := extent.value;
        match recreate {
          case UnsupportedDimensions =>
            recreateSwapchain := true;
            return FrameLost;
          case RecreateFailed =>
            return Panicked;
          case Recreated(newSwapchain, newImages) =>
            swapchain := newSwapchain;
            swapchainImages := newImages;
        }
        framebuffers := None;
        recreateSwapchain := false;
      }

      if framebuffers.None? {
        framebuffers := Some(FramebuffersFor(renderPass, swapchainImages));
      }

      var imageNum;
      match acquire {
        case AcquireOutOfDate =>
          recreateSwapchain := true;
          return FrameLost;
        case AcquireFailed =>
          return Panicked;
        case Acquired(i) =>
          imageNum := i;
      }

      if imageNum >= |framebuffers.value| {
        return Panicked;
      }
      var commands := RecordPrimary(framebuffers.value[imageNum], clearColor, secondaryCommandBuffers);
      secondaryCommandBuffers := [];

      if submit.SubmitOutOfDate? {
        recreateSwapchain := true;
      }
      outcome := FrameSubmitted(commands, submit);
    }
  }

  /**
   * The primary command buffer of `flush`: a render pass on `framebuffer`
   * cleared to `clearColor` that executes each secondary buffer of `batch`,
   * one after another, in insertion order.
   */
  method RecordPrimary(framebuffer: Framebuffer, clearColor: Color, batch: seq<SecondaryCommandBuffer>)
    returns (commands: PrimaryCommandBuffer)
    ensures commands.framebuffer == framebuffer && commands.clearColor == clearColor
    ensures commands.executed == batch
  {
    commands := PrimaryCommandBuffer(framebuffer, clearColor, []);
    var i := 0;
    while i < |batch|
      invariant 0 <= i <= |batch|
      invariant commands.framebuffer == framebuffer && commands.clearColor == clearColor
      invariant commands.executed == batch[..i]
    {
      commands := commands.(executed := commands.executed + [batch[i]]);
      i := i + 1;
    }
    assert batch[..i] == batch;
  }
}
