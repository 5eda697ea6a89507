/**
 * The public graphics functions of `src/graphics/mod.rs` that act on the
 * transform and projection state, the clear colour and the saved window
 * mode, and the unit quad every sprite is drawn with.
 *
 * `begin_frame`, `update_globals` and `set_window_mode` talk to the GPU or
 * the window system; their answers are parameters, applied to the value
 * they are called with.
 */
module Graphics {
  import opened Outcomes
  import opened Types
  import opened Errors
  import opened Context

  // ---------------------------------------------------------------------
  // The unit quad
  // ---------------------------------------------------------------------

  /** `Vertex`: position, texture coordinates and colour. */
  datatype Vertex = Vertex(pos: (real, real), uv: (real, real), color: Color)

  const White := Color(1.0, 1.0, 1.0, 1.0)

  /** `QUAD_VERTICES`: the corners of the unit square, each textured with its own position. */
  const QuadVertices: seq<Vertex> := [
    Vertex((0.0, 0.0), (0.0, 0.0), White),
    Vertex((1.0, 0.0), (1.0, 0.0), White),
    Vertex((1.0, 1.0), (1.0, 1.0), White),
    Vertex((0.0, 1.0), (0.0, 1.0), White)
  ]

  /** `QUAD_INDICES`. */
  const QuadIndices: seq<nat> := [0, 1, 2, 0, 2, 3]

  /**
   * The index list draws two triangles, (0,1,2) and (0,2,3), that use every
   * corner of the quad and no index past it; every corner is white and is
   * textured with its own position.
   */
  lemma QuadIsTwoTriangles()
    ensures |QuadVertices| == 4 && |QuadIndices| == 6
    ensures forall i :: 0 <= i < |QuadIndices| ==> QuadIndices[i] < |QuadVertices|
    ensures QuadIndices[..3] == [0, 1, 2] && QuadIndices[3..] == [0, 2, 3]
    ensures forall v: nat :: v < |QuadVertices| ==> v in QuadIndices
    ensures forall v :: 0 <= v < |QuadVertices| ==> QuadVertices[v].uv == QuadVertices[v].pos && QuadVertices[v].color == White
  {
    assert QuadIndices[0] == 0 && QuadIndices[1] == 1 && QuadIndices[2] == 2 && QuadIndices[5] == 3;
  }

  // ---------------------------------------------------------------------
  // The window mode
  // ---------------------------------------------------------------------

  datatype FullscreenType = Windowed | TrueFullscreen | Desktop

  /** `conf::WindowMode`. */
  datatype WindowMode = WindowMode(
    width: real,
    height: real,
    maximized: bool,
    fullscreenType: FullscreenType,
    borderless: bool,
    minWidth: real,
    maxWidth: real,
    minHeight: real,
    maxHeight: real,
    hidpi: bool,
    resizable: bool)

  /** ggez's `Context`: the graphics context and the configuration's saved window mode. */
  class GameContext {
    const gfx: GraphicsContext
    var windowMode: WindowMode

    constructor (gfx: GraphicsContext, windowMode: WindowMode)
      ensures this.gfx == gfx && this.windowMode == windowMode
    {
      this.gfx := gfx;
      this.windowMode := windowMode;
    }
  }

  // ---------------------------------------------------------------------
  // Transform stack and projection
  // ---------------------------------------------------------------------

  /** `push_transform`: pushes the given matrix, or a copy of the current top when none is given. */
  method PushTransform(ctx: GameContext, transform: Option<Matrix>)
    requires ctx.gfx.Valid()
    modifies ctx.gfx`modelviewStack
    ensures ctx.gfx.Valid()
    ensures ctx.gfx.modelviewStack == old(ctx.gfx.modelviewStack) + [transform.GetOr(Top(old(ctx.gfx.modelviewStack)))]
    ensures Transform(ctx) == if transform.Some? then transform.value else old(Transform(ctx))
  {
    var gfx := ctx.gfx;
    if transform.Some? {
      gfx.PushTransform(transform.value);
    } else {
      var copy := gfx.modelviewStack[|gfx.modelviewStack| - 1];
      gfx.PushTransform(copy);
    }
  }

  /** Pushing a copy of the top and popping it gives back the stack. */
  lemma PushCopyThenPopRestores(stack: seq<Matrix>)
    requires |stack| >= 1
    ensures Popped(stack + [None.GetOr(Top(stack))]) == stack
    ensures Top(stack + [None.GetOr(Top(stack))]) == Top(stack)
  {
    PushThenPopRestores(stack, Top(stack));
  }

  /** `pop_transform`. */
  method PopTransform(ctx: GameContext)
    requires ctx.gfx.Valid()
    modifies ctx.gfx`modelviewStack
    ensures ctx.gfx.Valid()
    ensures ctx.gfx.modelviewStack == Popped(old(ctx.gfx.modelviewStack))
  {
    ctx.gfx.PopTransform();
  }

  /** `set_transform`. */
  method SetTransform(ctx: GameContext, transform: Matrix)
    requires ctx.gfx.Valid()
    modifies ctx.gfx`modelviewStack
    ensures ctx.gfx.Valid()
    ensures ctx.gfx.modelviewStack == WithTop(old(ctx.gfx.modelviewStack), transform)
    ensures Transform(ctx) == transform
  {
    ctx.gfx.SetTransform(transform);
  }

  /** `transform`: the context's current transform. */
  function Transform(ctx: GameContext): Matrix
    requires ctx.gfx.Valid()
    reads ctx.gfx
  {
    ctx.gfx.GetTransform()
  }

  /** `mul_transform(t)`: the top becomes `t * top`; the depth is unchanged. */
  method MulTransform(ctx: GameContext, transform: Matrix)
    requires ctx.gfx.Valid()
    modifies ctx.gfx`modelviewStack
    ensures ctx.gfx.Valid()
    ensures ctx.gfx.modelviewStack == WithTop(old(ctx.gfx.modelviewStack), Product(transform, Top(old(ctx.gfx.modelviewStack))))
    ensures |ctx.gfx.modelviewStack| == |old(ctx.gfx.modelviewStack)|
    ensures Transform(ctx) == Product(transform, old(Transform(ctx)))
  {
    var curr := ctx.gfx.GetTransform();
    ctx.gfx.SetTransform(Product(transform, curr));
  }

  /** `origin`: the top becomes the identity; the depth is unchanged. */
  method Origin(ctx: GameContext)
    requires ctx.gfx.Valid()
    modifies ctx.gfx`modelviewStack
    ensures ctx.gfx.Valid()
    ensures ctx.gfx.modelviewStack == WithTop(old(ctx.gfx.modelviewStack), Identity)
    ensures |ctx.gfx.modelviewStack| == |old(ctx.gfx.modelviewStack)|
    ensures Transform(ctx) == Identity
  {
    ctx.gfx.SetTransform(Identity);
  }

  /** `set_projection`: overwrites the projection; the MVP value waits for `apply_transformations`. */
  method SetProjection(ctx: GameContext, proj: Matrix)
    modifies ctx.gfx`projection
    ensures Projection(ctx) == proj
  {
    ctx.gfx.SetProjection(proj);
  }

  /** `mul_projection(t)`: the projection becomes `t * projection`. */
  method MulProjection(ctx: GameContext, transform: Matrix)
    modifies ctx.gfx`projection
    ensures Projection(ctx) == Product(transform, old(Projection(ctx)))
  {
    var curr := ctx.gfx.GetProjection();
    ctx.gfx.SetProjection(Product(transform, curr));
  }

  /** `projection`. */
  function Projection(ctx: GameContext): Matrix
    reads ctx.gfx
  {
    ctx.gfx.GetProjection()
  }

  /** `screen_coordinates`: the rectangle last given to `set_screen_coordinates` (or the window's at start). */
  function ScreenCoordinates(ctx: GameContext): Rect
    reads ctx.gfx
  {
    ctx.gfx.screenRect
  }

  /**
   * `set_screen_coordinates(rect)`: stores the rectangle and its projection,
   * recomputes the MVP value, then uploads it; `updateGlobals` is the upload's answer.
   */
  method SetScreenCoordinates(ctx: GameContext, rect: Rect, updateGlobals: Matrix -> Result<(), GameError>)
    returns (r: Result<(), GameError>)
    requires ctx.gfx.Valid()
    modifies ctx.gfx`screenRect, ctx.gfx`projection, ctx.gfx`mvp
    ensures ctx.gfx.Valid()
    ensures ScreenCoordinates(ctx) == rect && Projection(ctx) == Orthographic(rect)
    ensures ctx.gfx.mvp == Product(Orthographic(rect), Top(ctx.gfx.modelviewStack))
    ensures r == updateGlobals(ctx.gfx.mvp)
  {
    ctx.gfx.SetProjectionRect(rect);
    ctx.gfx.CalculateTransformMatrix();
    r := updateGlobals(ctx.gfx.mvp);
  }

  /** `apply_transformations`: recomputes the MVP value from projection and top, then uploads it. */
  method ApplyTransformations(ctx: GameContext, updateGlobals: Matrix -> Result<(), GameError>)
    returns (r: Result<(), GameError>)
    requires ctx.gfx.Valid()
    modifies ctx.gfx`mvp
    ensures ctx.gfx.Valid()
    ensures ctx.gfx.mvp == Product(ctx.gfx.projection, Top(ctx.gfx.modelviewStack))
    ensures r == updateGlobals(ctx.gfx.mvp)
  {
    ctx.gfx.CalculateTransformMatrix();
    r := updateGlobals(ctx.gfx.mvp);
  }

  /** `clear(color)`: sets the clear colour, then begins the frame with it; `beginFrame` is that call's answer. */
  method Clear(ctx: GameContext, color: Color, beginFrame: Color -> Result<(), GameError>)
    returns (r: Result<(), GameError>)
    modifies ctx.gfx`clearColor
    ensures ctx.gfx.clearColor == color
    ensures r == beginFrame(color)
  {
    ctx.gfx.clearColor := color;
    r := beginFrame(ctx.gfx.clearColor);
  }

  // ---------------------------------------------------------------------
  // Window mode
  // ---------------------------------------------------------------------

  /**
   * `set_mode`: applies the mode to the window and saves it in the
   * configuration only when that succeeds. The window's answer is
   * `setWindowMode`, applied to the mode asked for.
   */
  method SetMode(ctx: GameContext, mode: WindowMode, setWindowMode: WindowMode -> Result<(), GameError>)
    returns (r: Result<(), GameError>)
    modifies ctx`windowMode
    ensures r == setWindowMode(mode)
    ensures ctx.windowMode == if r.Ok? then mode else old(ctx.windowMode)
  {
    r := setWindowMode(mode);
    if r.Err? {
      return;
    }
    ctx.windowMode := mode;
  }

  /** `set_fullscreen`: the saved mode with only `fullscreen_type` changed, through `set_mode`. */
  method SetFullscreen(ctx: GameContext, fullscreen: FullscreenType, setWindowMode: WindowMode -> Result<(), GameError>)
    returns (r: Result<(), GameError>)
    modifies ctx`windowMode
    ensures var wanted := old(ctx.windowMode).(fullscreenType := fullscreen);
      r == setWindowMode(wanted) && ctx.windowMode == if r.Ok? then wanted else old(ctx.windowMode)
  {
    var mode := ctx.windowMode.(fullscreenType := fullscreen);
    r := SetMode(ctx, mode, setWindowMode);
  }

  /** `set_resolution`: the saved mode with only width and height changed, through `set_mode`. */
  method SetResolution(ctx: GameContext, width: real, height: real, setWindowMode: WindowMode -> Result<(), GameError>)
    returns (r: Result<(), GameError>)
    modifies ctx`windowMode
    ensures var wanted := old(ctx.windowMode).(width := width, height := height);
      r == setWindowMode(wanted) && ctx.windowMode == if r.Ok? then wanted else old(ctx.windowMode)
  {
    var mode := ctx.windowMode.(width := width, height := height);
    r := SetMode(ctx, mode, setWindowMode);
  }

  /** `set_resizable`: the saved mode with only `resizable` changed, through `set_mode`. */
  method SetResizable(ctx: GameContext, resizable: bool, setWindowMode: WindowMode -> Result<(), GameError>)
    returns (r: Result<(), GameError>)
    modifies ctx`windowMode
    ensures var wanted := old(ctx.windowMode).(resizable := resizable);
      r == setWindowMode(wanted) && ctx.windowMode == if r.Ok? then wanted else old(ctx.windowMode)
  {
    var mode := ctx.windowMode.(resizable := resizable);
    r := SetMode(ctx, mode, setWindowMode);
  }
}
