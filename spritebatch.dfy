/**
 * `SpriteBatch` (`src/graphics/spritebatch.rs`): many copies of one image
 * drawn with a single instanced draw call. The sprite list is indexed by
 * `SpriteIdx`; drawing pushes the batch's transform around one `draw` of
 * the graphics context and pops it again.
 */
module SpriteBatches {
  import opened Outcomes
  import opened Types
  import opened Errors
  import opened Context
  import opened Images

  /** `SpriteIdx`: a position in the sprite list. */
  datatype SpriteIdx = SpriteIdx(index: nat)

  const OutOfBoundsMessage := "Provided index is out of bounds."

  /** The sprite list after `set(i, p)`: element `i` replaced, or the render error for an index past the end. */
  function Assigned(sprites: seq<DrawParam>, i: nat, p: DrawParam): (r: Result<seq<DrawParam>, GameError>)
    ensures r.Ok? <==> i < |sprites|
    ensures r.Ok? ==> |r.value| == |sprites| && r.value[i] == p
                      && forall j :: 0 <= j < |sprites| && j != i ==> r.value[j] == sprites[j]
    ensures r.Err? ==> r.error == RenderError(OutOfBoundsMessage)
  {
    if i < |sprites| then Ok(sprites[i := p]) else Err(RenderError(OutOfBoundsMessage))
  }

  /** The index `add` hands out can be used by `set`, which then changes only that sprite. */
  lemma AddedIndexIsSettable(sprites: seq<DrawParam>, p: DrawParam, q: DrawParam)
    ensures Assigned(sprites + [p], |sprites|, q) == Ok(sprites + [q])
  {
    assert (sprites + [p])[|sprites| := q] == sprites + [q];
  }

  /**
   * The sprite as `draw` hands it on: its scale multiplied by the size of its
   * source rectangle in image pixels (the source rectangle is in fractions of
   * the image, so a sprite of the whole image is scaled to the image's pixel
   * size); every other field kept.
   */
  function Scaled(p: DrawParam, width: nat, height: nat): (q: DrawParam)
    ensures q.src == p.src && q.dest == p.dest && q.rotation == p.rotation && q.offset == p.offset && q.color == p.color
    ensures p.src.w == 1.0 && p.src.h == 1.0 ==>
      q.scale == Vector2(p.scale.x * (width as real), p.scale.y * (height as real))
  {
    p.(scale := Vector2(p.src.w * p.scale.x * (width as real), p.src.h * p.scale.y * (height as real)))
  }

  /** The draw parameters of the batch, one per sprite, in sprite order (the `par_iter` map). */
  function BatchParams(sprites: seq<DrawParam>, width: nat, height: nat): seq<DrawTransform>
  {
    seq(|sprites|, i requires 0 <= i < |sprites| => ToTransform(Scaled(sprites[i], width, height)))
  }

  /** Each instance the batch uploads keeps its sprite's source rectangle and colour, in sprite order. */
  lemma BatchInstancesFollowSprites(sprites: seq<DrawParam>, width: nat, height: nat)
    ensures var inst := Instances(BatchParams(sprites, width, height));
      |inst| == |sprites|
      && forall i :: 0 <= i < |sprites| ==>
           && inst[i].src == sprites[i].src && inst[i].color == sprites[i].color
           && inst[i].model == Placement(sprites[i].dest, sprites[i].rotation, Scaled(sprites[i], width, height).scale, sprites[i].offset)
  {
  }

  /** `SpriteBatch`: the image every sprite is cut from and the sprite list. */
  class SpriteBatch {
    var image: Image
    var sprites: seq<DrawParam>

    /** `SpriteBatch::new`. */
    constructor (image: Image)
      ensures this.image == image && sprites == []
      ensures IntoInner() == image
    {
      this.image := image;
      sprites := [];
    }

    /** `add`: appends the sprite and returns its index, the old length. */
    method Add(param: DrawParam) returns (idx: SpriteIdx)
      modifies this`sprites
      ensures sprites == old(sprites) + [param]
      ensures idx.index == |old(sprites)| && idx.index < |sprites| && sprites[idx.index] == param
    {
      sprites := sprites + [param];
      idx := SpriteIdx(|sprites| - 1);
    }

    /** `set`: replaces one sprite when the index is in range; otherwise a render error and no change. */
    method Set(handle: SpriteIdx, param: DrawParam) returns (r: Result<(), GameError>)
      modifies this`sprites
      ensures r.Ok? <==> Assigned(old(sprites), handle.index, param).Ok?
      ensures r.Ok? ==> sprites == Assigned(old(sprites), handle.index, param).value
      ensures r.Err? ==> sprites == old(sprites) && r.error == RenderError(OutOfBoundsMessage)
    {
      if handle.index < |sprites| {
        sprites := sprites[handle.index := param];
        return Ok(());
      }
      return Err(RenderError(OutOfBoundsMessage));
    }

    /** `clear`: no sprite left; the image stays. */
    method Clear()
      modifies this`sprites
      ensures sprites == [] && IntoInner() == old(IntoInner())
    {
      sprites := [];
    }

    /** `into_inner`: the image the batch draws with. */
    function IntoInner(): (img: Image)
      reads this`image
    {
      image
    }

    /** `set_image`: installs `newImage` and returns the one it replaces; the sprites are kept. */
    method SetImage(newImage: Image) returns (previous: Image)
      modifies this`image
      ensures previous == old(IntoInner()) && IntoInner() == newImage
      ensures sprites == old(sprites)
    {
      previous := image;
      image := newImage;
    }

    /**
     * `Drawable::draw`: one `draw` on the context with one instance per
     * sprite, textured with the batch image and the MVP value of the pushed
     * transform `param.matrix * current`; the push is undone by the pop, so
     * the stack is as before and the MVP value is computed from it again.
     */
    method Draw(gfx: GraphicsContext, param: DrawTransform) returns (r: Result<(), GameError>)
      requires gfx.Valid()
      modifies gfx`modelviewStack, gfx`mvp, gfx`secondaryCommandBuffers
      ensures gfx.Valid()
      ensures r.Ok?
      ensures gfx.modelviewStack == old(gfx.modelviewStack)
      ensures gfx.mvp == Product(gfx.projection, Top(gfx.modelviewStack))
      ensures gfx.secondaryCommandBuffers == old(gfx.secondaryCommandBuffers) + [
        RecordDraw(Product(gfx.projection, Product(param.matrix, Top(old(gfx.modelviewStack)))), gfx.dimensions, gfx.defaults,
                   BatchParams(sprites, image.width, image.height), None, None, Some(image.imageView), None)]
    {
      var params := BatchParams(sprites, image.Width(), image.Height());
      var current := gfx.GetTransform();
      gfx.PushTransform(Product(param.matrix, current));
      gfx.CalculateTransformMatrix();
      gfx.Draw(params, None, None, Some(image.imageView), None);
      PushThenPopRestores(old(gfx.modelviewStack), Product(param.matrix, current));
      gfx.PopTransform();
      gfx.CalculateTransformMatrix();
      return Ok(());
    }
  }
}
