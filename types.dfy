/**
 * Value types shared by the graphics modules: rectangles, colours, the
 * abstract 4x4 matrices of the transform state, draw parameters, blend modes
 * and the opaque handles of GPU objects.
 *
 * Floating-point quantities are `real`; nothing here computes with them
 * except the sprite-batch scale, which is stated without f32 rounding.
 */
module Types {

  /** An axis-aligned rectangle `x, y, w, h` (`graphics::Rect`). */
  datatype Rect = Rect(x: real, y: real, w: real, h: real)

  datatype Point2 = Point2(x: real, y: real)

  datatype Vector2 = Vector2(x: real, y: real)

  /** An RGBA colour (`graphics::Color`, `[f32; 4]` in the context). */
  datatype Color = Color(r: real, g: real, b: real, a: real)

  /**
   * A 4x4 matrix known only by how it was built. `Product(a, b)` is the
   * matrix product `a * b`, kept uninterpreted: the model assumes no law of
   * matrix arithmetic (not even `Product(Identity, m) == m`), so every fact
   * proved about the transform state holds whatever the f32 arithmetic does.
   */
  datatype Matrix =
    | Identity
      /** `Matrix4::new_orthographic(r.x, r.x + r.w, r.y, r.y + r.h, -1, 1)`. */
    | Orthographic(bounds: Rect)
      /** The model matrix a `DrawParam` describes (placement, rotation, scale, offset). */
    | Placement(dest: Point2, rotation: real, scale: Vector2, offset: Point2)
    | Product(lhs: Matrix, rhs: Matrix)
      /** A matrix supplied by a caller, known only by its identity. */
    | Given(id: nat)

  /** The parameters of one sprite (`graphics::DrawParam`). */
  datatype DrawParam = DrawParam(src: Rect, dest: Point2, rotation: real, scale: Vector2, offset: Point2, color: Color)

  /** A draw request already reduced to its model matrix (`graphics::DrawTransform`). */
  datatype DrawTransform = DrawTransform(src: Rect, color: Color, matrix: Matrix)

  /**
   * One instance record uploaded for a draw (`InstanceProperties`): the source
   * rectangle, the model matrix (the four column vectors `col1..col4`) and the colour.
   */
  datatype InstanceProperties = InstanceProperties(src: Rect, model: Matrix, color: Color)

  /** `DrawParam` into `DrawTransform`: the placement becomes the matrix, src and colour pass through. */
  function ToTransform(p: DrawParam): DrawTransform
  {
    DrawTransform(p.src, p.color, Placement(p.dest, p.rotation, p.scale, p.offset))
  }

  /**
   * `DrawTransform::to_instance_properties(false)`: the colour is not
   * linearized, so the record carries the transform's own fields.
   */
  function ToInstanceProperties(t: DrawTransform): InstanceProperties
  {
    InstanceProperties(t.src, t.matrix, t.color)
  }

  /** Blend modes (`graphics::shader::BlendMode`). */
  datatype BlendMode = Add | Subtract | Alpha | Invert | Multiply | Replace | Lighten | Darken

  /** The pixel size of a surface or swapchain, `[u32; 2]`. */
  datatype Extent = Extent(width: nat, height: nat)

  // Opaque identities of GPU objects. Only equality is observable.
  type TextureId = nat
  type SamplerId = nat
  type VertexBufferId = nat
  type IndexBufferId = nat
  type SwapchainId = nat
  type SwapchainImageId = nat
  type RenderPassId = nat
}
