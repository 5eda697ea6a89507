# A verified model of the ggez Vulkan renderer core

This project models the sequential logic inside the Vulkan backend of the
ggez game framework's graphics module, and proves what that logic promises.
It covers:

- the model-view stack, the projection and the MVP value of the
  `GraphicsContext`, together with the public wrappers of `graphics`;
- the per-frame batch of secondary command buffers that `draw` appends to and
  `flush` drains;
- the swapchain-recreation state machine of `flush`;
- the selection rules `GraphicsContext::new` applies: device ranking, queue
  family, image count, present mode and surface format;
- `SpriteBatch`;
- the argument checks of `Image::make_raw`;
- the update and reallocation logic of `vulkan::Buffer<T>`;
- the memory-type search;
- the blend-mode pipeline table of the vulkano shader;
- `GameError`, with its `Display`, `description`, `cause` and `From`
  conversions.

The model abstracts as follows:

- **Matrices** are terms of a free algebra (`Types.Matrix`). `Product(a, b)`
  is the matrix product, left uninterpreted, so no law of f32 matrix
  arithmetic is assumed.
- **GPU objects** are opaque `nat` handles.
- **GPU, window and device answers** are parameters of the operations that
  receive them. These are the answers of swapchain recreation, image
  acquisition and the final flush, and of `begin_frame`, `update_globals`,
  `set_window_mode` and each fallible Vulkan call. They are given as
  `Option`/`Result` values or as functions from the argument to the answer.
- **Panics** are explicit outcomes: `unwrap`, `unimplemented!`, `panic!` and
  an out-of-range index each become `None`, `Panicked`, `PanickedOn(mode)` or
  a `BootstrapFailure`.
- **Objects the source mutates** are classes whose methods tie the new state
  to a pure specification function of the old one. These are the context,
  the sprite batch, the image, the buffer and device, the pipeline set and
  the shader program. The lemmas about those functions state the promised
  properties.

Module layout, one file per source file:

| file | module | models |
|---|---|---|
| `outcomes.dfy` | `Outcomes` | `Option`, `Result` |
| `types.dfy` | `Types` | rectangles, colours, matrices, draw parameters, blend modes, handles |
| `context.dfy` | `Context` | `src/graphics/context.rs`: transform state, draw batch, `flush` |
| `bootstrap.dfy` | `Bootstrap` | `src/graphics/context.rs`: the selection rules of `new` |
| `graphics.dfy` | `Graphics` | `src/graphics/mod.rs` |
| `spritebatch.dfy` | `SpriteBatches` | `src/graphics/spritebatch.rs` |
| `image.dfy` | `Images` | `src/graphics/image.rs` |
| `buffer.dfy` | `VulkanBuffer` | `src/graphics/vulkan/buffer.rs` |
| `util.dfy` | `VulkanUtil` | `src/graphics/vulkan/util.rs` |
| `vulkano_shader.dfy` | `VulkanoShader` | `src/graphics/vulkano_shader.rs` |
| `error.dfy` | `Errors` | `src/error.rs` |

Where the files disagree with each other, the model follows each function
body on its own terms:

- **Acquire "out of date".** In `flush`, an acquire that reports the
  swapchain out of date returns before the batch is drained. The recorded
  secondary buffers therefore carry over to the next frame, and the model
  keeps them.
- **Missing context methods.** `graphics::transform`, `graphics::projection`
  and the wrappers call methods the vulkano `GraphicsContext` does not
  define. The first two are modelled as `get_transform` and `get_projection`.
  `begin_frame` and `update_globals` are modelled by their answers.
- **`create_shader`'s table.** `create_shader` builds a pipeline table and
  then drops it, returning `Ok(())`. The model returns the table it built as
  `Built(table)`, so that its contents can be stated.
- **The sprite batch's texture.** `SpriteBatch::draw` passes the image's
  `texture`, while `Image` declares an `image_view`. The model uses the image
  view.
- **Two `make_raw` signatures.** `GraphicsContext::new` calls a `make_raw`
  whose signature differs from the one in `src/graphics/image.rs`. Only the
  latter is modelled.

## Model

| member | source | states |
|---|---|---|
| `Context.Popped` | src/graphics/context.rs:327-331 | A pop removes exactly the top while more than one matrix is held. A one-element stack is left unchanged, so the stack never becomes empty. |
| `Context.WithTop` | src/graphics/context.rs:333-342 | `set_transform` keeps the depth and every element below the top, and makes `t` the new top. |
| `Context.RunKeepsStackNonEmpty` | src/graphics/context.rs:275-342 | No sequence of push, pop and set calls empties a stack that starts non-empty, such as `[identity]`. |
| `Context.PushThenPopRestores` | src/graphics/context.rs:323-331 | A push followed by a pop gives back exactly the stack from before the push. |
| `Context.PushPopPopScenario` | src/graphics/context.rs:275-331 | On `[I]`, push `A` gives `[I, A]`. Then two pops give `[I]`, because the second pop is a no-op. |
| `Context.FramebuffersFor` | src/graphics/context.rs:548-563 | Exactly one framebuffer per swapchain image, in image order, each attached to its image. |
| `Context.DrawThenFlushExecutesRecord` | src/graphics/context.rs:436-592 | A record appended by `draw` is executed by the next submitted flush, last and after the records already in the batch. It carries the MVP value and the dimensions current at draw time, one instance per parameter in order, and the given or default texture, sampler and quad buffers. The batch is empty afterwards. |
| `Context.UnsupportedDimensionsKeepsFrame` | src/graphics/context.rs:521-546 | With the flag set, `UnsupportedDimensions` returns before acquiring. The flag stays set, only the stored dimensions change, and the batch is untouched. |
| `Context.RecreationRebuildsFramebuffers` | src/graphics/context.rs:521-563 | A successful recreation installs the new swapchain, images and dimensions, and rebuilds exactly one framebuffer per new image. The flag ends cleared unless the same frame reports out-of-date again. |
| `Context.AcquireOutOfDateCarriesBatch` | src/graphics/context.rs:565-573 | An out-of-date acquire sets the flag and loses the frame. The batch is kept for the next frame. |
| `Context.SubmittedFrameDrainsBatch` | src/graphics/context.rs:565-615 | A submitted frame runs every recorded secondary buffer in insertion order. It runs one render pass, cleared to the clear colour, on the acquired image's framebuffer. The batch is left empty, and `FlushError::OutOfDate` also sets the flag. |
| `Context.FlushKeepsFramebuffersMatched` | src/graphics/context.rs:516-616 | In every outcome of `flush`, built framebuffers stay one-to-one with the current swapchain images. |
| `Context.GraphicsContext.constructor` | src/graphics/context.rs:271-311 | A new context has the recreation flag set, no framebuffers, an empty batch and the stack `[identity]`. The screen rectangle and orthographic projection are those of the window, with the MVP value computed from them. |
| `Context.GraphicsContext.CalculateTransformMatrix` | src/graphics/context.rs:316-321 | Afterwards `mvp == projection * top of stack`. |
| `Context.GraphicsContext.PushTransform` | src/graphics/context.rs:323-325 | `t` is appended as the new top, so `get_transform` then returns `t`, and the stack invariant is kept. |
| `Context.GraphicsContext.PopTransform` | src/graphics/context.rs:327-331 | The new stack is `Popped` of the old one and stays non-empty. The current transform becomes the one below the old top, or stays the same on a one-element stack. |
| `Context.GraphicsContext.SetTransform` | src/graphics/context.rs:333-353 | The new stack is the old one with only its top replaced, and `get_transform` then returns the new top. |
| `Context.GraphicsContext.SetProjectionRect` | src/graphics/context.rs:359-363 | The screen rectangle becomes `r`, and the projection becomes the orthographic projection of `r`. |
| `Context.GraphicsContext.SetProjection` | src/graphics/context.rs:365-369 | The projection is overwritten, and `get_projection` then returns the given matrix. |
| `Context.GraphicsContext.Draw` | src/graphics/context.rs:436-495 | Exactly one secondary buffer is appended, the `RecordDraw` of the current MVP value and parameters. Nothing else in the batch changes. |
| `Context.GraphicsContext.ResizeViewport` | src/graphics/context.rs:512-514 | Only the recreation flag is set. |
| `Context.GraphicsContext.Flush` | src/graphics/context.rs:516-616 | The new frame state and the outcome are `FlushSpec` of the old state and the GPU's answers. The lemmas above state what that means, and the framebuffer invariant is kept. |
| `Context.RecordPrimary` | src/graphics/context.rs:575-592 | The primary buffer targets the given framebuffer and clear colour, and executes the whole batch in order. |
| `Bootstrap.Rank` | src/graphics/context.rs:80-87 | Discrete GPUs rank 0 and integrated GPUs rank 1, each exactly. Every other device ranks 2. |
| `Bootstrap.WithRank` | src/graphics/context.rs:80-87 | The filter by rank keeps only devices of that rank and never grows the list. |
| `Bootstrap.RankGroupsSorted` | src/graphics/context.rs:80-87 | Devices of rank 0, then of rank 1, then of rank 2 are in rank order. |
| `Bootstrap.RanksPartition` | src/graphics/context.rs:80-87 | Splitting the devices by the three ranks loses and duplicates none of them. |
| `Bootstrap.SortedByRank` | src/graphics/context.rs:80-87 | `sort_by_key` by rank gives a list ordered by rank that is a permutation of the enumerated devices. |
| `Bootstrap.SortedByRankIsStable` | src/graphics/context.rs:80-87 | The sort is stable: the devices of each rank keep their relative order. |
| `Bootstrap.WithRankConcat` | src/graphics/context.rs:80-87 | Filtering by rank distributes over concatenation. |
| `Bootstrap.WithRankOfUniform` | src/graphics/context.rs:80-87 | A list of a single rank survives a filter for that rank whole, and a filter for any other rank returns nothing. |
| `Bootstrap.WithRankEmptyAbove` | src/graphics/context.rs:80-87 | No device has a rank above 2. |
| `Bootstrap.WithRankFirst` | src/graphics/context.rs:80-88 | The first device of a rank is the earliest device in the list with that rank. |
| `Bootstrap.WithRankEmpty` | src/graphics/context.rs:80-88 | A rank's filter is empty iff no device has that rank. |
| `Bootstrap.SelectPhysicalDevice` | src/graphics/context.rs:74-89 | A device is chosen iff at least one is available, and it is one of them. Otherwise `unwrap` panics (`None`). |
| `Bootstrap.FirstOfLowestRank` | src/graphics/context.rs:80-88 | If no device ranks better than `k`, the first device of rank `k` is a first device of best rank. |
| `Bootstrap.SelectedDeviceIsFirstOfBestRank` | src/graphics/context.rs:80-88 | The chosen device has the best rank of all available devices, and every earlier device ranks strictly worse. |
| `Bootstrap.FindQueueFamily` | src/graphics/context.rs:105-108 | The chosen family is the first that supports graphics and the surface, where a failed surface query counts as unsupported. `None` (the `unwrap` panic) means no family qualifies. |
| `Bootstrap.ImageCount` | src/graphics/context.rs:139-147 | The count is `min_image_count + 1`, lowered to `max_image_count` when a maximum is given and exceeded. |
| `Bootstrap.ChoosePresentMode` | src/graphics/context.rs:149-160 | With vsync the mode is Mailbox iff offered, else Fifo iff offered, else Immediate. Without vsync it is always Immediate, and any non-Immediate choice is a supported mode. |
| `Bootstrap.MaxByKeyIndex` | src/graphics/context.rs:129-137 | `max_by_key` picks an element of greatest preference, the last of equally preferred ones. |
| `Bootstrap.ChooseSurfaceFormat` | src/graphics/context.rs:129-138 | A format is chosen iff any is offered, and it is an offered one. sRGB RGBA8 is chosen whenever offered, and UNORM RGBA8 when offered without sRGB. |
| `Bootstrap.PlanSwapchain` | src/graphics/context.rs:74-161 | The selection steps of `new`, in order: chosen device, first usable queue family, surface extent or window size, first composite alpha, preferred format, image count `min + 1` lowered to the maximum, and present mode Mailbox, else Fifo, else Immediate under vsync. Each failing `unwrap` is its own failure, reported iff every earlier step succeeded. |
| `Graphics.QuadIsTwoTriangles` | src/graphics/mod.rs:81-104 | The six quad indices form the triangles (0,1,2) and (0,2,3), stay below the four vertices and use every corner. Each corner is white and textured at its own position. |
| `Graphics.PushTransform` | src/graphics/mod.rs:331-342 | `Some(t)` pushes `t`. `None` pushes a copy of the current top, so the current transform is unchanged. |
| `Graphics.PushCopyThenPopRestores` | src/graphics/mod.rs:331-352 | Pushing a copy of the top keeps the current transform, and popping it gives back the stack. |
| `Graphics.PopTransform` | src/graphics/mod.rs:349-352 | The stack is popped under the keep-one rule. |
| `Graphics.SetTransform` | src/graphics/mod.rs:362-371 | Only the top is replaced, and `transform` then returns the given matrix. |
| `Graphics.MulTransform` | src/graphics/mod.rs:380-384 | The top becomes `t * top`, which `transform` then returns, and the depth is unchanged. |
| `Graphics.Origin` | src/graphics/mod.rs:390-393 | The top becomes the identity, which `transform` then returns, and the depth is unchanged. |
| `Graphics.SetProjection` | src/graphics/mod.rs:301-304 | The projection is overwritten, so `projection` returns the given matrix. |
| `Graphics.MulProjection` | src/graphics/mod.rs:310-320 | `projection` afterwards returns `t * old projection`. |
| `Graphics.SetScreenCoordinates` | src/graphics/mod.rs:268-294 | `screen_coordinates` now returns `rect` and the projection is its orthographic projection. The MVP value is recomputed from it before the upload, whose answer is returned. |
| `Graphics.ApplyTransformations` | src/graphics/mod.rs:398-402 | The MVP value is recomputed from projection and top before it is uploaded. |
| `Graphics.Clear` | src/graphics/mod.rs:112-117 | The clear colour is set before `begin_frame` is called with it, and that call's answer is returned. |
| `Graphics.SetMode` | src/graphics/mod.rs:415-421 | The saved window mode changes, to the requested one, iff the window accepts it. |
| `Graphics.SetFullscreen` | src/graphics/mod.rs:424-428 | Requests the saved mode with only the fullscreen type changed, and saves it only on success. |
| `Graphics.SetResolution` | src/graphics/mod.rs:431-436 | Requests the saved mode with only width and height changed, and saves it only on success. |
| `Graphics.SetResizable` | src/graphics/mod.rs:439-443 | Requests the saved mode with only `resizable` changed, and saves it only on success. |
| `SpriteBatches.Assigned` | src/graphics/spritebatch.rs:60-69 | `set(i, p)` succeeds iff `i` is in range, and then replaces only element `i`. Otherwise it is the out-of-bounds render error. |
| `SpriteBatches.AddedIndexIsSettable` | src/graphics/spritebatch.rs:54-69 | The index `add` returns is accepted by `set`, which then changes only that sprite. |
| `SpriteBatches.Scaled` | src/graphics/spritebatch.rs:97-111 | Every field of the sprite except its scale is kept. A whole-image sprite's scale is multiplied by the image's pixel size. |
| `SpriteBatches.BatchInstancesFollowSprites` | src/graphics/spritebatch.rs:97-117 | The uploaded instances match the sprites one to one, in order. Each keeps its sprite's source rectangle and colour, and its matrix is the sprite's placement with the scale multiplied by the image size. |
| `SpriteBatches.SpriteBatch.constructor` | src/graphics/spritebatch.rs:41-47 | A new batch holds the given image, which `into_inner` returns, and no sprites. |
| `SpriteBatches.SpriteBatch.Add` | src/graphics/spritebatch.rs:54-57 | The sprite is appended, and its index (the old length) is returned. |
| `SpriteBatches.SpriteBatch.Set` | src/graphics/spritebatch.rs:60-69 | An in-range index replaces only that sprite. Otherwise the result is a render error and the list is unchanged. |
| `SpriteBatches.SpriteBatch.Clear` | src/graphics/spritebatch.rs:72-74 | The sprite list becomes empty. The image is not touched. |
| `SpriteBatches.SpriteBatch.SetImage` | src/graphics/spritebatch.rs:77-85 | Returns the image `into_inner` held before, and `into_inner` then returns the new one. The sprites are not touched. |
| `SpriteBatches.SpriteBatch.Draw` | src/graphics/spritebatch.rs:89-119 | Exactly one context draw is recorded, with one instance per sprite, the batch image's texture, and the MVP value of `param * current`. The stack afterwards equals the stack before, and the MVP value is recomputed from it. |
| `Images.Decimal` | src/graphics/image.rs:76-99 | Formatting a number gives a nonempty digit string with no leading zero. |
| `Images.DecimalRoundTrip` | src/graphics/image.rs:76-99 | The decimal text in the error messages reads back as the number, so the reported sizes are exact. |
| `Images.ValidateRaw` | src/graphics/image.rs:75-103 | Every rejection is a `ResourceLoadError`. Acceptance yields the byte count, which equals the data length. |
| `Images.ValidationPassesIff` | src/graphics/image.rs:75-103 | Validation passes iff both dimensions are nonzero and exactly `width * height * 4` bytes are given. |
| `Images.ZeroDimensionRejectedFirst` | src/graphics/image.rs:75-81 | A zero dimension gives the size error before any other check. |
| `Images.OverflowRejected` | src/graphics/image.rs:82-93 | A byte count beyond the `usize` range gives the overflow error, not a length mismatch. |
| `Images.OverflowDependsOnUsize` | src/graphics/image.rs:82-103 | A 32768 x 32768 image overflows a 32-bit `usize`. With a 64-bit `usize` it fails only on length. |
| `Images.InvalidImageSizeCases` | src/graphics/image.rs:735-740 | `(0,0,[])` and `(3432,432,[])` fail and `(2,2,[99;16])` succeeds, for any usize width. |
| `Images.Image.SetBlendMode` | src/graphics/image.rs:365-371 | After `set_blend_mode(m)`, `blend_mode()` returns `m`. |
| `Images.Image.FromParts` | src/graphics/image.rs:312-318 | The image record built at the end of `make_raw` reports the size it was made with through `width()` and `height()`, and has no blend mode. |
| `Images.MakeRaw` | src/graphics/image.rs:75-253 | A validation failure is returned before the GPU is touched. Success needs both validation and the GPU step, and yields an image of the given size with no blend mode. |
| `Images.FromRgba8` | src/graphics/image.rs:263-278 | Passes width, height and bytes unchanged to `make_raw`, with the same success condition and errors. |
| `VulkanBuffer.CreateSpec` | src/graphics/vulkan/buffer.rs:47-85 | Creation succeeds iff no call fails and a memory type qualifies. It then yields a fresh buffer handle followed by a fresh memory handle, and makes only creation, allocation and binding calls. |
| `VulkanBuffer.WriteSpec` | src/graphics/vulkan/buffer.rs:149-183 | The write keeps the handles and sets the count to the data length. The memory holds the data unless mapping fails. The calls are in the corrected order described under Findings. |
| `VulkanBuffer.AsWrittenFlushesAfterUnmap` | src/graphics/vulkan/buffer.rs:161-181 | As written, a write to memory that is not host-coherent maps, unmaps and only then flushes the range, so the flushed range is not mapped at that point. |
| `VulkanBuffer.WriteMapsAroundRanges` | src/graphics/vulkan/buffer.rs:149-183 | In the corrected write, every flushed or invalidated range is in memory mapped at that point, and every mapping is undone. |
| `VulkanBuffer.UpdateSpec` | src/graphics/vulkan/buffer.rs:131-183 | An update only appends to the device log and never reuses a handle. |
| `VulkanBuffer.UpdateStoresData` | src/graphics/vulkan/buffer.rs:149-168 | After a successful update, `count == length of data` and the memory holds exactly the data. |
| `VulkanBuffer.SameLengthUpdateKeepsAllocation` | src/graphics/vulkan/buffer.rs:132-148 | A same-length update keeps the buffer, memory and requirements, and allocates and frees nothing. It stays `==` to the old buffer. |
| `VulkanBuffer.ResizingUpdateReallocates` | src/graphics/vulkan/buffer.rs:132-149 | A length-changing update first frees the memory and destroys the buffer. On success it holds handles never issued before, no longer `==` to the old buffer, with the new count and contents. |
| `VulkanBuffer.UpdateKeepsEqualityIffSameLength` | src/graphics/vulkan/buffer.rs:28-36 | After a successful update the buffer is `==` to its old self iff the element count is unchanged. |
| `VulkanBuffer.FailedReallocationKeepsFreedHandles` | src/graphics/vulkan/buffer.rs:134-144 | If re-creation fails, the struct still names the buffer and memory it has just released, with the old count. |
| `VulkanBuffer.WriteCalls` | src/graphics/vulkan/buffer.rs:150-181 | A write that meets no failure maps the memory, flushes and invalidates only memory that is not host-coherent, then unmaps. |
| `VulkanBuffer.FlushIffNotCoherent` | src/graphics/vulkan/buffer.rs:169-181 | The mapped range is flushed and invalidated iff the memory properties lack `HOST_COHERENT`. |
| `VulkanBuffer.CreateBufferOn` | src/graphics/vulkan/buffer.rs:47-85 | The imperative `create_buffer` does what `CreateSpec` specifies. |
| `VulkanBuffer.Buffer.FromAllocation` | src/graphics/vulkan/buffer.rs:102-110 | A new buffer struct names the allocation, with count 0. |
| `VulkanBuffer.Buffer.Update` | src/graphics/vulkan/buffer.rs:131-193 | The new buffer and device state are `UpdateSpec` of the old. On success `count()` is the data length, the contents are the data, and `size()` is the new allocation's size exactly when the count changed. |
| `VulkanBuffer.Empty` | src/graphics/vulkan/buffer.rs:91-111 | `empty` succeeds iff the creation does, giving a buffer with count 0 and the created handles. |
| `VulkanBuffer.New` | src/graphics/vulkan/buffer.rs:113-129 | After `new(data)`, `count() == length of data` and the contents are the data. For nonempty data the first allocation is always released and replaced. |
| `VulkanUtil.Shifted` | src/graphics/vulkan/util.rs:11-16 | Shifting a mask right never increases it. |
| `VulkanUtil.FirstQualifying` | src/graphics/vulkan/util.rs:11-18 | The reference search: the first index whose bit is set and whose flags contain the requested ones, or none iff no index qualifies. |
| `VulkanUtil.FirstQualifyingUnique` | src/graphics/vulkan/util.rs:11-18 | Any answer with the first-match properties is the reference answer. |
| `VulkanUtil.FindMemoryTypeIndex` | src/graphics/vulkan/util.rs:6-19 | The loop returns the first index whose original bit is set and whose flags contain the requested ones, or `None` (the panic) iff none of the 32 does. |
| `VulkanUtil.ShiftedPow2` | src/graphics/vulkan/util.rs:11-16 | Shifting `2^k` right by `n <= k` places gives `2^(k-n)`. |
| `VulkanUtil.SingleBitSet` | src/graphics/vulkan/util.rs:11-16 | A mask with only bit `i` set is tested as having bit `i`, so `i` single shifts reach exactly the original bit `i`. |
| `VulkanoShader.AttachmentBlendFor` | src/graphics/vulkano_shader.rs:33-46 | Only `Alpha` converts, to alpha blending. Every other mode panics. |
| `VulkanoShader.PipelineSet.constructor` | src/graphics/vulkano_shader.rs:53-57 | A new set is empty, whatever the capacity hint. |
| `VulkanoShader.PipelineSet.InsertMode` | src/graphics/vulkano_shader.rs:59-65 | The entry for the mode is (re)placed, and every other key and its pipeline is kept. |
| `VulkanoShader.PipelineSet.GetMode` | src/graphics/vulkano_shader.rs:67-77 | `Ok` iff the mode was inserted, with its pipeline. Otherwise the "could not find a pipeline" render error. |
| `VulkanoShader.TableOf` | src/graphics/vulkano_shader.rs:85-103 | The table built by inserting in order has exactly the listed modes as keys. |
| `VulkanoShader.TableOfLastWins` | src/graphics/vulkano_shader.rs:59-103 | A mode's pipeline is the one built for its last occurrence. |
| `VulkanoShader.RequestedModes` | src/graphics/vulkano_shader.rs:85-88 | With no list given, only `Alpha` is built. |
| `VulkanoShader.CreateShader` | src/graphics/vulkano_shader.rs:80-105 | The loop completes iff every requested mode is `Alpha`, leaving the table of one pipeline per listed mode. Otherwise it panics on a requested non-`Alpha` mode. |
| `VulkanoShader.DefaultShaderHasOnlyAlpha` | src/graphics/vulkano_shader.rs:85-103 | With no modes given, the table is exactly `{Alpha: pipeline}`. |
| `VulkanoShader.ShaderProgram.SetBlendMode` | src/graphics/vulkano_shader.rs:131-139 | Succeeds iff the mode has a pipeline, and only then does `get_blend_mode` return the new mode. A missing mode leaves it unchanged and returns the `get_mode` error. |
| `Errors.Description` | src/error.rs:68-84 | Every variant has a nonempty description. |
| `Errors.DescriptionNamesKind` | src/error.rs:68-84 | A description reads back as its variant, so each variant's text is fixed and distinct. |
| `Errors.DescriptionIdentifiesKind` | src/error.rs:68-84 | Two errors have the same description iff they are the same variant, whatever the payloads. |
| `Errors.Cause` | src/error.rs:86-92 | `cause` is `Some` iff the variant is `WindowCreationError` or `IOError`, and then it is the wrapped error. |
| `Errors.Display` | src/error.rs:51-64 | Config, resource-load, resource-not-found and window errors are recognisable by their display prefix. Every other variant prints as `GameError` followed by its debug text and announces no kind. |
| `Errors.DisplayKeepsMessage` | src/error.rs:51-64 | For the prefixed single-message variants, the text after the prefix is the whole message. |
| `Errors.FromForeign` | src/error.rs:98-189 | For each foreign error type, the variant it converts to, both ways. No conversion produces `ResourceNotFound`, `WindowError`, `FontError` or `VideoError`. |
| `Errors.CauseOfConverted` | src/error.rs:86-160 | Only io and window-creation conversions keep a cause, and it is exactly the converted error. |
| `Errors.ConvertedMessageEndsWithForeignText` | src/error.rs:98-189 | Every message-building conversion ends with the foreign error's text, whole. Only the app-dirs conversion adds no label. |
| `Errors.DisplayOfLoadFailure` | src/error.rs:51-144 | Zip and image failures display as resource-load errors with their "Zip error: " or "Image load error: " label. |

## Left out

- Vulkan and vulkano calls are not modelled: image, memory, pipeline and
  render-pass creation, barriers, copies, `single_time_commands` and
  `create_shader_module`. Their handles are opaque values, and their
  failures are the oracle parameters (`CreateOracle`, `UpdateOracle`, the
  `gpu` step of `MakeRaw`).
- GPU futures and fences (`previous_frame_end`, `cleanup_finished`, the
  fence signal) are asynchronous GPU execution. Only the flag, framebuffer
  and batch transitions of `flush` are modelled, with the submission's
  answer as a parameter.
- Floating-point arithmetic is not modelled: matrix products,
  `new_orthographic`, viewports, hidpi factors, `Image::dimensions`, and the
  f32 rounding of the sprite-batch scale (stated over exact reals).
- `rayon`'s `par_iter` is modelled as a sequential map that preserves order.
- Window-system calls are not modelled: `GraphicsContext::set_window_mode`,
  `set_window_icon`, `set_window_title`, `size`, `drawable_size`, hidpi
  queries and the surface FFI. `set_window_mode` is represented only by its
  answer in `Graphics.SetMode`.
- `Bootstrap.PlanSwapchain` covers only the selection rules of `new`. The
  instance, surface, logical device, swapchain, render pass, pipeline and
  sampler creation are foreign calls. Their `unwrap`s, including
  `surface.capabilities` and loading the shaders, are taken to succeed.
- The vulkano `unwrap`s of `draw` and `flush` are taken to succeed. These
  are the uniform, descriptor and instance buffer pools and the secondary
  command-buffer build (src/graphics/context.rs:449-491), the framebuffer
  build (556-558), and the primary command buffer with `begin_render_pass`,
  `execute_commands` and `then_execute` (578-601). A panic in any of them is
  not an outcome of `Context.GraphicsContext.Draw` or of `FlushSpec`.
- The viewport and scissor of a recorded draw are baked into its secondary
  buffer from the dimensions at draw time (src/graphics/context.rs:497-510).
  The model keeps that value (`scissor`) in each record. It does not state
  that a record carried over an out-of-date acquire is executed with a
  scissor that no longer matches the recreated swapchain.
- `VulkanoShader.CreateShader` takes shader loading and pipeline building to
  succeed. They are foreign calls whose `unwrap`s are assumed not to panic.
- `graphics::set_blend_mode` (src/graphics/mod.rs:405-407) calls a method
  that `GraphicsContext` does not define. The blend-mode switch itself is
  `VulkanoShader.ShaderProgram.SetBlendMode`.
- `graphics::draw` and `graphics::present` only forward to a drawable or to
  `end_frame`, which is not defined. They are not modelled.
- `Image::draw` returns `Ok(())` without drawing, so it has no model.
- `Image`'s `Drop`, and the `Drop` of `Buffer`, only release handles.
- The unimplemented stubs (`to_rgba8`, `filter`, `wrap`, `set_wrap`,
  `screenshot`, `default_filter`, `set_default_filter`) are not modelled,
  nor is the commented-out code of the old backend.
- File and codec I/O (`Image::new`, `encode`) goes through the filesystem and
  the image crate, so it is not modelled.
- The shape helpers (`circle`, `ellipse`, `line`, `points`, `polygon`,
  `rectangle`) depend on `Mesh`, and `src/graphics/drawparam.rs` is not part
  of this model. The conversion of a `DrawParam` into a matrix is the
  uninterpreted `Placement`.
- `conf.rs` is not part of this model. `WindowMode`'s fields are those the
  wrappers and `set_window_mode` use.
- `src/graphics/vulkan/image.rs`, `surface.rs` and `lib.rs` hold no logic
  beyond releasing handles, FFI and the module list.
- `InstanceProperties::default` and colour linearisation are left out:
  `draw` calls `to_instance_properties(false)`, which keeps the colour.
- `VulkanUtil.FindMemoryTypeIndex` is not modelled on `u32` bit operations.
  The mask is an unbounded number below 2^32, and a right shift is halving,
  with the same meaning.
- `Errors.Display` takes the derived `Debug` text as a parameter, because
  that text is generated by the compiler.
- The device call log (the `log` field of `VulkanBuffer.Device`) records
  only calls that took effect: every call that returned success, and the
  unmap, free and destroy calls, which cannot fail. A failed call leaves no entry.

## Findings

| source | as written | input that shows it | evidently intended | confidence | as-written member | corrected member |
|---|---|---|---|---|---|---|
| src/graphics/vulkan/buffer.rs:163-181 | `update` unmaps the memory and only then flushes and invalidates the mapped range | memory properties without `HOST_COHERENT`, with the map and the flush succeeding | flush and invalidate while the memory is still mapped (the Vulkan specification's valid-usage rules for `VkMappedMemoryRange` require the memory to be currently host-mapped), then unmap on every path | not executed | `VulkanBuffer.AsWrittenFlushesAfterUnmap` | `VulkanBuffer.WriteMapsAroundRanges` |

`VulkanBuffer.WriteSpec`, `VulkanBuffer.UpdateSpec` and
`VulkanBuffer.Buffer.Update` follow the corrected order. The as-written order
is `VulkanBuffer.WriteAsWritten`.
