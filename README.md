# GPU command-recording layer, modelled in Dafny

This project models the pipeline/pass/bind-group layer of a small WebGPU
wrapper (`src/lib/Device.ts`). The layer gives callers render and compute
pipelines, passes that bind resource groups, and a `Device` that owns the
command-encoder lifecycle. Everything it does is synchronous and sequential.
Its observable effect is which backend commands it records, in what order
and with what arguments. The model states that effect as equalities over
command traces.

- `gpu.dfy` (module `Gpu`): opaque backend handles (`Handle = nat`), the
  texture, buffer and resource wrappers at the boundary, the descriptors
  passed to the backend, and `Cmd`, one constructor per backend call.
  `CommandEncoder` holds an append-only `trace`. A `PassEncoder` records into
  the command encoder that began it (`parent`), as WebGPU pass encoders do.
- `scopes.dfy` (module `Scopes`): the backend's pass-nesting rule as a small
  state machine over a trace (`Outside`, `InRender`, `InCompute`, `Invalid`).
  The layer never checks this rule. The model uses it to state that what
  `render`, `bind` and `dispatch` record is well scoped.
- `device.dfy` (module `Devices`): the `beginPass` descriptor with its
  defaults, and the `Device` class. Its fields are the open `encoder`, the
  current `renderEncoder`, the cached surface-texture wrapper `target`, and
  the recordings `submitted` to the queue. `encoder` is a non-null field, so
  the Device always has an open encoder.
- `pipelines.dfy` (module `Pipelines`): the vertex-format stride table, the
  vertex-buffer layout derivation, and the render and compute pipeline
  descriptors with their defaults.
- `passes.dfy` (module `Passes`): bind-group materialisation, `bind`, and the
  `RenderPass` and `ComputePass` classes with `render` and `dispatch`.
- `scenarios.dfy` (module `Scenarios`): caller-side methods. They show what
  callers can conclude from the contracts alone: the texture cache across
  frames, a copy right after a submission, and one whole frame.

Backend objects (pipelines, bind-group layouts, shader modules, buffers) are
opaque handles. A bind group is identified by the descriptor it was created
from: its layout `BindGroupLayoutOf(pipeline, index)` and its entries. The
handle a pipeline creation returns is a parameter of the `RenderPipeline` or
`ComputePipeline` constructor, which keeps it beside the descriptor the
pipeline was created from. What the surface reports as its current texture is
a parameter of `Device.CurrentTexture`. Optional parameters are `Option`
values, and the source's defaults are applied with `GetOr`.

Three behaviours of the code worth knowing:
- `endPass` does not clear `renderEncoder` (`src/lib/Device.ts:92`). After it,
  and after a `submit`, a `render` still records into the command encoder
  that began the last pass. `RenderPass.Render` records into
  `renderEncoder.parent`, and that may be an already submitted encoder.
- Nothing in the code stops a second render pass from being begun while one
  is open. The model records it, and `Scopes` marks the result `Invalid`
  (`Scopes.NestedRenderPassInvalid`).
- `render` passes `instances` on unchanged, even when it was left out. The
  backend then draws one instance. The model keeps the `Option` in the
  `Draw`/`DrawIndexed` command.

## Model

| member | source | states |
|---|---|---|
| `Pipelines.GetBytes` | src/lib/Device.ts:186-195 | the stride is 4 bytes per component named by the format's backend name (4 for scalar, 8 for x2, 12 for x3, 16 for x4), and no value other than 4, 8, 12, 16 occurs |
| `Pipelines.VertexLayouts` | src/lib/Device.ts:208-217 | one layout per declaration; layout i has stride GetBytes(format_i), step mode step_i or per-vertex when left out, and exactly one attribute, of format_i, at offset 0 and shader location i |
| `Pipelines.Float3Layout` | src/lib/Device.ts:208-217 | one per-vertex float32x3 buffer yields stride 12 and one attribute at location 0, offset 0 |
| `Pipelines.RenderPipelineDescriptorFor` | src/lib/Device.ts:199-254 | both stages use the shader module, at "vs"/"fs" unless named; buffers are the derived layouts; one colour target of the given format, with straight-alpha blend iff blend is true (default false); topology and cull default to triangle-list and none; a depth stage iff a depth format is given, then with writes enabled and compare "less"; the sample count is passed on |
| `Pipelines.PipelineDefaults` | src/lib/Device.ts:202-204 | with no options: "vs"/"fs", triangle-list, no culling, an unblended target, no depth stage |
| `Pipelines.ComputePipelineDescriptorFor` | src/lib/Device.ts:301-308 | the compute stage uses the shader module at entry point "main" unless named |
| `Pipelines.RenderPipeline.constructor` | src/lib/Device.ts:199-255 | the pipeline keeps its device, the backend pipeline created for it, and exactly the descriptor RenderPipelineDescriptorFor(shader, format, vertices, options) |
| `Pipelines.ComputePipeline.constructor` | src/lib/Device.ts:301-308 | the pipeline keeps its device, the backend pipeline created for it, and exactly the descriptor ComputePipelineDescriptorFor(shader, entry) |
| `Passes.Entries` | src/lib/Device.ts:144 | each `{i, resource}` becomes `{binding: i, resource: getBinding()}`, same length, same order |
| `Passes.BindGroups` | src/lib/Device.ts:137-146 | as many slots as binding groups; slot i is absent iff binding group i is empty; a present slot uses the pipeline's layout i and the entries of group i |
| `Passes.BindCommandsExact` | src/lib/Device.ts:148-156 | what `bind` records is only SetBindGroup(i, g) with groups[i] == Some(g), in strictly ascending i, and every present slot is set |
| `Passes.BindCommandsLength` | src/lib/Device.ts:148-156 | `bind` records exactly one command per present group, never more than there are slots |
| `Passes.Bind` | src/lib/Device.ts:148-156 | the loop appends exactly BindCommands(groups) to the pass encoder's command encoder |
| `Passes.BindKeepsScope` | src/lib/Device.ts:148-156 | binding is legal inside a render or a compute pass and leaves the encoder in that pass |
| `Passes.VertexBufferCommandsAt` | src/lib/Device.ts:278-283 | vertex buffer i is bound at slot i, each once, in order, one command per buffer |
| `Passes.RenderCommandsSetup` | src/lib/Device.ts:271-285 | before its draw, `render` records SetPipeline first, then the bind commands, then vertex buffer i at position 1 + binds + i; nothing in that setup draws or binds an index buffer |
| `Passes.RenderCommandsDraw` | src/lib/Device.ts:271-292 | `render` is its setup followed by its only draw: SetIndexBuffer(index, uint32) and DrawIndexed(count, instances) iff an index buffer is present, else Draw(count, instances); no SetIndexBuffer appears anywhere else |
| `Passes.RenderKeepsRenderPass` | src/lib/Device.ts:271-292 | recorded inside a render pass, everything `render` records is legal there and the pass stays open |
| `Passes.RenderPass.constructor` | src/lib/Device.ts:264-269 | the pass keeps its pipeline, the materialised groups, the vertex buffers, and the index buffer or none |
| `Passes.RenderPass.Render` | src/lib/Device.ts:271-292 | appends exactly RenderCommands(...) to the command encoder of the device's current render encoder |
| `Passes.DispatchCommandsShape` | src/lib/Device.ts:317-327 | `dispatch` records BeginComputePass, SetPipeline, only SetBindGroup commands, then DispatchWorkgroups(x, y, z) and End |
| `Passes.DispatchSelfScoped` | src/lib/Device.ts:317-327 | a dispatch appended to a well-scoped recording leaves it well scoped: its compute pass is opened and closed within the call |
| `Passes.SparseComputeDispatch` | src/lib/Device.ts:317-327 | two binding groups with the second empty give one bind group, at index 0; dispatch(4, 4, 1) records exactly begin, pipeline, that group, the dispatch and end |
| `Passes.ComputePass.constructor` | src/lib/Device.ts:315 | the pass keeps its pipeline and the materialised groups |
| `Passes.ComputePass.Dispatch` | src/lib/Device.ts:317-327 | appends exactly DispatchCommands(pipeline, groups, x, y or 1, z or 1) to the device's open encoder; the current render encoder is neither used nor changed |
| `Devices.RenderPassDescriptorFor` | src/lib/Device.ts:70-90 | one colour attachment on the target's view, storing, loading with `load` (default clear) and clearing to `color` (default white); a depth attachment iff a depth texture is given, on its view, clear value 1, storing, loading with `depthLoad`, which defaults to the colour load operation |
| `Devices.RenderPassDefaults` | src/lib/Device.ts:70-74 | with no options: clear to white and no depth attachment |
| `Devices.DepthLoadFollowsLoad` | src/lib/Device.ts:73 | without an explicit depthLoad, the depth attachment loads as the colour attachment does |
| `Devices.Device.constructor` | src/lib/Device.ts:63-67 | a new device has a fresh empty encoder, no render encoder, no cached target, nothing submitted |
| `Devices.Device.CurrentTexture` | src/lib/Device.ts:50-58 | returns the cached wrapper when it wraps the current surface texture; otherwise caches and returns a fresh wrapper of it |
| `Devices.Device.BeginPass` | src/lib/Device.ts:70-90 | records BeginRenderPass(RenderPassDescriptorFor(texture, options)) on the open encoder and makes a fresh pass encoder on it the current render encoder; from outside any pass it opens a render pass |
| `Scopes.NestedRenderPassInvalid` | src/lib/Device.ts:70-90 | `beginPass` does not check for an open pass: beginning one while a render pass is open makes the recording invalid, whatever follows |
| `Devices.Device.EndPass` | src/lib/Device.ts:92 | records End on the current render encoder's command encoder, closing an open render pass |
| `Devices.Device.Submit` | src/lib/Device.ts:93-98 | appends the open encoder's recording to the submitted queue and replaces the encoder with a fresh, empty one |
| `Devices.Device.CopyBuffer` | src/lib/Device.ts:100-106 | records one buffer copy of 4 * length bytes, length defaulting to the source's length and both offsets to 0, on the open encoder only |
| `Devices.Device.CopyTexture` | src/lib/Device.ts:108-112 | records one texture copy between the two textures of `size`, defaulting to the source's size |
| `Scenarios.TextureAcrossFrames` | src/lib/Device.ts:51-58 | two reads in one frame give the same wrapper; a read after the surface texture changes gives a new wrapper of the new texture |
| `Scenarios.CopyAfterSubmit` | src/lib/Device.ts:93-106 | after submit then copyBuffer, the submitted recordings gain only the old encoder's, the old encoder's recording is unchanged, the new encoder holds only the copy, and the render encoder and cached target are untouched |
| `Scenarios.DrawFrame` | src/lib/Device.ts:70-92 | beginPass, render, endPass on a well-scoped recording record begin, the render commands and End on the same encoder, leave the recording well scoped and the new pass encoder current on that encoder, and change neither the cached target nor the submitted queue |

## Left out

- `Device.init` (`src/lib/Device.ts:32-48`) is not modelled. It acquires the adapter, device and canvas context asynchronously and configures the canvas, which is browser I/O. The model's Device starts at its constructor.
- The backend work behind `createRenderPipeline`, `createComputePipeline`, `createBindGroup`, `getBindGroupLayout`, `createView` and `getBinding()` is not modelled. These are foreign calls. Their results are opaque handles or the descriptor values passed to them.
- Backend validation is not modelled: copies beyond a buffer's capacity, recording into a finished encoder, drawing outside an open pass, ending a pass that is not open. The code checks none of these. `Scopes` states only the pass-nesting part, as a property of what the layer records.
- `Devices.Device.EndPass` requires that a render pass was begun at some time. The source reads `renderEncoder` unconditionally, so without one it fails at run time.
- `Passes.RenderPass.Render` requires the same of the device.
- `Color4` and the `Math` types are not modelled; they are floating-point payloads. A clear colour is opaque (`White` or `Rgba(payload)`).
- All numeric arguments are unbounded integers. The source's numbers are double-precision floats. Fractional or non-finite counts, offsets and lengths are not modelled, and neither is float rounding in `4 * length`.
- Undefined and null arguments are both `None`. The source's `??` and `??=` treat them alike. Its default parameters apply to undefined only, and the model does not tell the two apart.
- The texture and buffer wrapper classes (`src/lib/Resource.ts`) are not part of this model. A wrapper's view is taken to be the default view of its texture (`ViewOf(id)`). A wrapper's size is its texture's size. A buffer's `length` counts 4-byte elements.
- Identity of the surface texture is exact equality of the `GpuTexture` value (its handle and size), standing for the source's reference comparison.
- The compute pass encoder that `dispatch` begins has no state of its own. Its commands go to the device's open encoder.
- `src/lib/Input.ts` is not modelled. It registers DOM event listeners and polls UI input, uses floating-point mouse coordinates, and shares no state with the GPU layer.
