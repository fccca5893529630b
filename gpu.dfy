/** The boundary of the recording layer: opaque backend objects, the resource
    wrappers it reads, the descriptors it passes to the backend, and the
    commands it records into command encoders. */
module Gpu {

  /** An opaque backend object: a shader module, a GPU buffer, a pipeline,
      the binding representation of a resource. Only its identity matters. */
  type Handle = nat

  /** An argument that the caller may leave out (`undefined` in the source). */
  datatype Option<+T> = None | Some(value: T) {

    /** The value if present, otherwise `default` (a defaulted parameter). */
    function GetOr(default: T): T {
      match this
      case Some(v) => v
      case None => default
    }
  }

  /** The name of a texture format; every format name is a non-empty string,
      so a supplied format is always truthy. */
  type TextureFormat = s: string | |s| > 0 witness "rgba8unorm"

  /** A backend texture: its identity and its extent. */
  datatype GpuTexture = GpuTexture(id: Handle, size: seq<nat>)

  /** The default view of a backend texture. */
  datatype View = ViewOf(texture: Handle)

  /** The wrapper object handed out for a backend texture. */
  class Texture {
    const texture: GpuTexture
    const view: View
    const size: seq<nat>

    constructor (texture: GpuTexture)
      ensures this.texture == texture
      ensures view == ViewOf(texture.id) && size == texture.size
    {
      this.texture := texture;
      view := ViewOf(texture.id);
      size := texture.size;
    }
  }

  /** A buffer wrapper: the backend buffer and its length in 4-byte elements. */
  datatype Buffer = Buffer(buffer: Handle, length: nat)

  /** A bindable resource, seen only through the binding representation its
      `getBinding()` produces. */
  datatype Resource = Resource(binding: Handle)

  datatype LoadOp = Clear | Load
  datatype StoreOp = Store

  /** A clear colour: a floating-point payload, kept opaque. */
  datatype Color = White | Rgba(payload: Handle)

  datatype ColorAttachment =
    ColorAttachment(view: View, clearValue: Color, loadOp: LoadOp, storeOp: StoreOp)

  datatype DepthAttachment =
    DepthAttachment(depthView: View, depthClearValue: int, depthLoadOp: LoadOp, depthStoreOp: StoreOp)

  datatype RenderPassDescriptor = RenderPassDescriptor(
    colorAttachments: seq<ColorAttachment>,
    depthStencilAttachment: Option<DepthAttachment>)

  /** What `getBindGroupLayout(index)` yields on the pipeline `pipeline`. */
  datatype BindGroupLayout = BindGroupLayoutOf(pipeline: Handle, index: nat)

  datatype BindGroupEntry = BindGroupEntry(binding: nat, resource: Handle)

  /** A bind group, identified by the descriptor it was created from
      (bind groups are immutable once built). */
  datatype BindGroup = BindGroup(layout: BindGroupLayout, entries: seq<BindGroupEntry>)

  datatype IndexFormat = Uint16 | Uint32

  /** One backend call recorded into a command encoder. Commands issued on a
      pass encoder are recorded into the command encoder that began the pass,
      between its begin and its `End`. */
  datatype Cmd =
    | BeginRenderPass(pass: RenderPassDescriptor)
    | BeginComputePass
    | End
    | CopyBufferToBuffer(source: Handle, sourceOffset: int, destination: Handle, destinationOffset: int, byteCount: int)
    | CopyTextureToTexture(sourceTexture: Handle, destinationTexture: Handle, copySize: seq<nat>)
    | SetPipeline(pipeline: Handle)
    | SetBindGroup(index: nat, group: BindGroup)
    | SetVertexBuffer(slot: nat, vertexBuffer: Handle)
    | SetIndexBuffer(indexBuffer: Handle, indexFormat: IndexFormat)
    | Draw(vertexCount: int, instanceCount: Option<int>)
    | DrawIndexed(indexCount: int, indexedInstanceCount: Option<int>)
    | DispatchWorkgroups(x: int, y: int, z: int)
  {
    predicate IsDraw() { Draw? || DrawIndexed? }
  }

  /** A command encoder: an append-only recording. */
  class CommandEncoder {
    var trace: seq<Cmd>

    constructor ()
      ensures trace == []
    {
      trace := [];
    }

    method Record(c: Cmd)
      modifies this
      ensures trace == old(trace) + [c]
    {
      trace := trace + [c];
    }
  }

  /** A render or compute pass encoder; it records into `parent`. */
  class PassEncoder {
    const parent: CommandEncoder

    constructor (parent: CommandEncoder)
      ensures this.parent == parent
    {
      this.parent := parent;
    }
  }
}
