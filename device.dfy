/** The Device: owner of the open command encoder, the current render pass
    encoder and the cached wrapper of the surface texture. */
module Devices {
  import opened Gpu
  import opened Scopes

  /** The options of `beginPass`; an option left out is `None`. */
  datatype RenderEncoderParams = RenderEncoderParams(
    load: Option<LoadOp>,
    color: Option<Color>,
    depth: Option<Texture>,
    depthLoad: Option<LoadOp>)

  /** `beginPass(texture)` with every option left out. */
  const NO_PASS_OPTIONS: RenderEncoderParams := RenderEncoderParams(None, None, None, None)

  /** The descriptor `beginPass` hands to `beginRenderPass`: one colour
      attachment on the target's view, and a depth attachment exactly when a
      depth texture is given, whose load operation defaults to the colour
      attachment's. */
  function RenderPassDescriptorFor(texture: Texture, params: RenderEncoderParams): (d: RenderPassDescriptor)
    ensures |d.colorAttachments| == 1
    ensures d.colorAttachments[0].view == texture.view
    ensures d.colorAttachments[0].storeOp == Store
    ensures d.colorAttachments[0].loadOp == (if params.load.Some? then params.load.value else Clear)
    ensures d.colorAttachments[0].clearValue == (if params.color.Some? then params.color.value else White)
    ensures d.depthStencilAttachment.Some? <==> params.depth.Some?
    ensures params.depth.Some? ==>
      d.depthStencilAttachment.value.depthView == params.depth.value.view &&
      d.depthStencilAttachment.value.depthClearValue == 1 &&
      d.depthStencilAttachment.value.depthStoreOp == Store &&
      d.depthStencilAttachment.value.depthLoadOp ==
        (if params.depthLoad.Some? then params.depthLoad.value else d.colorAttachments[0].loadOp)
  {
    var load := params.load.GetOr(Clear);
    var depthLoad := params.depthLoad.GetOr(load);
    RenderPassDescriptor(
      [ColorAttachment(texture.view, params.color.GetOr(White), load, Store)],
      match params.depth
      case Some(depth) => Some(DepthAttachment(depth.view, 1, depthLoad, Store))
      case None => None)
  }

  /** With no options, a pass clears to white and has no depth attachment. */
  lemma RenderPassDefaults(texture: Texture)
    ensures RenderPassDescriptorFor(texture, NO_PASS_OPTIONS).colorAttachments ==
      [ColorAttachment(texture.view, White, Clear, Store)]
    ensures RenderPassDescriptorFor(texture, NO_PASS_OPTIONS).depthStencilAttachment == None
  {
  }

  /** Without an explicit depth load operation, the depth attachment loads
      the way the colour attachment does, whichever way that is. */
  lemma DepthLoadFollowsLoad(texture: Texture, params: RenderEncoderParams)
    requires params.depth.Some? && params.depthLoad.None?
    ensures RenderPassDescriptorFor(texture, params).depthStencilAttachment.value.depthLoadOp ==
            RenderPassDescriptorFor(texture, params).colorAttachments[0].loadOp
  {
  }

  class Device {
    /** The preferred texture format of the surface. */
    const format: TextureFormat

    /** The open command encoder; there is always one. */
    var encoder: CommandEncoder

    /** The encoder of the last render pass begun, if any. */
    var renderEncoder: PassEncoder?

    /** The cached wrapper of the surface texture, if one was built. */
    var target: Texture?

    /** The recordings submitted to the queue, in submission order. */
    var submitted: seq<seq<Cmd>>

    constructor (format: TextureFormat)
      ensures this.format == format
      ensures fresh(encoder) && encoder.trace == []
      ensures renderEncoder == null && target == null && submitted == []
    {
      this.format := format;
      encoder := new CommandEncoder();
      renderEncoder := null;
      target := null;
      submitted := [];
    }

    /** The `texture` getter; `current` is what the surface reports as its
        current texture. The cached wrapper is kept while the surface texture
        is the one it wraps, and replaced by a fresh wrapper otherwise. */
    method CurrentTexture(current: GpuTexture) returns (t: Texture)
      modifies this`target
      ensures target == t && t.texture == current
      ensures old(target) != null && old(target).texture == current ==> t == old(target)
      ensures old(target) == null || old(target).texture != current ==> fresh(t)
    {
      if target == null || current != target.texture {
        target := new Texture(current);
      }
      t := target;
    }

    /** Opens a render pass on the open encoder and makes its encoder the
        current render encoder. */
    method BeginPass(texture: Texture, params: RenderEncoderParams)
      modifies this`renderEncoder, encoder
      ensures encoder == old(encoder)
      ensures encoder.trace == old(encoder.trace) + [BeginRenderPass(RenderPassDescriptorFor(texture, params))]
      ensures fresh(renderEncoder) && renderEncoder.parent == encoder
      ensures Run(Outside, old(encoder.trace)) == Outside ==> Run(Outside, encoder.trace) == InRender
    {
      encoder.Record(BeginRenderPass(RenderPassDescriptorFor(texture, params)));
      renderEncoder := new PassEncoder(encoder);
      RunAppend(Outside, old(encoder.trace), [BeginRenderPass(RenderPassDescriptorFor(texture, params))]);
    }

    /** Ends the current render pass; the source dereferences the render
        encoder, so one must have been begun. */
    method EndPass()
      requires renderEncoder != null
      modifies renderEncoder.parent
      ensures renderEncoder.parent.trace == old(renderEncoder.parent.trace) + [End]
      ensures Run(Outside, old(renderEncoder.parent.trace)) == InRender ==>
        Run(Outside, renderEncoder.parent.trace) == Outside
    {
      renderEncoder.parent.Record(End);
      RunAppend(Outside, old(renderEncoder.parent.trace), [End]);
    }

    /** Finishes the open encoder, enqueues its recording and opens a fresh,
        empty encoder in its place. */
    method Submit()
      modifies this`encoder, this`submitted
      ensures submitted == old(submitted) + [old(encoder.trace)]
      ensures fresh(encoder) && encoder.trace == []
    {
      submitted := submitted + [encoder.trace];
      encoder := new CommandEncoder();
    }

    /** Records a copy of `length` 4-byte elements (all of `source` when left
        out) between two buffers, at offsets that default to 0. */
    method CopyBuffer(source: Buffer, destination: Buffer,
                      sourceOffset: Option<int>, destinationOffset: Option<int>, length: Option<int>)
      modifies encoder
      ensures encoder.trace == old(encoder.trace) + [CopyBufferToBuffer(
        source.buffer, sourceOffset.GetOr(0), destination.buffer, destinationOffset.GetOr(0),
        4 * length.GetOr(source.length))]
    {
      var elements := length.GetOr(source.length);
      encoder.Record(CopyBufferToBuffer(source.buffer, sourceOffset.GetOr(0),
                                        destination.buffer, destinationOffset.GetOr(0), 4 * elements));
    }

    /** Records a texture-to-texture copy of `size` (the source's size when
        left out). */
    method CopyTexture(source: Texture, destination: Texture, size: Option<seq<nat>>)
      modifies encoder
      ensures encoder.trace == old(encoder.trace) +
        [CopyTextureToTexture(source.texture.id, destination.texture.id, size.GetOr(source.size))]
    {
      encoder.Record(CopyTextureToTexture(source.texture.id, destination.texture.id, size.GetOr(source.size)));
    }
  }
}
