/** Callers' views of the Device's lifecycle: what a caller can conclude
    from the contracts alone. */
module Scenarios {
  import opened Gpu
  import opened Scopes
  import opened Devices
  import opened Pipelines
  import opened Passes

  /** Two reads of the surface texture within a frame give the same wrapper;
      the first read after the surface texture changes gives a new one that
      wraps the new texture. */
  method TextureAcrossFrames(d: Device, frame: GpuTexture, next: GpuTexture)
      returns (first: Texture, second: Texture, third: Texture)
    requires frame != next
    modifies d`target
    ensures first == second && first.texture == frame
    ensures third != first && third.texture == next && fresh(third)
  {
    first := d.CurrentTexture(frame);
    second := d.CurrentTexture(frame);
    third := d.CurrentTexture(next);
  }

  /** A copy recorded right after a submission goes into the new encoder
      alone: the submitted recordings stay as they were. */
  method CopyAfterSubmit(d: Device, source: Buffer, destination: Buffer)
    modifies d`encoder, d`submitted
    ensures d.submitted == old(d.submitted) + [old(d.encoder.trace)]
    ensures old(d.encoder).trace == old(d.encoder.trace)
    ensures d.renderEncoder == old(d.renderEncoder) && d.target == old(d.target)
    ensures d.encoder.trace == [CopyBufferToBuffer(source.buffer, 0, destination.buffer, 0, 4 * source.length)]
  {
    d.Submit();
    d.CopyBuffer(source, destination, None, None, None);
  }

  /** One frame: begin a pass on the surface texture, draw, end the pass. On
      a well-scoped recording the result is again well scoped: the draw
      happens inside the pass and the pass is closed. */
  method DrawFrame(d: Device, texture: Texture, pass: RenderPass, count: int)
    requires pass.pipeline.device == d
    requires WellScoped(d.encoder.trace)
    modifies d`renderEncoder, d.encoder
    ensures d.encoder == old(d.encoder)
    ensures d.renderEncoder != null && d.renderEncoder.parent == d.encoder
    ensures d.target == old(d.target) && d.submitted == old(d.submitted)
    ensures d.encoder.trace == old(d.encoder.trace) +
      [BeginRenderPass(RenderPassDescriptorFor(texture, NO_PASS_OPTIONS))] +
      RenderCommands(pass.pipeline.pipeline, pass.groups, pass.vertices, pass.index, count, None) +
      [End]
    ensures WellScoped(d.encoder.trace)
  {
    d.BeginPass(texture, NO_PASS_OPTIONS);
    ghost var begun := d.encoder.trace;
    pass.Render(count, None);
    ghost var drawn := d.encoder.trace;
    RenderKeepsRenderPass(pass.pipeline.pipeline, pass.groups, pass.vertices, pass.index, count, None);
    RunAppend(Outside, begun,
              RenderCommands(pass.pipeline.pipeline, pass.groups, pass.vertices, pass.index, count, None));
    assert Run(Outside, drawn) == InRender;
    d.EndPass();
  }
}
