/** Passes: bind-group materialisation, re-binding of the groups during
    encoding, and the commands a render pass's draw and a compute pass's
    dispatch record. */
module Passes {
  import opened Gpu
  import opened Scopes
  import opened Devices
  import opened Pipelines

  /** One resource of a binding group, at binding slot `i`. */
  datatype ResourceBinding = ResourceBinding(i: nat, resource: Resource)

  /** The entries of the bind group made from a non-empty binding group:
      each slot keeps its resource's binding representation, in order. */
  function Entries(group: seq<ResourceBinding>): (entries: seq<BindGroupEntry>)
    ensures |entries| == |group|
    ensures forall k :: 0 <= k < |group| ==>
      entries[k].binding == group[k].i && entries[k].resource == group[k].resource.binding
  {
    seq(|group|, k requires 0 <= k < |group| => BindGroupEntry(group[k].i, group[k].resource.binding))
  }

  /** The bind groups of a pass over `pipeline`: one slot per binding group,
      absent exactly where the binding group is empty, and otherwise a group
      on the pipeline's layout of the same index. */
  function BindGroups(pipeline: Handle, bindings: seq<seq<ResourceBinding>>): (groups: seq<Option<BindGroup>>)
    ensures |groups| == |bindings|
    ensures forall i :: 0 <= i < |bindings| ==> (groups[i].None? <==> |bindings[i]| == 0)
    ensures forall i :: 0 <= i < |bindings| && groups[i].Some? ==>
      groups[i].value.layout == BindGroupLayoutOf(pipeline, i) &&
      groups[i].value.entries == Entries(bindings[i])
  {
    seq(|bindings|, i requires 0 <= i < |bindings| =>
      if |bindings[i]| == 0 then None else Some(BindGroup(BindGroupLayoutOf(pipeline, i), Entries(bindings[i]))))
  }

  /** The commands `bind` records for `groups`, slot by slot. */
  function BindCommands(groups: seq<Option<BindGroup>>): seq<Cmd>
    decreases |groups|
  {
    if groups == [] then []
    else
      var last := |groups| - 1;
      BindCommands(groups[..last]) +
        (if groups[last].Some? then [SetBindGroup(last, groups[last].value)] else [])
  }

  /** Every command `bind` records sets a present group at its own index. */
  lemma {:induction false} BindCommandsSound(groups: seq<Option<BindGroup>>)
    ensures forall k :: 0 <= k < |BindCommands(groups)| ==>
      BindCommands(groups)[k].SetBindGroup? &&
      BindCommands(groups)[k].index < |groups| &&
      groups[BindCommands(groups)[k].index] == Some(BindCommands(groups)[k].group)
    decreases |groups|
  {
    if groups != [] {
      var last := |groups| - 1;
      var front := groups[..last];
      BindCommandsSound(front);
      var b := BindCommands(groups);
      var b0 := BindCommands(front);
      assert b == b0 + (if groups[last].Some? then [SetBindGroup(last, groups[last].value)] else []);
      forall k | 0 <= k < |b|
        ensures b[k].SetBindGroup? && b[k].index < |groups| && groups[b[k].index] == Some(b[k].group)
      {
        if k < |b0| {
          assert b[k] == b0[k];
          assert groups[b0[k].index] == front[b0[k].index];
        }
      }
    }
  }

  /** `bind` records the groups in strictly ascending order of index. */
  lemma {:induction false} BindCommandsAscending(groups: seq<Option<BindGroup>>)
    ensures forall k :: 0 <= k < |BindCommands(groups)| ==> BindCommands(groups)[k].SetBindGroup?
    ensures forall k, l :: 0 <= k < l < |BindCommands(groups)| ==>
      BindCommands(groups)[k].index < BindCommands(groups)[l].index
    decreases |groups|
  {
    BindCommandsSound(groups);
    if groups != [] {
      var last := |groups| - 1;
      var front := groups[..last];
      BindCommandsAscending(front);
      BindCommandsSound(front);
      var b := BindCommands(groups);
      var b0 := BindCommands(front);
      assert b == b0 + (if groups[last].Some? then [SetBindGroup(last, groups[last].value)] else []);
      forall k, l | 0 <= k < l < |b|
        ensures b[k].index < b[l].index
      {
        assert b[k] == b0[k];
        if l < |b0| {
          assert b[l] == b0[l];
        }
      }
    }
  }

  /** `bind` sets every present group. */
  lemma {:induction false} BindCommandsComplete(groups: seq<Option<BindGroup>>)
    ensures forall i :: 0 <= i < |groups| && groups[i].Some? ==>
      SetBindGroup(i, groups[i].value) in BindCommands(groups)
    decreases |groups|
  {
    if groups != [] {
      var last := |groups| - 1;
      var front := groups[..last];
      BindCommandsComplete(front);
      var b := BindCommands(groups);
      var b0 := BindCommands(front);
      assert b == b0 + (if groups[last].Some? then [SetBindGroup(last, groups[last].value)] else []);
      forall i | 0 <= i < |groups| && groups[i].Some?
        ensures SetBindGroup(i, groups[i].value) in b
      {
        if i < last {
          assert front[i] == groups[i];
          assert SetBindGroup(i, groups[i].value) in b0;
        } else {
          assert b[|b| - 1] == SetBindGroup(i, groups[i].value);
        }
      }
    }
  }

  /** `bind` sets exactly the present groups, each at its own index, in
      ascending order of index, and nothing for an absent slot. */
  lemma BindCommandsExact(groups: seq<Option<BindGroup>>)
    ensures forall k :: 0 <= k < |BindCommands(groups)| ==>
      BindCommands(groups)[k].SetBindGroup? &&
      BindCommands(groups)[k].index < |groups| &&
      groups[BindCommands(groups)[k].index] == Some(BindCommands(groups)[k].group)
    ensures forall k, l :: 0 <= k < l < |BindCommands(groups)| ==>
      BindCommands(groups)[k].index < BindCommands(groups)[l].index
    ensures forall i :: 0 <= i < |groups| && groups[i].Some? ==>
      SetBindGroup(i, groups[i].value) in BindCommands(groups)
  {
    BindCommandsSound(groups);
    BindCommandsAscending(groups);
    BindCommandsComplete(groups);
  }

  /** The number of present groups. */
  function PresentCount(groups: seq<Option<BindGroup>>): nat
    decreases |groups|
  {
    if groups == [] then 0
    else PresentCount(groups[..|groups| - 1]) + (if groups[|groups| - 1].Some? then 1 else 0)
  }

  /** `bind` records one command per present group. */
  lemma {:induction false} BindCommandsLength(groups: seq<Option<BindGroup>>)
    ensures |BindCommands(groups)| == PresentCount(groups)
    ensures PresentCount(groups) <= |groups|
    decreases |groups|
  {
    if groups != [] {
      BindCommandsLength(groups[..|groups| - 1]);
    }
  }

  /** Records `bind` on `encoder`: sets every present group at its index. */
  method Bind(groups: seq<Option<BindGroup>>, encoder: PassEncoder)
    modifies encoder.parent
    ensures encoder.parent.trace == old(encoder.parent.trace) + BindCommands(groups)
  {
    var i := 0;
    while i < |groups|
      invariant 0 <= i <= |groups|
      invariant encoder.parent.trace == old(encoder.parent.trace) + BindCommands(groups[..i])
    {
      assert groups[..i + 1][..i] == groups[..i];
      if groups[i].Some? {
        encoder.parent.Record(SetBindGroup(i, groups[i].value));
      }
      i := i + 1;
    }
    assert groups[..|groups|] == groups;
  }

  /** A recording whose every command keeps scope `s` leaves it in `s`. */
  lemma {:induction false} RunStays(s: Scope, t: seq<Cmd>)
    requires forall k :: 0 <= k < |t| ==> Step(s, t[k]) == s
    ensures Run(s, t) == s
    decreases |t|
  {
    if t != [] {
      assert Step(s, t[0]) == s;
      RunStays(s, t[1..]);
    }
  }

  /** Binding is allowed in a render and in a compute pass, and stays there. */
  lemma BindKeepsScope(s: Scope, groups: seq<Option<BindGroup>>)
    requires s == InRender || s == InCompute
    ensures Run(s, BindCommands(groups)) == s
  {
    BindCommandsSound(groups);
    RunStays(s, BindCommands(groups));
  }

  /** The commands that bind the vertex buffers, slot by slot. */
  function VertexBufferCommands(vertices: seq<Buffer>): seq<Cmd>
    decreases |vertices|
  {
    if vertices == [] then []
    else
      var last := |vertices| - 1;
      VertexBufferCommands(vertices[..last]) + [SetVertexBuffer(last, vertices[last].buffer)]
  }

  /** Vertex buffer `i` is bound at slot `i`, each exactly once, in order. */
  lemma {:induction false} VertexBufferCommandsAt(vertices: seq<Buffer>)
    ensures |VertexBufferCommands(vertices)| == |vertices|
    ensures forall i :: 0 <= i < |vertices| ==>
      VertexBufferCommands(vertices)[i] == SetVertexBuffer(i, vertices[i].buffer)
    decreases |vertices|
  {
    if vertices != [] {
      var last := |vertices| - 1;
      VertexBufferCommandsAt(vertices[..last]);
      forall i | 0 <= i < last
        ensures VertexBufferCommands(vertices)[i] == SetVertexBuffer(i, vertices[i].buffer)
      {
        assert vertices[..last][i] == vertices[i];
      }
    }
  }

  /** The draw that ends `render`: indexed over 32-bit indices when the pass
      has an index buffer, plain otherwise. */
  function DrawCommands(index: Option<Buffer>, count: int, instances: Option<int>): seq<Cmd> {
    match index
    case Some(indexBuffer) => [SetIndexBuffer(indexBuffer.buffer, Uint32), DrawIndexed(count, instances)]
    case None => [Draw(count, instances)]
  }

  /** Everything `render` records. */
  function RenderCommands(pipeline: Handle, groups: seq<Option<BindGroup>>, vertices: seq<Buffer>,
                          index: Option<Buffer>, count: int, instances: Option<int>): seq<Cmd>
  {
    [SetPipeline(pipeline)] + BindCommands(groups) + VertexBufferCommands(vertices) +
      DrawCommands(index, count, instances)
  }

  /** The commands `render` records before its draw. */
  function SetupCommands(pipeline: Handle, groups: seq<Option<BindGroup>>, vertices: seq<Buffer>): seq<Cmd> {
    [SetPipeline(pipeline)] + BindCommands(groups) + VertexBufferCommands(vertices)
  }

  /** A recording that neither draws nor binds an index buffer. */
  predicate Quiet(t: seq<Cmd>) {
    forall k :: 0 <= k < |t| ==> !t[k].IsDraw() && !t[k].SetIndexBuffer?
  }

  lemma QuietAppend(a: seq<Cmd>, b: seq<Cmd>)
    requires Quiet(a) && Quiet(b)
    ensures Quiet(a + b)
  {
    forall k | 0 <= k < |a + b|
      ensures !(a + b)[k].IsDraw() && !(a + b)[k].SetIndexBuffer?
    {
      if k >= |a| {
        assert (a + b)[k] == b[k - |a|];
      }
    }
  }

  /** `render` sets the pipeline first and binds vertex buffer `i` at slot
      `i` after the bind groups; none of that draws or binds an index buffer. */
  lemma RenderCommandsSetup(pipeline: Handle, groups: seq<Option<BindGroup>>, vertices: seq<Buffer>)
    ensures var p := SetupCommands(pipeline, groups, vertices);
      var bound := |BindCommands(groups)|;
      |p| == 1 + bound + |vertices| &&
      p[0] == SetPipeline(pipeline) &&
      (forall i :: 0 <= i < |vertices| ==> p[1 + bound + i] == SetVertexBuffer(i, vertices[i].buffer)) &&
      Quiet(p)
  {
    var b := BindCommands(groups);
    var v := VertexBufferCommands(vertices);
    BindCommandsSound(groups);
    assert Quiet(b);
    VertexBufferCommandsAt(vertices);
    assert Quiet(v);
    QuietAppend([SetPipeline(pipeline)], b);
    QuietAppend([SetPipeline(pipeline)] + b, v);
    var p := [SetPipeline(pipeline)] + b + v;
    forall i | 0 <= i < |vertices|
      ensures p[1 + |b| + i] == SetVertexBuffer(i, vertices[i].buffer)
    {
      assert p[1 + |b| + i] == v[i];
    }
  }

  /** `render` is its setup followed by its only draw: `count` indices after
      binding the index buffer when there is one, `count` vertices otherwise,
      over `instances` instances in both cases; no index buffer is bound
      anywhere else. */
  lemma RenderCommandsDraw(pipeline: Handle, groups: seq<Option<BindGroup>>, vertices: seq<Buffer>,
                           index: Option<Buffer>, count: int, instances: Option<int>)
    ensures var t := RenderCommands(pipeline, groups, vertices, index, count, instances);
      var setup := |SetupCommands(pipeline, groups, vertices)|;
      |t| == setup + (if index.Some? then 2 else 1) &&
      t[..setup] == SetupCommands(pipeline, groups, vertices) &&
      t[|t| - 1] == (if index.Some? then DrawIndexed(count, instances) else Draw(count, instances)) &&
      (forall k :: 0 <= k < |t| - 1 ==> !t[k].IsDraw()) &&
      (forall k :: 0 <= k < |t| && t[k].SetIndexBuffer? ==>
        index.Some? && k == |t| - 2 && t[k] == SetIndexBuffer(index.value.buffer, Uint32)) &&
      (index.Some? ==> t[|t| - 2] == SetIndexBuffer(index.value.buffer, Uint32))
  {
    var p := SetupCommands(pipeline, groups, vertices);
    var d := DrawCommands(index, count, instances);
    var t := RenderCommands(pipeline, groups, vertices, index, count, instances);
    RenderCommandsSetup(pipeline, groups, vertices);
    assert t == p + d;
    assert t[..|p|] == p;
    forall k | 0 <= k < |t| - 1
      ensures !t[k].IsDraw() && !(t[k].SetIndexBuffer? && k < |t| - 2)
    {
      if k < |p| {
        assert t[k] == p[k];
      } else {
        assert t[k] == d[k - |p|];
      }
    }
  }

  /** Inside a render pass, `render` records only what a render pass allows
      and leaves the pass open. */
  lemma RenderKeepsRenderPass(pipeline: Handle, groups: seq<Option<BindGroup>>, vertices: seq<Buffer>,
                              index: Option<Buffer>, count: int, instances: Option<int>)
    ensures Run(InRender, RenderCommands(pipeline, groups, vertices, index, count, instances)) == InRender
  {
    var b := BindCommands(groups);
    var v := VertexBufferCommands(vertices);
    var d := DrawCommands(index, count, instances);
    BindKeepsScope(InRender, groups);
    VertexBufferCommandsAt(vertices);
    RunStays(InRender, v);
    RunStays(InRender, d);
    RunAppend(InRender, [SetPipeline(pipeline)], b);
    RunAppend(InRender, [SetPipeline(pipeline)] + b, v);
    RunAppend(InRender, [SetPipeline(pipeline)] + b + v, d);
  }

  /** Everything `dispatch(x, y, z)` records, in its own compute pass. */
  function DispatchCommands(pipeline: Handle, groups: seq<Option<BindGroup>>, x: int, y: int, z: int): seq<Cmd> {
    [BeginComputePass, SetPipeline(pipeline)] + BindCommands(groups) + [DispatchWorkgroups(x, y, z), End]
  }

  /** `dispatch` opens its own compute pass, sets the pipeline, binds the
      groups, dispatches once and ends the pass; nothing between its begin
      and its end begins, ends or dispatches. */
  lemma DispatchCommandsShape(pipeline: Handle, groups: seq<Option<BindGroup>>, x: int, y: int, z: int)
    ensures var t := DispatchCommands(pipeline, groups, x, y, z);
      |t| == 4 + |BindCommands(groups)| &&
      t[0] == BeginComputePass && t[1] == SetPipeline(pipeline) &&
      t[|t| - 2] == DispatchWorkgroups(x, y, z) && t[|t| - 1] == End &&
      forall k :: 1 < k < |t| - 2 ==> t[k].SetBindGroup?
  {
    var b := BindCommands(groups);
    var t := DispatchCommands(pipeline, groups, x, y, z);
    BindCommandsSound(groups);
    forall k | 1 < k < |t| - 2
      ensures t[k].SetBindGroup?
    {
      assert t[k] == b[k - 2];
    }
  }

  /** A dispatch is self-scoped: recorded outside any pass, it leaves the
      encoder outside any pass, so it keeps a well-scoped recording
      well scoped. */
  lemma DispatchSelfScoped(t: seq<Cmd>, pipeline: Handle, groups: seq<Option<BindGroup>>, x: int, y: int, z: int)
    requires WellScoped(t)
    ensures WellScoped(t + DispatchCommands(pipeline, groups, x, y, z))
  {
    var open := [BeginComputePass, SetPipeline(pipeline)];
    var b := BindCommands(groups);
    var close := [DispatchWorkgroups(x, y, z), End];
    assert open[1..] == [SetPipeline(pipeline)] && [SetPipeline(pipeline)][1..] == [];
    assert Run(InCompute, [SetPipeline(pipeline)]) == InCompute;
    assert Run(Outside, open) == InCompute;
    BindKeepsScope(InCompute, groups);
    assert close[1..] == [End] && [End][1..] == [];
    assert Run(InCompute, close) == Outside;
    RunAppend(Outside, open, b);
    RunAppend(Outside, open + b, close);
    assert DispatchCommands(pipeline, groups, x, y, z) == open + b + close;
    WellScopedAppend(t, DispatchCommands(pipeline, groups, x, y, z));
  }

  /** A compute pass whose second binding group is empty has one bind group,
      at index 0, and `dispatch(4, 4, 1)` records exactly that group between
      its own begin and end. */
  lemma SparseComputeDispatch(pipeline: Handle, binding: ResourceBinding)
    ensures var groups := BindGroups(pipeline, [[binding], []]);
      var group := BindGroup(BindGroupLayoutOf(pipeline, 0), [BindGroupEntry(binding.i, binding.resource.binding)]);
      groups == [Some(group), None] &&
      DispatchCommands(pipeline, groups, 4, 4, 1) ==
        [BeginComputePass, SetPipeline(pipeline), SetBindGroup(0, group), DispatchWorkgroups(4, 4, 1), End]
  {
    var groups := BindGroups(pipeline, [[binding], []]);
    var group := BindGroup(BindGroupLayoutOf(pipeline, 0), [BindGroupEntry(binding.i, binding.resource.binding)]);
    assert Entries([binding]) == [BindGroupEntry(binding.i, binding.resource.binding)];
    assert groups == [Some(group), None];
    assert groups[..1] == [Some(group)];
    assert [Some(group)][..0] == [];
    assert BindCommands([Some(group)]) == BindCommands([]) + [SetBindGroup(0, group)];
    assert BindCommands(groups) == BindCommands([Some(group)]) + [];
  }

  /** A render pass: its pipeline, its bind groups, its vertex buffers
      (index-aligned with the pipeline's layouts) and its optional index
      buffer. */
  class RenderPass {
    const pipeline: RenderPipeline
    const groups: seq<Option<BindGroup>>
    const vertices: seq<Buffer>
    const index: Option<Buffer>

    constructor (pipeline: RenderPipeline, bindings: seq<seq<ResourceBinding>>,
                 vertices: seq<Buffer>, index: Option<Buffer>)
      ensures this.pipeline == pipeline && groups == BindGroups(pipeline.pipeline, bindings)
      ensures this.vertices == vertices && this.index == index
    {
      this.pipeline := pipeline;
      groups := BindGroups(pipeline.pipeline, bindings);
      this.vertices := vertices;
      this.index := index;
    }

    /** Draws `count` vertices (or indices) over `instances` instances on the
        device's current render encoder, which must have been begun. */
    method Render(count: int, instances: Option<int>)
      requires pipeline.device.renderEncoder != null
      modifies pipeline.device.renderEncoder.parent
      ensures pipeline.device.renderEncoder.parent.trace ==
        old(pipeline.device.renderEncoder.parent.trace) +
        RenderCommands(pipeline.pipeline, groups, vertices, index, count, instances)
    {
      var encoder := pipeline.device.renderEncoder;
      encoder.parent.Record(SetPipeline(pipeline.pipeline));
      Bind(groups, encoder);
      var i := 0;
      while i < |vertices|
        invariant 0 <= i <= |vertices|
        invariant encoder.parent.trace ==
          old(encoder.parent.trace) + [SetPipeline(pipeline.pipeline)] + BindCommands(groups) +
          VertexBufferCommands(vertices[..i])
      {
        assert vertices[..i + 1][..i] == vertices[..i];
        encoder.parent.Record(SetVertexBuffer(i, vertices[i].buffer));
        i := i + 1;
      }
      assert vertices[..|vertices|] == vertices;
      match index {
        case Some(indexBuffer) =>
          encoder.parent.Record(SetIndexBuffer(indexBuffer.buffer, Uint32));
          encoder.parent.Record(DrawIndexed(count, instances));
        case None =>
          encoder.parent.Record(Draw(count, instances));
      }
    }
  }

  /** A compute pass: its pipeline and its bind groups. */
  class ComputePass {
    const pipeline: ComputePipeline
    const groups: seq<Option<BindGroup>>

    constructor (pipeline: ComputePipeline, bindings: seq<seq<ResourceBinding>>)
      ensures this.pipeline == pipeline && groups == BindGroups(pipeline.pipeline, bindings)
    {
      this.pipeline := pipeline;
      groups := BindGroups(pipeline.pipeline, bindings);
    }

    /** Dispatches `x` by `y` by `z` workgroups (`y` and `z` default to 1) in a
        compute pass of its own on the device's open encoder; the current
        render encoder is neither used nor changed. */
    method Dispatch(x: int, y: Option<int>, z: Option<int>)
      modifies pipeline.device.encoder
      ensures pipeline.device.renderEncoder == old(pipeline.device.renderEncoder)
      ensures pipeline.device.encoder.trace ==
        old(pipeline.device.encoder.trace) + DispatchCommands(pipeline.pipeline, groups, x, y.GetOr(1), z.GetOr(1))
    {
      var encoder := pipeline.device.encoder;
      encoder.Record(BeginComputePass);
      var pass := new PassEncoder(encoder);
      pass.parent.Record(SetPipeline(pipeline.pipeline));
      Bind(groups, pass);
      pass.parent.Record(DispatchWorkgroups(x, y.GetOr(1), z.GetOr(1)));
      pass.parent.Record(End);
    }
  }
}
