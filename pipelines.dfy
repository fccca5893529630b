/** Pipeline construction: the vertex-format stride table, the vertex-buffer
    layouts derived from the caller's format declarations, and the
    fixed-function state with its defaults. */
module Pipelines {
  import opened Gpu
  import opened Devices

  datatype StepMode = Vertex | Instance

  datatype VertexFormat =
    | I32 | I32x2 | I32x3 | I32x4
    | U32 | U32x2 | U32x3 | U32x4
    | F32 | F32x2 | F32x3 | F32x4

  /** The backend's name of each vertex format. */
  function FormatName(format: VertexFormat): string {
    match format
    case I32 => "sint32"     case I32x2 => "sint32x2"
    case I32x3 => "sint32x3" case I32x4 => "sint32x4"
    case U32 => "uint32"     case U32x2 => "uint32x2"
    case U32x3 => "uint32x3" case U32x4 => "uint32x4"
    case F32 => "float32"    case F32x2 => "float32x2"
    case F32x3 => "float32x3" case F32x4 => "float32x4"
  }

  /** The number of components a format name declares: `N` for a name that
      ends in `xN`, one otherwise. */
  function ComponentCount(name: string): nat {
    if |name| >= 2 && name[|name| - 2] == 'x' && '1' <= name[|name| - 1] <= '9'
    then (name[|name| - 1] as int) - ('0' as int)
    else 1
  }

  /** The byte stride of one vertex of a format: every format stores 32-bit
      components, so the stride is four bytes per component its name
      declares, and only 4, 8, 12 and 16 occur. */
  function GetBytes(format: VertexFormat): (bytes: nat)
    ensures bytes == 4 * ComponentCount(FormatName(format))
    ensures bytes in {4, 8, 12, 16}
  {
    match format
    case I32 | U32 | F32 => 4
    case I32x2 | U32x2 | F32x2 => 8
    case I32x3 | U32x3 | F32x3 => 12
    case I32x4 | U32x4 | F32x4 => 16
  }

  /** A vertex-buffer declaration; a step mode left out is `None`. */
  datatype VertexFormatParams = VertexFormatParams(format: VertexFormat, step: Option<StepMode>)

  datatype VertexAttribute = VertexAttribute(format: VertexFormat, offset: nat, shaderLocation: nat)

  datatype VertexBufferLayout =
    VertexBufferLayout(arrayStride: nat, stepMode: StepMode, attributes: seq<VertexAttribute>)

  /** The layouts of the vertex buffers: one per declaration, each with its
      format's stride, its step mode (per vertex unless declared), and a
      single attribute at offset 0 bound to the declaration's position. */
  function VertexLayouts(vertices: seq<VertexFormatParams>): (layouts: seq<VertexBufferLayout>)
    ensures |layouts| == |vertices|
    ensures forall i :: 0 <= i < |vertices| ==>
      layouts[i].arrayStride == GetBytes(vertices[i].format) &&
      layouts[i].stepMode == (if vertices[i].step.Some? then vertices[i].step.value else Vertex) &&
      |layouts[i].attributes| == 1 &&
      layouts[i].attributes[0].format == vertices[i].format &&
      layouts[i].attributes[0].offset == 0 &&
      layouts[i].attributes[0].shaderLocation == i
  {
    seq(|vertices|, i requires 0 <= i < |vertices| =>
      VertexBufferLayout(GetBytes(vertices[i].format), vertices[i].step.GetOr(Vertex),
                         [VertexAttribute(vertices[i].format, 0, i)]))
  }

  /** A single vertex buffer of three floats per vertex gets a 12-byte
      stride and one attribute at location 0, offset 0. */
  lemma Float3Layout()
    ensures VertexLayouts([VertexFormatParams(F32x3, Some(Vertex))]) ==
      [VertexBufferLayout(12, Vertex, [VertexAttribute(F32x3, 0, 0)])]
  {
  }

  datatype Primitive = PointList | LineList | TriangleList
  datatype CullMode = CullNone | CullFront | CullBack
  datatype BlendFactor = SrcAlpha | OneMinusSrcAlpha
  datatype CompareFunction = Never | Less | Equal | LessEqual | Greater | NotEqual | GreaterEqual | Always

  /** A blend component; a factor left out takes the backend's default. */
  datatype BlendComponent = BlendComponent(srcFactor: Option<BlendFactor>, dstFactor: Option<BlendFactor>)
  datatype BlendState = BlendState(color: BlendComponent, alpha: BlendComponent)

  /** Straight-alpha blending: source alpha over one minus source alpha on
      colour, the backend's default on alpha. */
  const ALPHA_BLEND: BlendState := BlendState(
    BlendComponent(Some(SrcAlpha), Some(OneMinusSrcAlpha)),
    BlendComponent(None, None))

  datatype ColorTargetState = ColorTargetState(format: TextureFormat, blend: Option<BlendState>)
  datatype DepthStencilState =
    DepthStencilState(depthFormat: TextureFormat, depthWriteEnabled: bool, depthCompare: CompareFunction)

  datatype VertexState = VertexState(vertexModule: Handle, entryPoint: string, buffers: seq<VertexBufferLayout>)
  datatype FragmentState = FragmentState(fragmentModule: Handle, fragmentEntryPoint: string, targets: seq<ColorTargetState>)
  datatype PrimitiveState = PrimitiveState(topology: Primitive, cullMode: CullMode)

  /** The argument of `createRenderPipeline`; the layout is always inferred
      from the shader ("auto"). */
  datatype RenderPipelineDescriptor = RenderPipelineDescriptor(
    vertex: VertexState,
    fragment: FragmentState,
    primitive: PrimitiveState,
    depthStencil: Option<DepthStencilState>,
    sampleCount: Option<int>)

  /** The options of a render pipeline; an option left out is `None`. */
  datatype RenderPipelineParams = RenderPipelineParams(
    vertex: Option<string>,
    fragment: Option<string>,
    primitive: Option<Primitive>,
    cull: Option<CullMode>,
    depth: Option<TextureFormat>,
    samples: Option<int>,
    blend: Option<bool>)

  const NO_PIPELINE_OPTIONS: RenderPipelineParams :=
    RenderPipelineParams(None, None, None, None, None, None, None)

  /** The descriptor a render pipeline is created from, for the shader
      module `shader`, the colour target format `format`, the vertex-buffer
      declarations `vertices` and the options `params`. */
  function RenderPipelineDescriptorFor(shader: Handle, format: TextureFormat,
                                       vertices: seq<VertexFormatParams>,
                                       params: RenderPipelineParams): (d: RenderPipelineDescriptor)
    // both stages come from the one shader module, at "vs" and "fs" unless named
    ensures d.vertex.vertexModule == shader && d.fragment.fragmentModule == shader
    ensures d.vertex.entryPoint == (if params.vertex.Some? then params.vertex.value else "vs")
    ensures d.fragment.fragmentEntryPoint == (if params.fragment.Some? then params.fragment.value else "fs")
    ensures d.vertex.buffers == VertexLayouts(vertices)
    // a single colour target, blended exactly when blending is asked for
    ensures |d.fragment.targets| == 1 && d.fragment.targets[0].format == format
    ensures d.fragment.targets[0].blend.Some? <==> params.blend == Some(true)
    ensures d.fragment.targets[0].blend.Some? ==> d.fragment.targets[0].blend.value == ALPHA_BLEND
    // triangle lists without culling unless chosen otherwise
    ensures d.primitive.topology == (if params.primitive.Some? then params.primitive.value else TriangleList)
    ensures d.primitive.cullMode == (if params.cull.Some? then params.cull.value else CullNone)
    // a depth stage exactly when a depth format is given: writes on, less-than test
    ensures d.depthStencil.Some? <==> params.depth.Some?
    ensures params.depth.Some? ==>
      d.depthStencil.value == DepthStencilState(params.depth.value, true, Less)
    ensures d.sampleCount == params.samples
  {
    var blend := params.blend.GetOr(false);
    RenderPipelineDescriptor(
      VertexState(shader, params.vertex.GetOr("vs"), VertexLayouts(vertices)),
      FragmentState(shader, params.fragment.GetOr("fs"),
                    [ColorTargetState(format, if blend then Some(ALPHA_BLEND) else None)]),
      PrimitiveState(params.primitive.GetOr(TriangleList), params.cull.GetOr(CullNone)),
      match params.depth
      case Some(depth) => Some(DepthStencilState(depth, true, Less))
      case None => None,
      params.samples)
  }

  /** With every option left out: entry points "vs" and "fs", triangle
      lists, no culling, no blending, no depth stage. */
  lemma PipelineDefaults(shader: Handle, format: TextureFormat, vertices: seq<VertexFormatParams>)
    ensures var d := RenderPipelineDescriptorFor(shader, format, vertices, NO_PIPELINE_OPTIONS);
      d.vertex.entryPoint == "vs" && d.fragment.fragmentEntryPoint == "fs" &&
      d.primitive == PrimitiveState(TriangleList, CullNone) &&
      d.fragment.targets == [ColorTargetState(format, None)] &&
      d.depthStencil == None
  {
  }

  /** A render pipeline: its owning Device, the backend pipeline and the
      descriptor it was created from. */
  class RenderPipeline {
    const device: Device
    const pipeline: Handle
    const descriptor: RenderPipelineDescriptor

    /** Builds a render pipeline on `device`; `created` is the backend
        pipeline that `createRenderPipeline` returns for the descriptor. */
    constructor (device: Device, shader: Handle, format: TextureFormat,
                 vertices: seq<VertexFormatParams>, params: RenderPipelineParams, created: Handle)
      ensures this.device == device && pipeline == created
      ensures descriptor == RenderPipelineDescriptorFor(shader, format, vertices, params)
    {
      this.device := device;
      pipeline := created;
      descriptor := RenderPipelineDescriptorFor(shader, format, vertices, params);
    }
  }

  /** The argument of `createComputePipeline`; the layout is inferred. */
  datatype ComputePipelineDescriptor = ComputePipelineDescriptor(computeModule: Handle, computeEntryPoint: string)

  /** The descriptor of a compute pipeline: entry point "main" unless named. */
  function ComputePipelineDescriptorFor(shader: Handle, entry: Option<string>): (d: ComputePipelineDescriptor)
    ensures d.computeModule == shader
    ensures d.computeEntryPoint == (if entry.Some? then entry.value else "main")
  {
    ComputePipelineDescriptor(shader, entry.GetOr("main"))
  }

  /** A compute pipeline: its owning Device, the backend pipeline and the
      descriptor it was created from. */
  class ComputePipeline {
    const device: Device
    const pipeline: Handle
    const descriptor: ComputePipelineDescriptor

    /** Builds a compute pipeline on `device`; `created` is the backend
        pipeline that `createComputePipeline` returns for the descriptor. */
    constructor (device: Device, shader: Handle, entry: Option<string>, created: Handle)
      ensures this.device == device && pipeline == created
      ensures descriptor == ComputePipelineDescriptorFor(shader, entry)
    {
      this.device := device;
      pipeline := created;
      descriptor := ComputePipelineDescriptorFor(shader, entry);
    }
  }
}
