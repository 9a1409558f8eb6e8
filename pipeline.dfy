/** The graphics-pipeline builder (src/pipeline/pipeline.rs). Each setter
    consumes the builder and returns it with one field replaced or one list
    extended, so the builder is a record value and the setters are functions.
    `Build` checks the required fields in a fixed order and assembles the
    create info. The driver's answers (shader-module, layout and pipeline
    creation) are inputs: None stands for a failed call. Floating-point state
    (viewport size, line width, blend constants) is not modelled. */
module Pipeline {
  import opened VkTypes

  datatype ShaderStage = StageVertex | StageFragment | StageGeometry | StageCompute
  datatype ShaderModuleHandle = ShaderModuleId(id: nat)
  datatype ShaderEntry = ShaderEntry(shaderModule: ShaderModuleHandle, stage: ShaderStage, entryPoint: string)

  datatype Topology = PointList | LineList | LineStrip | TriangleList | TriangleStrip | TriangleFan
  datatype PolygonMode = PolygonFill | PolygonLine | PolygonPoint
  datatype CullMode = CullNone | CullFront | CullBack | CullFrontAndBack
  datatype FrontFace = CounterClockwise | Clockwise
  datatype CompareOp = Never | Less | Equal | LessOrEqual | Greater | NotEqual | GreaterOrEqual | Always
  datatype LogicOp = LogicClear | LogicAnd | LogicCopy | LogicNoOp | LogicXor | LogicOr | LogicSet
  datatype DynamicState = DynamicViewport | DynamicScissor | DynamicLineWidth | DynamicOther(code: nat)

  datatype BlendFactor = Zero | One | SrcAlpha | OneMinusSrcAlpha
  datatype BlendOp = BlendAdd | BlendSubtract
  datatype ColorComponent = R | G | B | A
  datatype ColorBlendAttachment = ColorBlendAttachment(
    writeMask: set<ColorComponent>,
    blendEnable: bool,
    srcColorFactor: BlendFactor,
    dstColorFactor: BlendFactor,
    colorOp: BlendOp,
    srcAlphaFactor: BlendFactor,
    dstAlphaFactor: BlendFactor,
    alphaOp: BlendOp)

  /** Descriptions the builder only passes through. */
  datatype DescriptorSetLayout = DescriptorSetLayoutId(id: nat)
  datatype PushConstantRange = PushConstantRange(stages: set<ShaderStage>, offset: nat, size: nat)
  datatype VertexBinding = VertexBinding(binding: nat, stride: nat, perInstance: bool)
  datatype VertexAttribute = VertexAttribute(location: nat, binding: nat, format: Format, offset: nat)

  /** A viewport: one given explicitly (its float fields are not modelled) or
      the default one covering the extent from (0,0) with depth 0..1. */
  datatype Viewport = ExplicitViewport(id: nat) | FullExtentViewport(extent: Extent2D)

  /** The fields a setter may touch. */
  datatype Field =
    | FRenderPass | FExtent | FShaderEntries | FDescriptorSetLayouts | FPushConstantRanges
    | FVertexBindings | FVertexAttributes | FTopology | FPrimitiveRestart | FViewport | FScissor
    | FDynamicStates | FPolygonMode | FCullMode | FFrontFace | FDepthClamp | FSamples
    | FSampleShading | FDepthTest | FDepthBoundsTest | FStencilTest | FColorBlendAttachments | FLogicOp

  /** b and b2 agree on every field other than `touched`. */
  predicate SameExcept(b: Builder, b2: Builder, touched: Field)
  {
    (touched != FRenderPass ==> b2.renderPass == b.renderPass) &&
    (touched != FExtent ==> b2.extent == b.extent) &&
    (touched != FShaderEntries ==> b2.shaderEntries == b.shaderEntries) &&
    (touched != FDescriptorSetLayouts ==> b2.descriptorSetLayouts == b.descriptorSetLayouts) &&
    (touched != FPushConstantRanges ==> b2.pushConstantRanges == b.pushConstantRanges) &&
    (touched != FVertexBindings ==> b2.vertexBindings == b.vertexBindings) &&
    (touched != FVertexAttributes ==> b2.vertexAttributes == b.vertexAttributes) &&
    (touched != FTopology ==> b2.topology == b.topology) &&
    (touched != FPrimitiveRestart ==> b2.primitiveRestartEnable == b.primitiveRestartEnable) &&
    (touched != FViewport ==> b2.viewport == b.viewport) &&
    (touched != FScissor ==> b2.scissor == b.scissor) &&
    (touched != FDynamicStates ==> b2.dynamicStates == b.dynamicStates) &&
    (touched != FPolygonMode ==> b2.polygonMode == b.polygonMode) &&
    (touched != FCullMode ==> b2.cullMode == b.cullMode) &&
    (touched != FFrontFace ==> b2.frontFace == b.frontFace) &&
    (touched != FDepthClamp ==> b2.depthClampEnable == b.depthClampEnable) &&
    (touched != FSamples ==> b2.rasterizationSamples == b.rasterizationSamples) &&
    (touched != FSampleShading ==> b2.sampleShadingEnable == b.sampleShadingEnable) &&
    (touched != FDepthTest ==> b2.depthTestEnable == b.depthTestEnable && b2.depthWriteEnable == b.depthWriteEnable
                               && b2.depthCompareOp == b.depthCompareOp) &&
    (touched != FDepthBoundsTest ==> b2.depthBoundsTestEnable == b.depthBoundsTestEnable) &&
    (touched != FStencilTest ==> b2.stencilTestEnable == b.stencilTestEnable) &&
    (touched != FColorBlendAttachments ==> b2.colorBlendAttachments == b.colorBlendAttachments) &&
    (touched != FLogicOp ==> b2.logicOpEnable == b.logicOpEnable && b2.logicOp == b.logicOp)
  }

  datatype Builder = Builder(
    renderPass: Option<RenderPassHandle>,
    extent: Option<Extent2D>,
    shaderEntries: seq<ShaderEntry>,
    descriptorSetLayouts: seq<DescriptorSetLayout>,
    pushConstantRanges: seq<PushConstantRange>,
    vertexBindings: seq<VertexBinding>,
    vertexAttributes: seq<VertexAttribute>,
    topology: Topology,
    primitiveRestartEnable: bool,
    viewport: Option<Viewport>,
    scissor: Option<Rect2D>,
    dynamicStates: seq<DynamicState>,
    polygonMode: PolygonMode,
    cullMode: CullMode,
    frontFace: FrontFace,
    depthClampEnable: bool,
    rasterizationSamples: nat,
    sampleShadingEnable: bool,
    depthTestEnable: bool,
    depthWriteEnable: bool,
    depthCompareOp: CompareOp,
    depthBoundsTestEnable: bool,
    stencilTestEnable: bool,
    colorBlendAttachments: seq<ColorBlendAttachment>,
    logicOpEnable: bool,
    logicOp: LogicOp)
  {
    function SetRenderPass(rp: RenderPassHandle): (r: Builder)
      ensures r.renderPass == Some(rp)
      ensures SameExcept(this, r, FRenderPass)
    {
      this.(renderPass := Some(rp))
    }
    function SetExtent(e: Extent2D): (r: Builder)
      ensures r.extent == Some(e)
      ensures SameExcept(this, r, FExtent)
    {
      this.(extent := Some(e))
    }
    function WithDescriptorSetLayout(l: DescriptorSetLayout): (r: Builder)
      ensures r.descriptorSetLayouts == descriptorSetLayouts + [l]
      ensures SameExcept(this, r, FDescriptorSetLayouts)
    {
      this.(descriptorSetLayouts := descriptorSetLayouts + [l])
    }
    function WithPushConstantRange(p: PushConstantRange): (r: Builder)
      ensures r.pushConstantRanges == pushConstantRanges + [p]
      ensures SameExcept(this, r, FPushConstantRanges)
    {
      this.(pushConstantRanges := pushConstantRanges + [p])
    }
    function WithVertexBinding(b: VertexBinding): (r: Builder)
      ensures r.vertexBindings == vertexBindings + [b]
      ensures SameExcept(this, r, FVertexBindings)
    {
      this.(vertexBindings := vertexBindings + [b])
    }
    function WithVertexAttribute(a: VertexAttribute): (r: Builder)
      ensures r.vertexAttributes == vertexAttributes + [a]
      ensures SameExcept(this, r, FVertexAttributes)
    {
      this.(vertexAttributes := vertexAttributes + [a])
    }
    function WithTopology(t: Topology): (r: Builder)
      ensures r.topology == t
      ensures SameExcept(this, r, FTopology)
    {
      this.(topology := t)
    }
    function WithPrimitiveRestart(enable: bool): (r: Builder)
      ensures r.primitiveRestartEnable == enable
      ensures SameExcept(this, r, FPrimitiveRestart)
    {
      this.(primitiveRestartEnable := enable)
    }
    function WithViewport(v: Viewport): (r: Builder)
      ensures r.viewport == Some(v)
      ensures SameExcept(this, r, FViewport)
    {
      this.(viewport := Some(v))
    }
    function WithScissor(s: Rect2D): (r: Builder)
      ensures r.scissor == Some(s)
      ensures SameExcept(this, r, FScissor)
    {
      this.(scissor := Some(s))
    }
    function WithDynamicStates(states: seq<DynamicState>): (r: Builder)
      ensures r.dynamicStates == dynamicStates + states
      ensures SameExcept(this, r, FDynamicStates)
    {
      this.(dynamicStates := dynamicStates + states)
    }
    function WithPolygonMode(m: PolygonMode): (r: Builder)
      ensures r.polygonMode == m
      ensures SameExcept(this, r, FPolygonMode)
    {
      this.(polygonMode := m)
    }
    function WithCullMode(m: CullMode): (r: Builder)
      ensures r.cullMode == m
      ensures SameExcept(this, r, FCullMode)
    {
      this.(cullMode := m)
    }
    function WithFrontFace(f: FrontFace): (r: Builder)
      ensures r.frontFace == f
      ensures SameExcept(this, r, FFrontFace)
    {
      this.(frontFace := f)
    }
    function WithDepthClamp(enable: bool): (r: Builder)
      ensures r.depthClampEnable == enable
      ensures SameExcept(this, r, FDepthClamp)
    {
      this.(depthClampEnable := enable)
    }
    function WithMultisampling(samples: nat): (r: Builder)
      ensures r.rasterizationSamples == samples
      ensures SameExcept(this, r, FSamples)
    {
      this.(rasterizationSamples := samples)
    }
    function WithSampleShading(enable: bool): (r: Builder)
      ensures r.sampleShadingEnable == enable
      ensures SameExcept(this, r, FSampleShading)
    {
      this.(sampleShadingEnable := enable)
    }
    function WithDepthTest(enable: bool, writeEnable: bool, op: CompareOp): (r: Builder)
      ensures r.depthTestEnable == enable && r.depthWriteEnable == writeEnable && r.depthCompareOp == op
      ensures SameExcept(this, r, FDepthTest)
    {
      this.(depthTestEnable := enable, depthWriteEnable := writeEnable, depthCompareOp := op)
    }
    function WithDepthBoundsTest(enable: bool): (r: Builder)
      ensures r.depthBoundsTestEnable == enable
      ensures SameExcept(this, r, FDepthBoundsTest)
    {
      this.(depthBoundsTestEnable := enable)
    }
    function WithStencilTest(enable: bool): (r: Builder)
      ensures r.stencilTestEnable == enable
      ensures SameExcept(this, r, FStencilTest)
    {
      this.(stencilTestEnable := enable)
    }
    function WithColorBlendAttachment(a: ColorBlendAttachment): (r: Builder)
      ensures r.colorBlendAttachments == colorBlendAttachments + [a]
      ensures SameExcept(this, r, FColorBlendAttachments)
    {
      this.(colorBlendAttachments := colorBlendAttachments + [a])
    }
    function WithAlphaBlending(): (r: Builder)
      ensures r.colorBlendAttachments == colorBlendAttachments + [AlphaBlendAttachment]
      ensures SameExcept(this, r, FColorBlendAttachments)
    {
      this.(colorBlendAttachments := colorBlendAttachments + [AlphaBlendAttachment])
    }
    function WithLogicOp(enable: bool, op: LogicOp): (r: Builder)
      ensures r.logicOpEnable == enable && r.logicOp == op
      ensures SameExcept(this, r, FLogicOp)
    {
      this.(logicOpEnable := enable, logicOp := op)
    }

    /** with_shader_spv: the module is created from the SPIR-V code (None: the
        call failed); the entry point defaults to "main". */
    function WithShaderSpv(shaderModule: Option<ShaderModuleHandle>, stage: ShaderStage, entryPoint: Option<string>)
      : (r: Result<Builder, BuildError>)
      ensures shaderModule.None? <==> r.Err?
      ensures r.Ok? ==> r.value.shaderEntries == shaderEntries + [ShaderEntry(shaderModule.value, stage, EntryPointOrMain(entryPoint))]
      ensures r.Ok? ==> SameExcept(this, r.value, FShaderEntries)
    {
      match shaderModule
      case None => Err(ShaderModuleCreationFailed)
      case Some(m) => Ok(this.(shaderEntries := shaderEntries + [ShaderEntry(m, stage, EntryPointOrMain(entryPoint))]))
    }

    /** with_vertex_spv: a vertex stage entered at "main". */
    function WithVertexSpv(shaderModule: Option<ShaderModuleHandle>): (r: Result<Builder, BuildError>)
      ensures shaderModule.None? <==> r.Err?
      ensures r.Ok? ==> r.value.shaderEntries == shaderEntries + [ShaderEntry(shaderModule.value, StageVertex, "main")]
      ensures r.Ok? ==> SameExcept(this, r.value, FShaderEntries)
    {
      WithShaderSpv(shaderModule, StageVertex, None)
    }

    /** with_fragment_spv: a fragment stage entered at "main". */
    function WithFragmentSpv(shaderModule: Option<ShaderModuleHandle>): (r: Result<Builder, BuildError>)
      ensures shaderModule.None? <==> r.Err?
      ensures r.Ok? ==> r.value.shaderEntries == shaderEntries + [ShaderEntry(shaderModule.value, StageFragment, "main")]
      ensures r.Ok? ==> SameExcept(this, r.value, FShaderEntries)
    {
      WithShaderSpv(shaderModule, StageFragment, None)
    }
  }

  /** The entry point a shader stage is entered at: the given name, else "main". */
  function EntryPointOrMain(entryPoint: Option<string>): (name: string)
    ensures entryPoint.Some? ==> name == entryPoint.value
    ensures entryPoint.None? ==> name == "main"
  {
    if entryPoint.Some? then entryPoint.value else "main"
  }

  /** The attachment with_alpha_blending pushes: all four components written,
      colour = src.alpha * src + (1 - src.alpha) * dst, alpha = src alpha. */
  const AlphaBlendAttachment: ColorBlendAttachment :=
    ColorBlendAttachment({R, G, B, A}, true, SrcAlpha, OneMinusSrcAlpha, BlendAdd, One, Zero, BlendAdd)

  /** VulkanPipelineBuilder::new: nothing required is set yet, every list is
      empty, and the fixed-function state has its defaults. */
  function NewBuilder(): (b: Builder)
    ensures b.renderPass.None? && b.extent.None? && b.viewport.None? && b.scissor.None?
    ensures b.shaderEntries == [] && b.descriptorSetLayouts == [] && b.pushConstantRanges == [] &&
            b.vertexBindings == [] && b.vertexAttributes == [] && b.dynamicStates == [] &&
            b.colorBlendAttachments == []
    ensures b.topology == TriangleList && !b.primitiveRestartEnable
    ensures b.polygonMode == PolygonFill && b.cullMode == CullBack && b.frontFace == Clockwise
    ensures !b.depthClampEnable && b.rasterizationSamples == 1 && !b.sampleShadingEnable
    ensures !b.depthTestEnable && !b.depthWriteEnable && b.depthCompareOp == Less
    ensures !b.depthBoundsTestEnable && !b.stencilTestEnable
    ensures !b.logicOpEnable && b.logicOp == LogicCopy
  {
    Builder(None, None, [], [], [], [], [], TriangleList, false, None, None, [],
      PolygonFill, CullBack, Clockwise, false, 1, false,
      false, false, Less, false, false, [], false, LogicCopy)
  }

  datatype BuildError =
    | MissingRenderPass
    | MissingExtent
    | NoShaderStages
    | ShaderModuleCreationFailed
    | LayoutCreationFailed
    | PipelineCreationFailed

  datatype PipelineLayoutHandle = PipelineLayoutId(id: nat)

  datatype StageInfo = StageInfo(stage: ShaderStage, shaderModule: ShaderModuleHandle, name: string)

  datatype DepthStencilState = DepthStencilState(
    depthTestEnable: bool,
    depthWriteEnable: bool,
    depthCompareOp: CompareOp,
    depthBoundsTestEnable: bool,
    stencilTestEnable: bool)

  datatype RasterizationState = RasterizationState(
    depthClampEnable: bool,
    rasterizerDiscardEnable: bool,
    polygonMode: PolygonMode,
    cullMode: CullMode,
    frontFace: FrontFace,
    depthBiasEnable: bool)

  /** What VkGraphicsPipelineCreateInfo carries, in the model's terms. */
  datatype PipelineDescription = PipelineDescription(
    stages: seq<StageInfo>,
    setLayouts: seq<DescriptorSetLayout>,
    pushConstantRanges: seq<PushConstantRange>,
    vertexBindings: seq<VertexBinding>,
    vertexAttributes: seq<VertexAttribute>,
    topology: Topology,
    primitiveRestartEnable: bool,
    viewport: Viewport,
    scissor: Rect2D,
    rasterization: RasterizationState,
    rasterizationSamples: nat,
    sampleShadingEnable: bool,
    depthStencil: Option<DepthStencilState>,
    logicOpEnable: bool,
    logicOp: LogicOp,
    colorBlendAttachments: seq<ColorBlendAttachment>,
    dynamicStates: Option<seq<DynamicState>>,
    renderPass: RenderPassHandle,
    subpass: nat)

  datatype VulkanPipeline = VulkanPipeline(
    handle: PipelineHandle,
    layout: PipelineLayoutHandle,
    description: PipelineDescription)

  function StageInfos(entries: seq<ShaderEntry>): (infos: seq<StageInfo>)
    ensures |infos| == |entries|
    ensures forall i :: 0 <= i < |entries| ==>
      infos[i] == StageInfo(entries[i].stage, entries[i].shaderModule, entries[i].entryPoint)
  {
    seq(|entries|, i requires 0 <= i < |entries| =>
      StageInfo(entries[i].stage, entries[i].shaderModule, entries[i].entryPoint))
  }

  /** The create info build assembles once the required fields are present:
      the builder's lists in order, a viewport and scissor covering the extent
      unless set explicitly, a depth-stencil state only when some test is on,
      dynamic state only when some was given, subpass 0 of the render pass. */
  function Describe(b: Builder): (d: PipelineDescription)
    requires b.renderPass.Some? && b.extent.Some?
    ensures d.stages == StageInfos(b.shaderEntries)
    ensures d.setLayouts == b.descriptorSetLayouts && d.pushConstantRanges == b.pushConstantRanges
    ensures d.vertexBindings == b.vertexBindings && d.vertexAttributes == b.vertexAttributes
    ensures d.colorBlendAttachments == b.colorBlendAttachments
    ensures d.viewport == (if b.viewport.Some? then b.viewport.value else FullExtentViewport(b.extent.value))
    ensures d.scissor == (if b.scissor.Some? then b.scissor.value else Rect2D(Offset2D(0, 0), b.extent.value))
    ensures !d.rasterization.rasterizerDiscardEnable && !d.rasterization.depthBiasEnable
    ensures d.depthStencil.Some? <==> b.depthTestEnable || b.depthBoundsTestEnable || b.stencilTestEnable
    ensures d.depthStencil.Some? ==>
      d.depthStencil.value == DepthStencilState(b.depthTestEnable, b.depthWriteEnable, b.depthCompareOp,
                                                b.depthBoundsTestEnable, b.stencilTestEnable)
    ensures d.dynamicStates.Some? <==> |b.dynamicStates| > 0
    ensures d.dynamicStates.Some? ==> d.dynamicStates.value == b.dynamicStates
    ensures d.renderPass == b.renderPass.value && d.subpass == 0
  {
    var extent := b.extent.value;
    PipelineDescription(
      StageInfos(b.shaderEntries),
      b.descriptorSetLayouts,
      b.pushConstantRanges,
      b.vertexBindings,
      b.vertexAttributes,
      b.topology,
      b.primitiveRestartEnable,
      if b.viewport.Some? then b.viewport.value else FullExtentViewport(extent),
      if b.scissor.Some? then b.scissor.value else Rect2D(Offset2D(0, 0), extent),
      RasterizationState(b.depthClampEnable, false, b.polygonMode, b.cullMode, b.frontFace, false),
      b.rasterizationSamples,
      b.sampleShadingEnable,
      if b.depthTestEnable || b.depthBoundsTestEnable || b.stencilTestEnable
      then Some(DepthStencilState(b.depthTestEnable, b.depthWriteEnable, b.depthCompareOp,
                                  b.depthBoundsTestEnable, b.stencilTestEnable))
      else None,
      b.logicOpEnable,
      b.logicOp,
      b.colorBlendAttachments,
      if |b.dynamicStates| == 0 then None else Some(b.dynamicStates),
      b.renderPass.value,
      0)
  }

  /** build: render pass, then extent, then at least one shader stage are
      required, checked in that order; then the layout and the pipeline are
      created. */
  function Build(b: Builder, layout: Option<PipelineLayoutHandle>, pipeline: Option<PipelineHandle>)
    : (r: Result<VulkanPipeline, BuildError>)
    ensures b.renderPass.None? ==> r == Err(MissingRenderPass)
    ensures b.renderPass.Some? && b.extent.None? ==> r == Err(MissingExtent)
    ensures b.renderPass.Some? && b.extent.Some? && |b.shaderEntries| == 0 ==> r == Err(NoShaderStages)
    ensures r.Ok? <==>
      b.renderPass.Some? && b.extent.Some? && |b.shaderEntries| > 0 && layout.Some? && pipeline.Some?
    ensures r.Ok? ==>
      var d := r.value.description;
      r.value.handle == pipeline.value && r.value.layout == layout.value &&
      d == Describe(b) &&
      d.renderPass == b.renderPass.value && d.subpass == 0 &&
      d.stages == StageInfos(b.shaderEntries) &&
      (d.depthStencil.Some? <==> b.depthTestEnable || b.depthBoundsTestEnable || b.stencilTestEnable) &&
      (d.dynamicStates.Some? <==> |b.dynamicStates| > 0) &&
      (b.scissor.None? ==> d.scissor == Rect2D(Offset2D(0, 0), b.extent.value))
  {
    if b.renderPass.None? then Err(MissingRenderPass)
    else if b.extent.None? then Err(MissingExtent)
    else if |b.shaderEntries| == 0 then Err(NoShaderStages)
    else if layout.None? then Err(LayoutCreationFailed)
    else if pipeline.None? then Err(PipelineCreationFailed)
    else Ok(VulkanPipeline(pipeline.value, layout.value, Describe(b)))
  }

  /** A fresh builder with a render pass, an extent and a vertex shader builds
      a pipeline carrying every default: triangle lists without primitive
      restart, filled polygons, back-face culling, clockwise front faces,
      single sampling, no depth-stencil state, no dynamic state, no blend
      attachments, logic op COPY disabled, the scissor and viewport covering
      the extent, and the vertex stage entered at "main". */
  lemma {:induction false} DefaultsReachThePipeline(rp: RenderPassHandle, e: Extent2D, m: ShaderModuleHandle,
                                                    layout: PipelineLayoutHandle, p: PipelineHandle)
    ensures NewBuilder().SetRenderPass(rp).SetExtent(e).WithVertexSpv(Some(m)).Ok?
    ensures var b := NewBuilder().SetRenderPass(rp).SetExtent(e).WithVertexSpv(Some(m)).value;
      var r := Build(b, Some(layout), Some(p));
      r.Ok? &&
      r.value.description.stages == [StageInfo(StageVertex, m, "main")] &&
      r.value.description.topology == TriangleList &&
      !r.value.description.primitiveRestartEnable &&
      r.value.description.rasterization == RasterizationState(false, false, PolygonFill, CullBack, Clockwise, false) &&
      r.value.description.rasterizationSamples == 1 &&
      r.value.description.depthStencil.None? &&
      r.value.description.dynamicStates.None? &&
      r.value.description.colorBlendAttachments == [] &&
      !r.value.description.logicOpEnable && r.value.description.logicOp == LogicCopy &&
      r.value.description.viewport == FullExtentViewport(e) &&
      r.value.description.scissor == Rect2D(Offset2D(0, 0), e) &&
      r.value.description.renderPass == rp
  {
    var b := NewBuilder().SetRenderPass(rp).SetExtent(e).WithVertexSpv(Some(m)).value;
    assert b.shaderEntries == [ShaderEntry(m, StageVertex, "main")];
  }

  /** A fresh builder fails on the missing render pass even when the extent
      and shaders are missing too: the checks run in order. */
  lemma FreshBuilderFailsOnRenderPassFirst(layout: Option<PipelineLayoutHandle>, p: Option<PipelineHandle>)
    ensures Build(NewBuilder(), layout, p) == Err(MissingRenderPass)
    ensures Build(NewBuilder().SetRenderPass(RenderPassId(0)), layout, p) == Err(MissingExtent)
  {
  }

  /** Shader stages reach the pipeline in the order they were added. */
  lemma {:induction false} StagesKeepInsertionOrder(b: Builder, m1: ShaderModuleHandle, m2: ShaderModuleHandle,
                                                    layout: PipelineLayoutHandle, p: PipelineHandle)
    requires b.renderPass.Some? && b.extent.Some?
    ensures b.WithVertexSpv(Some(m1)).Ok? && b.WithVertexSpv(Some(m1)).value.WithFragmentSpv(Some(m2)).Ok?
    ensures var b2 := b.WithVertexSpv(Some(m1)).value.WithFragmentSpv(Some(m2)).value;
      var r := Build(b2, Some(layout), Some(p));
      r.Ok? &&
      r.value.description.stages ==
        StageInfos(b.shaderEntries) + [StageInfo(StageVertex, m1, "main"), StageInfo(StageFragment, m2, "main")]
  {
    var b2 := b.WithVertexSpv(Some(m1)).value.WithFragmentSpv(Some(m2)).value;
    assert b2.shaderEntries == b.shaderEntries + [ShaderEntry(m1, StageVertex, "main"), ShaderEntry(m2, StageFragment, "main")];
    var want := StageInfos(b.shaderEntries) + [StageInfo(StageVertex, m1, "main"), StageInfo(StageFragment, m2, "main")];
    assert StageInfos(b2.shaderEntries) == want;
  }

  /** A builder that can be built: render pass, extent and a shader stage. */
  predicate Buildable(b: Builder)
  {
    b.renderPass.Some? && b.extent.Some? && |b.shaderEntries| > 0
  }

  /** Enabling any one of the depth, depth-bounds or stencil tests makes the
      pipeline carry a depth-stencil state holding the builder's settings. */
  lemma DepthSettersReachThePipeline(b: Builder, write: bool, op: CompareOp,
                                     layout: PipelineLayoutHandle, p: PipelineHandle)
    requires Buildable(b)
    ensures var r := Build(b.WithDepthTest(true, write, op), Some(layout), Some(p));
      r.Ok? && r.value.description.depthStencil ==
        Some(DepthStencilState(true, write, op, b.depthBoundsTestEnable, b.stencilTestEnable))
    ensures var r := Build(b.WithStencilTest(true), Some(layout), Some(p));
      r.Ok? && r.value.description.depthStencil.Some? && r.value.description.depthStencil.value.stencilTestEnable
    ensures var r := Build(b.WithDepthBoundsTest(true), Some(layout), Some(p));
      r.Ok? && r.value.description.depthStencil.Some? && r.value.description.depthStencil.value.depthBoundsTestEnable
  {
  }

  /** Dynamic states accumulate across calls and reach the pipeline in order. */
  lemma DynamicStatesAccumulate(b: Builder, s1: seq<DynamicState>, s2: seq<DynamicState>,
                                layout: PipelineLayoutHandle, p: PipelineHandle)
    requires Buildable(b)
    requires |s1| + |s2| > 0
    ensures var r := Build(b.WithDynamicStates(s1).WithDynamicStates(s2), Some(layout), Some(p));
      r.Ok? && r.value.description.dynamicStates == Some(b.dynamicStates + s1 + s2)
  {
  }

  /** with_alpha_blending appends one attachment that blends colour by source
      alpha and writes all four components; earlier attachments are kept. */
  lemma AlphaBlendingAppends(b: Builder, layout: PipelineLayoutHandle, p: PipelineHandle)
    requires Buildable(b)
    ensures var r := Build(b.WithAlphaBlending(), Some(layout), Some(p));
      r.Ok? &&
      var atts := r.value.description.colorBlendAttachments;
      |atts| == |b.colorBlendAttachments| + 1 &&
      atts[..|b.colorBlendAttachments|] == b.colorBlendAttachments &&
      atts[|atts| - 1].blendEnable &&
      atts[|atts| - 1].writeMask == {R, G, B, A} &&
      atts[|atts| - 1].srcColorFactor == SrcAlpha &&
      atts[|atts| - 1].dstColorFactor == OneMinusSrcAlpha
  {
  }

  /** An explicit scissor and viewport replace the defaults covering the
      extent. */
  lemma ExplicitViewportAndScissorWin(b: Builder, v: Viewport, s: Rect2D,
                                      layout: PipelineLayoutHandle, p: PipelineHandle)
    requires Buildable(b)
    ensures var r := Build(b.WithViewport(v).WithScissor(s), Some(layout), Some(p));
      r.Ok? && r.value.description.viewport == v && r.value.description.scissor == s
  {
  }
}
