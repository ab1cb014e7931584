/**
 The command chain: a linked list of nodes, each owning its predecessor and
 adding one recording action, with seven type slots that each node kind either
 passes through or rebinds, and the recursive `build` that replays the chain
 into a command buffer.
 */
module Commands {
  import opened Helpers
  import opened Capabilities

  /** The seven associated types of `Command`, as tags. */
  datatype Slots = Slots(
    computePipeline: TypeTag,
    computeLayout: TypeTag,
    graphicsPipeline: TypeTag,
    graphicsLayout: TypeTag,
    rayTracingPipeline: TypeTag,
    rayTracingLayout: TypeTag,
    index: TypeTag)

  datatype SlotName =
    | ComputePipelineSlot
    | ComputeLayoutSlot
    | GraphicsPipelineSlot
    | GraphicsLayoutSlot
    | RayTracingPipelineSlot
    | RayTracingLayoutSlot
    | IndexSlot

  function Slot(s: Slots, n: SlotName): TypeTag
  {
    match n
    case ComputePipelineSlot => s.computePipeline
    case ComputeLayoutSlot => s.computeLayout
    case GraphicsPipelineSlot => s.graphicsPipeline
    case GraphicsLayoutSlot => s.graphicsLayout
    case RayTracingPipelineSlot => s.rayTracingPipeline
    case RayTracingLayoutSlot => s.rayTracingLayout
    case IndexSlot => s.index
  }

  /** `Result<(), ()>`, the result of `build`. */
  datatype BuildResult = Ok | Err

  /** `vk::PipelineBindPoint`; only the compute bind point is ever used. */
  datatype PipelineBindPoint = COMPUTE

  /** One primitive recording call made on the device for a command buffer. */
  datatype Call =
    | CmdDispatch(groupCountX: u32, groupCountY: u32, groupCountZ: u32)
    | CmdBindPipeline(bindPoint: PipelineBindPoint, pipeline: PipelineHandle)
    | CmdBindDescriptorSets(
        bindPoint: PipelineBindPoint,
        layout: PipelineLayoutHandle,
        firstSet: u32,
        descriptorSets: seq<DescriptorSetHandle>,
        dynamicOffsets: seq<u32>)
    | CmdBindIndexBuffer(buffer: BufferHandle, offset: DeviceSize, indexType: IndexType)

  /**
   A command chain. `Root` stands for the caller's innermost command: it has
   given slots, records a given trace and returns a given result. The other
   four constructors are the node structs, each owning its predecessor.
   */
  datatype Chain =
    | Root(slots: Slots, result: BuildResult, trace: seq<Call>)
    | Dispatch(commands: Chain, dimensions: Array3)
    | BindComputePipeline(commands: Chain, pipeline: ComputePipeline)
    | BindComputeLayout(commands: Chain, layout: ComputeLayout)
    | BindIndexBuffer(commands: Chain, indexBuffer: IndexBuffer)

  /** The associated types of a chain, as given by each node's `Command` impl. */
  function SlotsOf(c: Chain): Slots
  {
    match c
    case Root(slots, _, _) => slots
    case Dispatch(prev, _) => SlotsOf(prev)
    case BindComputePipeline(prev, p) => SlotsOf(prev).(computePipeline := p.ty)
    case BindComputeLayout(prev, l) => SlotsOf(prev).(computeLayout := l.ty)
    case BindIndexBuffer(prev, ib) => SlotsOf(prev).(index := TypeOf(ib.index))
  }

  /** The slots a node kind rebinds; every other slot is its predecessor's. */
  function Rebinds(c: Chain): set<SlotName>
    requires !c.Root?
  {
    match c
    case Dispatch(_, _) => {}
    case BindComputePipeline(_, _) => {ComputePipelineSlot}
    case BindComputeLayout(_, _) => {ComputeLayoutSlot}
    case BindIndexBuffer(_, _) => {IndexSlot}
  }

  /** Only the slot a node rebinds changes, and it changes to the bound resource's type. */
  lemma SlotTransition(c: Chain, n: SlotName)
    requires !c.Root?
    ensures |Rebinds(c)| <= 1
    ensures n !in Rebinds(c) ==> Slot(SlotsOf(c), n) == Slot(SlotsOf(c.commands), n)
    ensures c.BindComputePipeline? ==> SlotsOf(c).computePipeline == c.pipeline.ty
    ensures c.BindComputeLayout? ==> SlotsOf(c).computeLayout == c.layout.ty
    ensures c.BindIndexBuffer? ==> SlotsOf(c).index == TypeOf(c.indexBuffer.index)
  {
  }

  /** The index slot set by an index buffer is always one of `u8`, `u16`, `u32`. */
  lemma IndexSlotIsVertexIndex(c: Chain)
    requires c.BindIndexBuffer?
    ensures SlotsOf(c).index in {TypeTag("u8"), TypeTag("u16"), TypeTag("u32")}
  {
  }

  /** The innermost command of a chain. */
  function RootOf(c: Chain): (r: Chain)
    ensures r.Root?
  {
    if c.Root? then c else RootOf(c.commands)
  }

  /** The number of nodes appended to the root. */
  function Depth(c: Chain): nat
  {
    if c.Root? then 0 else 1 + Depth(c.commands)
  }

  /** What `build` returns: the predecessor's error, else `Ok(())`. */
  function Outcome(c: Chain): BuildResult
  {
    match c
    case Root(_, result, _) => result
    case _ => if Outcome(c.commands).Err? then Err else Ok
  }

  /** The primitive call a node records after its predecessor succeeded. */
  function OwnCall(c: Chain): Call
    requires !c.Root?
  {
    match c
    case Dispatch(_, d) => CmdDispatch(d[0], d[1], d[2])
    case BindComputePipeline(_, p) => CmdBindPipeline(COMPUTE, p.pipeline)
    case BindComputeLayout(_, l) => CmdBindDescriptorSets(COMPUTE, l.layout, l.firstSet, l.descriptorSets, [])
    case BindIndexBuffer(_, ib) => CmdBindIndexBuffer(ib.buffer, ib.offset, IndexTypeOf(ib.index))
  }

  /** The calls `build` records, in order. */
  function Trace(c: Chain): seq<Call>
  {
    match c
    case Root(_, _, trace) => trace
    case _ => Trace(c.commands) + if Outcome(c.commands).Ok? then [OwnCall(c)] else []
  }

  /** No node adds a failure: a chain builds to its root's result. */
  lemma {:induction false} OutcomeIsRootResult(c: Chain)
    ensures Outcome(c) == RootOf(c).result
  {
    if !c.Root? {
      OutcomeIsRootResult(c.commands);
    }
  }

  /**
   The root's trace comes first; if the root failed nothing follows it, and
   otherwise exactly one call per appended node follows it.
   */
  lemma {:induction false} TraceExtendsRootTrace(c: Chain)
    ensures RootOf(c).trace <= Trace(c)
    ensures RootOf(c).result.Err? ==> Trace(c) == RootOf(c).trace
    ensures RootOf(c).result.Ok? ==> |Trace(c)| == |RootOf(c).trace| + Depth(c)
  {
    if !c.Root? {
      TraceExtendsRootTrace(c.commands);
      OutcomeIsRootResult(c.commands);
    }
  }

  /** A node whose predecessor succeeded ends its trace with its own single call. */
  lemma NodeCallIsLast(c: Chain)
    requires !c.Root? && RootOf(c).result.Ok?
    ensures Trace(c) == Trace(c.commands) + [OwnCall(c)]
    ensures c.Dispatch? ==> Trace(c)[|Trace(c)| - 1] == CmdDispatch(c.dimensions[0], c.dimensions[1], c.dimensions[2])
  {
  }

  /** The externally owned command buffer, seen as the sequence of calls recorded into it. */
  class CommandBuffer {
    var calls: seq<Call>

    constructor ()
      ensures calls == []
    {
      calls := [];
    }

    /** `device.cmd_dispatch`. */
    method RecordDispatch(x: u32, y: u32, z: u32)
      modifies this
      ensures calls == old(calls) + [CmdDispatch(x, y, z)]
    {
      calls := calls + [CmdDispatch(x, y, z)];
    }

    /** `device.cmd_bind_pipeline`. */
    method RecordBindPipeline(bindPoint: PipelineBindPoint, pipeline: PipelineHandle)
      modifies this
      ensures calls == old(calls) + [CmdBindPipeline(bindPoint, pipeline)]
    {
      calls := calls + [CmdBindPipeline(bindPoint, pipeline)];
    }

    /** `device.cmd_bind_descriptor_sets`. */
    method RecordBindDescriptorSets(
      bindPoint: PipelineBindPoint,
      layout: PipelineLayoutHandle,
      firstSet: u32,
      descriptorSets: seq<DescriptorSetHandle>,
      dynamicOffsets: seq<u32>)
      modifies this
      ensures calls == old(calls) + [CmdBindDescriptorSets(bindPoint, layout, firstSet, descriptorSets, dynamicOffsets)]
    {
      calls := calls + [CmdBindDescriptorSets(bindPoint, layout, firstSet, descriptorSets, dynamicOffsets)];
    }

    /** `device.cmd_bind_index_buffer`. */
    method RecordBindIndexBuffer(buffer: BufferHandle, offset: DeviceSize, indexType: IndexType)
      modifies this
      ensures calls == old(calls) + [CmdBindIndexBuffer(buffer, offset, indexType)]
    {
      calls := calls + [CmdBindIndexBuffer(buffer, offset, indexType)];
    }

    /** Whatever the root command records. */
    method RecordRoot(trace: seq<Call>)
      modifies this
      ensures calls == old(calls) + trace
    {
      calls := calls + trace;
    }
  }

  /**
   `Command::build`: replay the predecessor and, only if it succeeded, record
   this node's own call and return `Ok(())`.
   */
  method Build(c: Chain, commandBuffer: CommandBuffer) returns (r: BuildResult)
    modifies commandBuffer
    ensures r == Outcome(c)
    ensures commandBuffer.calls == old(commandBuffer.calls) + Trace(c)
    decreases c
  {
    match c {
      case Root(_, result, trace) =>
        commandBuffer.RecordRoot(trace);
        r := result;
      case Dispatch(commands, dimensions) =>
        r := Build(commands, commandBuffer);
        if r.Err? {
          return;
        }
        var groupCountX, groupCountY, groupCountZ := dimensions[0], dimensions[1], dimensions[2];
        commandBuffer.RecordDispatch(groupCountX, groupCountY, groupCountZ);
        r := Ok;
      case BindComputePipeline(commands, pipeline) =>
        r := Build(commands, commandBuffer);
        if r.Err? {
          return;
        }
        commandBuffer.RecordBindPipeline(COMPUTE, pipeline.pipeline);
        r := Ok;
      case BindComputeLayout(commands, layout) =>
        r := Build(commands, commandBuffer);
        if r.Err? {
          return;
        }
        commandBuffer.RecordBindDescriptorSets(COMPUTE, layout.layout, layout.firstSet, layout.descriptorSets, []);
        r := Ok;
      case BindIndexBuffer(commands, indexBuffer) =>
        r := Build(commands, commandBuffer);
        if r.Err? {
          return;
        }
        commandBuffer.RecordBindIndexBuffer(indexBuffer.buffer, indexBuffer.offset, IndexTypeOf(indexBuffer.index));
        r := Ok;
    }
  }
}
