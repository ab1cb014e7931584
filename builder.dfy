/**
 The builder surface of `Command`: the gated `dispatch`, the three `bind_*`
 constructors, the chain invariant they keep, `CommandBuilder::build`, and
 builder scripts (the sequence of builder calls a caller makes), against which
 the order of the recorded calls is stated.
 */
module Builder {
  import opened Helpers
  import opened Capabilities
  import Commands

  type Chain = Commands.Chain

  /** The `where Self::ComputePipeline: Is<Self::ComputeLayout>` bound of `dispatch`. */
  predicate DispatchAllowed(c: Chain)
  {
    Is(Commands.SlotsOf(c).computePipeline, Commands.SlotsOf(c).computeLayout)
  }

  /** Every dispatch node of the chain met the gate against its predecessor's slots. */
  predicate Valid(c: Chain)
  {
    match c
    case Root(_, _, _) => true
    case Dispatch(prev, _) => DispatchAllowed(prev) && Valid(prev)
    case BindComputePipeline(prev, _) => Valid(prev)
    case BindComputeLayout(prev, _) => Valid(prev)
    case BindIndexBuffer(prev, _) => Valid(prev)
  }

  /** `dispatch`: only callable when the compute pipeline and layout slots are the same type. */
  function Dispatch(self: Chain, dimensions: Dimensions): (r: Chain)
    requires DispatchAllowed(self)
    ensures r.Dispatch? && r.commands == self && r.dimensions == DispatchDimensions(dimensions)
    ensures Valid(r) <==> Valid(self)
    ensures Commands.SlotsOf(r) == Commands.SlotsOf(self)
    ensures Commands.Outcome(r) == Commands.Outcome(self)
  {
    Commands.Dispatch(self, DispatchDimensions(dimensions))
  }

  /** `bind_compute_pipeline`: always callable; rebinds the compute pipeline slot only. */
  function BindComputePipeline(self: Chain, pipeline: ComputePipeline): (r: Chain)
    ensures r.BindComputePipeline? && r.commands == self && r.pipeline == pipeline
    ensures Valid(r) <==> Valid(self)
    ensures Commands.SlotsOf(r) == Commands.SlotsOf(self).(computePipeline := pipeline.ty)
    ensures Commands.Outcome(r) == Commands.Outcome(self)
  {
    Commands.BindComputePipeline(self, pipeline)
  }

  /** `bind_compute_layout`: always callable; rebinds the compute layout slot only. */
  function BindComputeLayout(self: Chain, layout: ComputeLayout): (r: Chain)
    ensures r.BindComputeLayout? && r.commands == self && r.layout == layout
    ensures Valid(r) <==> Valid(self)
    ensures Commands.SlotsOf(r) == Commands.SlotsOf(self).(computeLayout := layout.ty)
    ensures Commands.Outcome(r) == Commands.Outcome(self)
  {
    Commands.BindComputeLayout(self, layout)
  }

  /** `bind_index_buffer`: always callable; rebinds the index slot to the buffer's element type. */
  function BindIndexBuffer(self: Chain, indexBuffer: IndexBuffer): (r: Chain)
    ensures r.BindIndexBuffer? && r.commands == self && r.indexBuffer == indexBuffer
    ensures Valid(r) <==> Valid(self)
    ensures Commands.SlotsOf(r) == Commands.SlotsOf(self).(index := TypeOf(indexBuffer.index))
    ensures Commands.Outcome(r) == Commands.Outcome(self)
  {
    Commands.BindIndexBuffer(self, indexBuffer)
  }

  /** `CommandBuilder::build`, the object-safe alias: it forwards to `Command::build`. */
  method CommandBuilderBuild(self: Chain, commandBuffer: Commands.CommandBuffer) returns (r: Commands.BuildResult)
    modifies commandBuffer
    ensures r == Commands.Outcome(self) == Commands.RootOf(self).result
    ensures commandBuffer.calls == old(commandBuffer.calls) + Commands.Trace(self)
  {
    r := Commands.Build(self, commandBuffer);
    Commands.OutcomeIsRootResult(self);
  }

  /** One builder call, with its argument. */
  datatype Op =
    | OpDispatch(dimensions: Dimensions)
    | OpBindComputePipeline(pipeline: ComputePipeline)
    | OpBindComputeLayout(layout: ComputeLayout)
    | OpBindIndexBuffer(indexBuffer: IndexBuffer)

  /** The node a builder call wraps around a chain (the dispatch gate is not checked here). */
  function Append(c: Chain, op: Op): Chain
  {
    match op
    case OpDispatch(d) => Commands.Dispatch(c, DispatchDimensions(d))
    case OpBindComputePipeline(p) => Commands.BindComputePipeline(c, p)
    case OpBindComputeLayout(l) => Commands.BindComputeLayout(c, l)
    case OpBindIndexBuffer(ib) => Commands.BindIndexBuffer(c, ib)
  }

  /** The chain produced by making the builder calls `ops`, left to right, on `c`. */
  function Assemble(c: Chain, ops: seq<Op>): Chain
    decreases |ops|
  {
    if ops == [] then c else Assemble(Append(c, ops[0]), ops[1..])
  }

  /**
   The primitive call a builder call eventually records: `Commands.OwnCall` of
   the node the call appends, restated per builder call (`AppendStep` links the two).
   */
  function CallOf(op: Op): Commands.Call
  {
    match op
    case OpDispatch(d) =>
      var g := DispatchDimensions(d);
      Commands.CmdDispatch(g[0], g[1], g[2])
    case OpBindComputePipeline(p) => Commands.CmdBindPipeline(Commands.COMPUTE, p.pipeline)
    case OpBindComputeLayout(l) =>
      Commands.CmdBindDescriptorSets(Commands.COMPUTE, l.layout, l.firstSet, l.descriptorSets, [])
    case OpBindIndexBuffer(ib) => Commands.CmdBindIndexBuffer(ib.buffer, ib.offset, IndexTypeOf(ib.index))
  }

  function CallsOf(ops: seq<Op>): (calls: seq<Commands.Call>)
    ensures |calls| == |ops|
  {
    if ops == [] then [] else [CallOf(ops[0])] + CallsOf(ops[1..])
  }

  /**
   The slot state machine: the slots after one builder call. This is one step of
   `Commands.SlotsOf`, restated per builder call (`AppendStep` links the two).
   */
  function NextSlots(s: Commands.Slots, op: Op): Commands.Slots
  {
    match op
    case OpDispatch(_) => s
    case OpBindComputePipeline(p) => s.(computePipeline := p.ty)
    case OpBindComputeLayout(l) => s.(computeLayout := l.ty)
    case OpBindIndexBuffer(ib) => s.(index := TypeOf(ib.index))
  }

  function FinalSlots(s: Commands.Slots, ops: seq<Op>): Commands.Slots
    decreases |ops|
  {
    if ops == [] then s else FinalSlots(NextSlots(s, ops[0]), ops[1..])
  }

  /** A script the type checker accepts from slots `s`: every dispatch finds equal compute slots. */
  predicate Admissible(s: Commands.Slots, ops: seq<Op>)
    decreases |ops|
  {
    ops == [] ||
    ((ops[0].OpDispatch? ==> Is(s.computePipeline, s.computeLayout)) && Admissible(NextSlots(s, ops[0]), ops[1..]))
  }

  /** One builder call: its slots, its result, its recorded call and its effect on validity. */
  lemma AppendStep(c: Chain, op: Op)
    ensures Commands.SlotsOf(Append(c, op)) == NextSlots(Commands.SlotsOf(c), op)
    ensures Commands.Outcome(Append(c, op)) == Commands.Outcome(c)
    ensures Commands.Trace(Append(c, op)) ==
      Commands.Trace(c) + if Commands.Outcome(c).Ok? then [CallOf(op)] else []
    ensures Valid(Append(c, op)) <==> Valid(c) && (op.OpDispatch? ==> DispatchAllowed(c))
  {
  }

  /** Builder calls never change the build result. */
  lemma {:induction false} AssembleOutcome(c: Chain, ops: seq<Op>)
    ensures Commands.Outcome(Assemble(c, ops)) == Commands.Outcome(c)
    decreases |ops|
  {
    if ops != [] {
      AppendStep(c, ops[0]);
      AssembleOutcome(Append(c, ops[0]), ops[1..]);
    }
  }

  /** Building records the calls of the builder calls in exactly the order they were made. */
  lemma {:induction false} AssembleTrace(c: Chain, ops: seq<Op>)
    ensures Commands.Trace(Assemble(c, ops)) ==
      Commands.Trace(c) + if Commands.Outcome(c).Ok? then CallsOf(ops) else []
    decreases |ops|
  {
    if ops != [] {
      var c' := Append(c, ops[0]);
      AppendStep(c, ops[0]);
      AssembleTrace(c', ops[1..]);
      if Commands.Outcome(c).Ok? {
        calc {
          Commands.Trace(Assemble(c, ops));
          Commands.Trace(c') + CallsOf(ops[1..]);
          Commands.Trace(c) + [CallOf(ops[0])] + CallsOf(ops[1..]);
          Commands.Trace(c) + CallsOf(ops);
        }
      }
    }
  }

  /** The slots of an assembled chain are those the slot state machine reaches. */
  lemma {:induction false} AssembleSlots(c: Chain, ops: seq<Op>)
    ensures Commands.SlotsOf(Assemble(c, ops)) == FinalSlots(Commands.SlotsOf(c), ops)
    decreases |ops|
  {
    if ops != [] {
      AppendStep(c, ops[0]);
      AssembleSlots(Append(c, ops[0]), ops[1..]);
    }
  }

  /** An assembled chain is valid exactly when the script is one the type checker accepts. */
  lemma {:induction false} AssembleValid(c: Chain, ops: seq<Op>)
    ensures Valid(Assemble(c, ops)) <==> Valid(c) && Admissible(Commands.SlotsOf(c), ops)
    decreases |ops|
  {
    if ops != [] {
      AppendStep(c, ops[0]);
      AssembleValid(Append(c, ops[0]), ops[1..]);
    }
  }

  /** The builder call that created a node; a dispatch is recovered with its stored triple. */
  function OpOf(c: Chain): Op
    requires !c.Root?
  {
    match c
    case Dispatch(_, d) => OpDispatch(Three(d))
    case BindComputePipeline(_, p) => OpBindComputePipeline(p)
    case BindComputeLayout(_, l) => OpBindComputeLayout(l)
    case BindIndexBuffer(_, ib) => OpBindIndexBuffer(ib)
  }

  /** The builder calls that produced a chain from its root, in the order they were made. */
  function OpsOf(c: Chain): (ops: seq<Op>)
    ensures |ops| == Commands.Depth(c)
  {
    if c.Root? then [] else OpsOf(c.commands) + [OpOf(c)]
  }

  lemma {:induction false} AssembleSnoc(c: Chain, ops: seq<Op>, op: Op)
    ensures Assemble(c, ops + [op]) == Append(Assemble(c, ops), op)
    decreases |ops|
  {
    if ops == [] {
      assert ops + [op] == [op];
    } else {
      assert (ops + [op])[1..] == ops[1..] + [op];
      AssembleSnoc(Append(c, ops[0]), ops[1..], op);
    }
  }

  /** Every chain is its root with its own builder calls applied in order. */
  lemma {:induction false} AssembleOpsOf(c: Chain)
    ensures Assemble(Commands.RootOf(c), OpsOf(c)) == c
  {
    if !c.Root? {
      AssembleOpsOf(c.commands);
      AssembleSnoc(Commands.RootOf(c.commands), OpsOf(c.commands), OpOf(c));
    }
  }

  /**
   For every chain, `build` records the root's calls and then, if the root
   succeeded, one call per builder call in the order the calls were made.
   */
  lemma BuildFollowsAppendOrder(c: Chain)
    ensures Commands.Trace(c) ==
      Commands.RootOf(c).trace + if Commands.RootOf(c).result.Ok? then CallsOf(OpsOf(c)) else []
  {
    AssembleOpsOf(c);
    AssembleTrace(Commands.RootOf(c), OpsOf(c));
  }

  /** A chain is valid exactly when its own builder calls, replayed from its root, pass the gate at each dispatch. */
  lemma ValidIffAdmissible(c: Chain)
    ensures Valid(c) <==> Admissible(Commands.SlotsOf(Commands.RootOf(c)), OpsOf(c))
  {
    AssembleOpsOf(c);
    AssembleValid(Commands.RootOf(c), OpsOf(c));
  }

  /** A dispatch after binding a pipeline and a layout of different types is rejected. */
  lemma MismatchRejected(c: Chain, layout: ComputeLayout, pipeline: ComputePipeline, dimensions: Dimensions)
    requires layout.ty != pipeline.ty
    ensures !DispatchAllowed(BindComputePipeline(BindComputeLayout(c, layout), pipeline))
    ensures !Valid(Assemble(c, [OpBindComputeLayout(layout), OpBindComputePipeline(pipeline), OpDispatch(dimensions)]))
  {
    var ops := [OpBindComputeLayout(layout), OpBindComputePipeline(pipeline), OpDispatch(dimensions)];
    AssembleValid(c, ops);
    var s := NextSlots(NextSlots(Commands.SlotsOf(c), ops[0]), ops[1]);
    assert ops[1..][1..] == [OpDispatch(dimensions)];
    assert !Admissible(s, [OpDispatch(dimensions)]);
  }

  /**
   The gate compares type tags only: a layout type that matches the pipeline
   type passes whatever descriptor sets the layout carries, including none.
   */
  lemma GateComparesTypesOnly(c: Chain, layout: ComputeLayout, pipeline: ComputePipeline)
    requires layout.ty == pipeline.ty
    ensures DispatchAllowed(BindComputeLayout(BindComputePipeline(c, pipeline), layout.(descriptorSets := [])))
    ensures DispatchAllowed(BindComputePipeline(BindComputeLayout(c, layout), pipeline))
  {
  }

  /** Layout, then pipeline of the same type, then `dispatch(64)`: exactly three calls, in that order. */
  lemma ScenarioLayoutPipelineDispatch(slots: Commands.Slots, layout: ComputeLayout, pipeline: ComputePipeline)
    requires layout.ty == pipeline.ty
    ensures
      var c := Dispatch(BindComputePipeline(BindComputeLayout(Commands.Root(slots, Commands.Ok, []), layout), pipeline), Scalar(64));
      Valid(c) && Commands.Trace(c) == [
        Commands.CmdBindDescriptorSets(Commands.COMPUTE, layout.layout, layout.firstSet, layout.descriptorSets, []),
        Commands.CmdBindPipeline(Commands.COMPUTE, pipeline.pipeline),
        Commands.CmdDispatch(64, 1, 1)]
  {
    var root := Commands.Root(slots, Commands.Ok, []);
    var withLayout := BindComputeLayout(root, layout);
    var withPipeline := BindComputePipeline(withLayout, pipeline);
    assert Commands.Trace(withLayout) == [Commands.CmdBindDescriptorSets(Commands.COMPUTE, layout.layout, layout.firstSet, layout.descriptorSets, [])];
    assert Commands.Trace(withPipeline) == Commands.Trace(withLayout) + [Commands.CmdBindPipeline(Commands.COMPUTE, pipeline.pipeline)];
  }

  /** A `u16` index buffer at offset 128: exactly one call, with the 16-bit format tag. */
  lemma ScenarioIndexBuffer(slots: Commands.Slots, ty: TypeTag, buffer: BufferHandle)
    ensures
      var c := BindIndexBuffer(Commands.Root(slots, Commands.Ok, []), IndexBuffer(ty, U16, buffer, 128));
      Commands.Trace(c) == [Commands.CmdBindIndexBuffer(buffer, 128, UINT16)]
  {
  }

  /** The format tag recorded for an index buffer names the buffer's own element type. */
  lemma IndexFormatMatchesElementType(c: Chain, indexBuffer: IndexBuffer)
    requires Commands.RootOf(c).result.Ok?
    ensures
      var t := Commands.Trace(BindIndexBuffer(c, indexBuffer));
      |t| > 0 && t[|t| - 1].CmdBindIndexBuffer? && ElementOf(t[|t| - 1].indexType) == Some(indexBuffer.index)
  {
  }
}
