# vkrt command chain, modelled in Dafny

vkrt is a typestate builder for recording Vulkan compute commands. A caller
starts from some root command and extends it by value with four builder calls:
`dispatch`, `bind_compute_pipeline`, `bind_compute_layout` and
`bind_index_buffer`. Each call wraps the chain built so far in a new node.
Every node carries seven associated types: the compute, graphics and
ray-tracing pipeline and layout types, and the index element type. A node
kind either passes all of them through or rebinds exactly one. `dispatch` is
only available when the compute-pipeline type and the compute-layout type are
the same type, which is what the `Is<T>` witness checks. `build` replays the
chain into a command buffer. It builds the predecessor first and then records
one primitive call, so the calls come out in the order the builder calls were
made. The only failure is one propagated from the root.

The model has four modules:

- `Helpers` (helpers.dfy) covers `src/helpers.rs`. It has dispatch-size
  normalisation, Rust types as `TypeTag` values, the `Is` witness as tag
  equality, the four index element types, and their `vk::IndexType` tags. The
  tags carry their Vulkan enumerator values (`UINT16` = 0, `UINT32` = 1,
  `NONE_KHR` = 1000165000, `UINT8_EXT` = 1000265000). It also has the
  `VertexIndex` restriction, as the subset type `VertexIndex`.
- `Capabilities` (capabilities.dfy) covers the three capability traits of
  `src/lib.rs`. Each resource is a datatype holding its Rust type and the
  values its accessors return.
- `Commands` (commands.dfy) covers `src/commands.rs`. It has the `Chain`
  datatype, with one constructor per node struct plus an abstract `Root`, and
  the slot function `SlotsOf`. The specification functions `Outcome` and
  `Trace` say what `build` returns and records. `CommandBuffer` is a class
  whose `calls` field is the sequence of recorded primitive calls. `Build` is
  the recursive method that appends to it and returns early when the
  predecessor fails.
- `Builder` (builder.dfy) covers the builder surface of `src/lib.rs`. It has
  the gated `Dispatch`, the three `Bind*` constructors, the chain invariant
  `Valid` (every dispatch node met the gate against its predecessor's slots)
  and the forwarding `CommandBuilderBuild`. It also has builder scripts: a
  sequence `Op` of builder calls, applied left to right by `Assemble`. These
  let the order of recorded calls be stated against the order of the
  builder calls.

Rust's compile-time type gate becomes a `requires` on `Builder.Dispatch`. The
raw `Commands.Dispatch` constructor does not carry that requires. A violating
chain can still be written with it, and `Valid` rejects that chain.
`AssembleValid` and `ValidIffAdmissible` show that `Valid` holds exactly
when every dispatch in the script met the gate.

The `device.cmd_*` calls return nothing, and each node returns `Ok(())` once
its predecessor has succeeded (src/commands.rs:30, 60, 93, 124), so a chain's
build result is its root's result (`OutcomeIsRootResult`).

## Model

| member | source | states |
|---|---|---|
| `Helpers.DispatchDimensions` | src/helpers.rs:1-27 | The given one, two or three counts, or the scalar, appear first and in order. Every missing trailing dimension is 1. |
| `Helpers.ScalarIsOneElementArray` | src/helpers.rs:23-27 | A scalar `n` normalises to `[n, 1, 1]`, the same as the array `[n]`. |
| `Helpers.DispatchDimensionsIdempotent` | src/helpers.rs:17-21 | A three-element array is returned unchanged, so normalising is idempotent on its output. |
| `Helpers.IsMeansTypeEquality` | src/helpers.rs:55-65 | `Is` holds for two types exactly when they are the same type. It is reflexive and symmetric. |
| `Helpers.TypeOfInjective` | src/helpers.rs:33-48 | The four index element types `()`, `u8`, `u16` and `u32` are distinct types. |
| `Helpers.IndexTypeOf` | src/helpers.rs:29-48 | `INDEX_TYPE` maps `()` to NONE_KHR, `u8` to UINT8_EXT, `u16` to UINT16 and `u32` to UINT32. The tag always maps back to its element type. |
| `Helpers.IndexTypeInjective` | src/helpers.rs:33-48 | Distinct element types have distinct index-format tags, and vice versa. |
| `Helpers.VertexIndexFormats` | src/helpers.rs:50-53 | A type is a `VertexIndex` exactly when its tag is UINT8_EXT, UINT16 or UINT32. It is not one exactly when its tag is NONE_KHR, which is the case for `()`. |
| `Commands.SlotTransition` | src/commands.rs:8-112 | A node rebinds at most one slot and leaves every other slot as its predecessor had it. A pipeline bind sets the compute-pipeline slot to the pipeline's type. A layout bind sets the compute-layout slot. An index-buffer bind sets the index slot to the buffer's element type. Dispatch rebinds nothing. |
| `Commands.IndexSlotIsVertexIndex` | src/lib.rs:80-84 | After an index-buffer bind, the index slot is `u8`, `u16` or `u32`. |
| `Commands.OutcomeIsRootResult` | src/commands.rs:20-125 | No node introduces a failure: a chain's build result is its root's result. |
| `Commands.TraceExtendsRootTrace` | src/commands.rs:20-125 | The root's calls come first. If the root failed, nothing further is recorded. Otherwise exactly one call follows per appended node. |
| `Commands.NodeCallIsLast` | src/commands.rs:25-28 | When the predecessor succeeds, a node records its predecessor's calls and then its own single call. For a dispatch, that call is `cmd_dispatch` with the three stored counts in order. |
| `Commands.Build` | src/commands.rs:20-125 | Building returns the chain's outcome and appends exactly the chain's trace to the command buffer. The trace is: the predecessor's calls; then, only if the predecessor succeeded, the node's own call. That call is a dispatch of the stored `(x, y, z)`; a compute bind-pipeline with `pipeline()`; a compute bind-descriptor-sets with `layout()`, `first_set()`, `descriptor_sets()` and no dynamic offsets; or a bind-index-buffer with `buffer()`, `offset()` and the element type's format tag. |
| `Builder.Dispatch` | src/lib.rs:35-43 | Callable only when the compute-pipeline and compute-layout slots are the same type. It wraps the chain unchanged and stores the normalised dimensions. It keeps the slots, the build result and validity. |
| `Builder.BindComputePipeline` | src/lib.rs:45-53 | Wraps the chain unchanged and stores the pipeline. It rebinds only the compute-pipeline slot and keeps the build result and validity. |
| `Builder.BindComputeLayout` | src/lib.rs:55-60 | Wraps the chain unchanged and stores the layout. It rebinds only the compute-layout slot and keeps the build result and validity. |
| `Builder.BindIndexBuffer` | src/lib.rs:62-67 | Wraps the chain unchanged and stores the index buffer. It rebinds only the index slot, to the buffer's element type, and keeps the build result and validity. |
| `Builder.CommandBuilderBuild` | src/lib.rs:13-17 | The object-safe `CommandBuilder::build` has the same result and the same effect on the command buffer as `Command::build`. Its result is the root's result. |
| `Builder.AppendStep` | src/lib.rs:35-67 | One builder call moves the slots along the slot state machine `NextSlots` and keeps the build result. If the chain succeeds, it appends the call's primitive call. It keeps validity, except that a dispatch also needs the gate. |
| `Builder.AssembleOutcome` | src/commands.rs:20-125 | No sequence of builder calls changes the build result. |
| `Builder.AssembleTrace` | src/commands.rs:20-125 | After builder calls `ops`, the build records the start chain's calls. If that chain succeeds, it then records one primitive call per builder call, in the order the calls were made. |
| `Builder.AssembleSlots` | src/commands.rs:8-112 | The slots of an assembled chain are those the slot state machine reaches from the start chain's slots. |
| `Builder.AssembleValid` | src/lib.rs:35-38 | An assembled chain is valid exactly when the start chain is valid and every dispatch in the script met the gate against the slots at that point. |
| `Builder.AssembleOpsOf` | src/lib.rs:35-67 | Every chain is its root with its own builder calls applied in order. |
| `Builder.BuildFollowsAppendOrder` | src/commands.rs:20-125 | For every chain, the build records the root's calls. Then, if the root succeeded, it records one call per builder call, in exactly the order the builder calls were made. |
| `Builder.ValidIffAdmissible` | src/lib.rs:35-38 | A chain is valid exactly when each of its dispatches was appended when the compute-pipeline slot equalled the compute-layout slot. |
| `Builder.MismatchRejected` | src/lib.rs:35-38 | Binding a layout, then a pipeline of a different type, leaves `dispatch` uncallable. A script that dispatches there produces an invalid chain. |
| `Builder.GateComparesTypesOnly` | src/lib.rs:33-38 | The gate compares type tags only. A layout whose type matches the pipeline's passes whatever descriptor sets it carries, even none, in either bind order. |
| `Builder.ScenarioLayoutPipelineDispatch` | src/lib.rs:35-60 | Take a successful empty root, bind layout L, bind pipeline P of L's type, then `dispatch(64)`. The chain is valid and builds into exactly three calls, in this order: bind-descriptor-sets(L), bind-pipeline(P), dispatch(64, 1, 1). |
| `Builder.ScenarioIndexBuffer` | src/commands.rs:114-125 | Binding a `u16` index buffer at offset 128 builds into exactly one call: bind-index-buffer with the buffer handle, 128 and UINT16. |
| `Builder.IndexFormatMatchesElementType` | src/commands.rs:114-125 | When the chain succeeds, the last call an index-buffer bind records is a bind-index-buffer. Its format tag names the buffer's own element type. |

## Left out

- The `ash::Device` argument is not modelled. It is only the dispatcher for the four `cmd_*` entry points. Each entry point is a `CommandBuffer` method that appends one `Call` value. No GPU or command-buffer semantics are modelled.
- The `unsafe` blocks, borrows and lifetimes are not modelled: `&mut vk::CommandBuffer`, `&self`, and the borrowed descriptor-set slice, which becomes a `seq`. Nothing here is concurrent.
- Vulkan handles (`vk::Pipeline`, `vk::PipelineLayout`, `vk::DescriptorSet`, `vk::Buffer`) and `vk::DeviceSize` are 64-bit naturals that are never inspected.
- Rust's type-level mechanics are modelled as run-time values. Associated types are `TypeTag` values, the sealed-trait encoding of `Is` becomes tag equality, and the `Sized` bound is dropped. The gate is a `requires` on `Builder.Dispatch`, plus the `Valid` predicate on chains.
- The graphics and ray-tracing slots have no operations in the source. They are only passed through.
- No `Command` implementation for a root is part of this model. The root is abstract: given slots, a given result and a given sequence of calls it records.
- `IndexType` and `VertexIndex` are public, unsealed traits, so another crate may implement them for its own types, with any format tag. The model closes `ElementType` to this crate's four impls of `IndexType` and `VertexIndex` to its three impls; `Helpers.VertexIndexFormats` and `Commands.IndexSlotIsVertexIndex` describe only those impls. (`Is` is sealed, so its model is complete; a foreign `DispatchDimensions` impl returns some triple, which `Three` already covers.)
- The heterogeneous storage that `dyn CommandBuilder` enables is not modelled. Only its forwarding `build` is.
- Building the same chain into two command buffers records the same calls in both. This follows from `Commands.Build`'s contract, because the trace is a function of the chain alone. It is not stated as a separate member.
