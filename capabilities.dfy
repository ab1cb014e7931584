/**
 The capability traits a caller-supplied resource implements to take part in a
 binding step. Each resource is modelled by the values its accessors return,
 together with the Rust type of the resource, which is what the command chain's
 type slots record.
 */
module Capabilities {
  import opened Helpers

  /** Vulkan's opaque non-dispatchable handles. */
  type PipelineHandle = u64
  type PipelineLayoutHandle = u64
  type DescriptorSetHandle = u64
  type BufferHandle = u64

  /** `vk::DeviceSize`. */
  type DeviceSize = u64

  /** A value implementing `ComputePipeline`: its type and `pipeline()`. */
  datatype ComputePipeline = ComputePipeline(ty: TypeTag, pipeline: PipelineHandle)

  /** A value implementing `ComputeLayout`: its type, `layout()`, `first_set()` and `descriptor_sets()`. */
  datatype ComputeLayout = ComputeLayout(
    ty: TypeTag,
    layout: PipelineLayoutHandle,
    firstSet: u32,
    descriptorSets: seq<DescriptorSetHandle>)

  /**
   A value implementing `IndexBuffer`: its type, the associated element type
   `Index` (bounded by `VertexIndex`), `buffer()` and `offset()`.
   */
  datatype IndexBuffer = IndexBuffer(
    ty: TypeTag,
    index: VertexIndex,
    buffer: BufferHandle,
    offset: DeviceSize)
}
