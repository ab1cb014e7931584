/**
 Closed, type-level mappings of the command builder: normalisation of dispatch
 sizes to a three-element group count, the index-format tag of each index
 element type, the vertex-index restriction, and the type-equality witness.
 Rust types are represented at run time by `TypeTag` values.
 */
module Helpers {

  /** Rust's `u32`. */
  newtype u32 = x: int | 0 <= x < 0x1_0000_0000

  /** Rust's `u64` (the width of `vk::DeviceSize` and of Vulkan's non-dispatchable handles). */
  newtype u64 = x: int | 0 <= x < 0x1_0000_0000_0000_0000

  datatype Option<+T> = None | Some(value: T)

  /** Rust arrays `[u32; 1]`, `[u32; 2]` and `[u32; 3]`. */
  type Array1 = s: seq<u32> | |s| == 1 witness [0]
  type Array2 = s: seq<u32> | |s| == 2 witness [0, 0]
  type Array3 = s: seq<u32> | |s| == 3 witness [0, 0, 0]

  /** The four types that implement `DispatchDimensions`. */
  datatype Dimensions =
    | Scalar(n: u32)
    | One(a1: Array1)
    | Two(a2: Array2)
    | Three(a3: Array3)

  /** The group counts the caller wrote down, in order, before any padding. */
  function Given(d: Dimensions): (s: seq<u32>)
    ensures 1 <= |s| <= 3
  {
    match d
    case Scalar(n) => [n]
    case One(a) => a
    case Two(a) => a
    case Three(a) => a
  }

  /** `dispatch_dimensions`: the given counts, padded with 1 up to three dimensions. */
  function DispatchDimensions(d: Dimensions): (r: Array3)
    ensures r[..|Given(d)|] == Given(d)
    ensures forall i :: |Given(d)| <= i < 3 ==> r[i] == 1
  {
    match d
    case Scalar(n) => [n, 1, 1]
    case One(a) => [a[0], 1, 1]
    case Two(a) => [a[0], a[1], 1]
    case Three(a) => a
  }

  /** A bare scalar is dispatched exactly like the one-element array holding it. */
  lemma ScalarIsOneElementArray(n: u32)
    ensures DispatchDimensions(Scalar(n)) == DispatchDimensions(One([n])) == [n, 1, 1]
  {
  }

  /** Normalising an already normalised triple changes nothing. */
  lemma DispatchDimensionsIdempotent(d: Dimensions)
    ensures DispatchDimensions(Three(DispatchDimensions(d))) == DispatchDimensions(d)
  {
  }

  /** A Rust type, identified by its path. */
  datatype TypeTag = TypeTag(path: string)

  /** The `Is<T>` witness: implemented for a type only by that type itself. */
  predicate Is(t: TypeTag, u: TypeTag)
  {
    t == u
  }

  lemma IsMeansTypeEquality(t: TypeTag, u: TypeTag)
    ensures Is(t, t)
    ensures Is(t, u) <==> t == u
    ensures Is(t, u) <==> Is(u, t)
  {
  }

  /** The four types that implement `IndexType` in this crate. */
  datatype ElementType = Unit | U8 | U16 | U32

  function TypeOf(e: ElementType): TypeTag
  {
    match e
    case Unit => TypeTag("()")
    case U8 => TypeTag("u8")
    case U16 => TypeTag("u16")
    case U32 => TypeTag("u32")
  }

  lemma TypeOfInjective(e: ElementType, f: ElementType)
    ensures TypeOf(e) == TypeOf(f) <==> e == f
  {
  }

  /** `vk::IndexType`, a transparent wrapper of Vulkan's `VkIndexType` enumerator. */
  datatype IndexType = IndexType(raw: int)

  const UINT16: IndexType := IndexType(0)
  const UINT32: IndexType := IndexType(1)
  const NONE_KHR: IndexType := IndexType(1000165000)
  const UINT8_EXT: IndexType := IndexType(1000265000)

  /** The element type whose `INDEX_TYPE` a format tag is, if any. */
  function ElementOf(f: IndexType): Option<ElementType>
  {
    if f == NONE_KHR then Some(Unit)
    else if f == UINT8_EXT then Some(U8)
    else if f == UINT16 then Some(U16)
    else if f == UINT32 then Some(U32)
    else None
  }

  /** `<E as IndexType>::INDEX_TYPE`: the format tag always names the element type back. */
  function IndexTypeOf(e: ElementType): (f: IndexType)
    ensures ElementOf(f) == Some(e)
  {
    match e
    case Unit => NONE_KHR
    case U8 => UINT8_EXT
    case U16 => UINT16
    case U32 => UINT32
  }

  /** Distinct element types get distinct format tags. */
  lemma IndexTypeInjective(e: ElementType, f: ElementType)
    ensures IndexTypeOf(e) == IndexTypeOf(f) <==> e == f
  {
    assert ElementOf(IndexTypeOf(e)) == Some(e);
    assert ElementOf(IndexTypeOf(f)) == Some(f);
  }

  /** `VertexIndex` in this crate: implemented by `u8`, `u16` and `u32`, not by `()`. */
  predicate IsVertexIndex(e: ElementType)
  {
    match e
    case Unit => false
    case U8 => true
    case U16 => true
    case U32 => true
  }

  type VertexIndex = e: ElementType | IsVertexIndex(e) witness U16

  /** A vertex index is exactly an element type whose format tag is a real index width. */
  lemma VertexIndexFormats(e: ElementType)
    ensures IsVertexIndex(e) <==> IndexTypeOf(e) in {UINT8_EXT, UINT16, UINT32}
    ensures !IsVertexIndex(e) <==> IndexTypeOf(e) == NONE_KHR
  {
  }
}
