/**
 * The static type descriptor of the dataflow engine (processor.h): data
 * categories, scalar encodings, signatures, addresses, and the link
 * compatibility table `CanLink`.
 */
module Signatures {

  /** `Type` in processor.h: what kind of payload a Data carries. */
  datatype DataType = Value | Image | Buffer | Curve | Text

  /** `Encoding`: how the scalars of a value or curve are stored. */
  datatype Encoding = Floating | SInteger | UInteger

  /** Processor and link ids are unsigned handles. */
  type ProcessorId = nat
  type LinkId = nat

  /** The id that means "no processor". */
  const UNLINKED: ProcessorId := 0

  /** `DataSignature`; its `operator==` is defaulted, i.e. structural, as is Dafny's `==` here. */
  datatype DataSignature = DataSignature(
    dataType: DataType,
    encoding: Encoding,
    numCoords: nat,
    arrayLength: nat)

  /** The signature a default-constructed `DataSignature` holds. */
  function DefaultSignature(): (s: DataSignature)
    ensures s.dataType == Value && s.encoding == Floating
    ensures s.numCoords == 1 && s.arrayLength == 1
  {
    DataSignature(Value, Floating, 1, 1)
  }

  /** Signature equality is structural: equal exactly when all four fields agree. */
  lemma SignatureEquality(a: DataSignature, b: DataSignature)
    ensures a == b <==>
      a.dataType == b.dataType && a.encoding == b.encoding &&
      a.numCoords == b.numCoords && a.arrayLength == b.arrayLength
  {
  }

  /** `DataAddress`: a processor id and the index of one of its data slots. */
  datatype DataAddress = DataAddress(processor: ProcessorId, dataIndex: nat)

  /** A default-constructed `DataAddress` points nowhere. */
  function UnlinkedAddress(): (a: DataAddress)
    ensures a.processor == UNLINKED && a.dataIndex == 0
  {
    DataAddress(UNLINKED, 0)
  }

  /** The consumer categories that accept any producer. */
  predicate IsLooseSink(t: DataType) {
    t == Value || t == Image
  }

  /**
   * Whether data of signature `output` may feed an input of signature
   * `input`: value and image inputs take anything, buffer inputs need the
   * very same signature, curve and text inputs need the same category.
   */
  function CanLink(output: DataSignature, input: DataSignature): (r: bool)
    ensures IsLooseSink(input.dataType) ==> r
    ensures !IsLooseSink(input.dataType) && input.dataType != output.dataType ==> !r
    ensures input.dataType == Buffer ==> (r <==> input == output)
    ensures input.dataType == Curve || input.dataType == Text ==>
      (r <==> output.dataType == input.dataType)
  {
    if input.dataType == Value || input.dataType == Image then true
    else if input.dataType != output.dataType then false
    else if input.dataType == Buffer then input == output
    else true
  }

  /** Every signature can be linked to itself. */
  lemma CanLinkReflexive(s: DataSignature)
    ensures CanLink(s, s)
  {
  }

  /** A rejected link always has a strict consumer of another shape. */
  lemma CanLinkRejection(output: DataSignature, input: DataSignature)
    requires !CanLink(output, input)
    ensures !IsLooseSink(input.dataType)
    ensures input.dataType != output.dataType || (input.dataType == Buffer && input != output)
  {
  }
}
