/**
 * The consumer side of a link (processor.h `Input`, processor.cpp
 * `Input::GetInputData`, `Input::ResetDefaultValue`, `Input::SetupLink`) and
 * the per-processor record those lookups run against.
 */
module Inputs {
  import opened Wrappers
  import opened Signatures
  import opened DataModel
  import opened Conversion

  /**
   * `Input`. In this model an input is a value held in its processor's
   * record; its mutating members return the updated input.
   */
  datatype Input = Input(
    name: string,
    signature: DataSignature,
    linkedOutput: DataAddress,
    defaultValue: Option<Data>,
    convertedData: Option<Data>)

  /** The concrete processor classes; a group holds the roots of its nested graph. */
  datatype ProcessorKind =
    | FragmentShader
    | ComputeShader
    | ImageReader
    | BufferReader
    | Script
    | Builtin(hasCall: bool)
    | Group(nestedRoots: set<ProcessorId>)

  /** What the registry holds for one processor. */
  datatype ProcRecord = ProcRecord(
    id: ProcessorId,
    kind: ProcessorKind,
    inputs: seq<Input>,
    outputs: seq<Data>,
    outputLinks: map<nat, seq<DataAddress>>,
    needsUpdate: bool)

  type Processors = map<ProcessorId, ProcRecord>

  /**
   * The source reads `GetOutputs()[data_index]` unchecked, so an input
   * linked to a live processor must name one of its outputs.
   */
  predicate Resolvable(input: Input, procs: Processors) {
    input.linkedOutput.processor in procs ==>
      input.linkedOutput.dataIndex < |procs[input.linkedOutput.processor].outputs|
  }

  /** The producer's output the input is linked to, if the producer is live. */
  function LinkedData(input: Input, procs: Processors): (r: Option<Data>)
    requires Resolvable(input, procs)
    ensures r.Some? <==> input.linkedOutput.processor in procs
    ensures r.Some? ==> r.value == procs[input.linkedOutput.processor].outputs[input.linkedOutput.dataIndex]
  {
    var a := input.linkedOutput;
    if a.processor in procs then Some(procs[a.processor].outputs[a.dataIndex]) else None
  }

  /**
   * `GetInputData`, by preference: the live producer's output when its
   * signature equals the input's, else the converted cache (only when
   * linked to a live producer), else the default, else null.
   */
  function GetInputData(input: Input, procs: Processors): (r: Option<Data>)
    requires Resolvable(input, procs)
    ensures var ld := LinkedData(input, procs);
      ld.Some? && ld.value.signature == input.signature ==> r == ld
    ensures var ld := LinkedData(input, procs);
      ld.Some? && ld.value.signature != input.signature && input.convertedData.Some? ==>
        r == input.convertedData
    ensures var ld := LinkedData(input, procs);
      ld.None? || (ld.value.signature != input.signature && input.convertedData.None?) ==>
        r == input.defaultValue
  {
    var ld := LinkedData(input, procs);
    if ld.Some? && ld.value.signature == input.signature then ld
    else if ld.Some? && input.convertedData.Some? then input.convertedData
    else input.defaultValue
  }

  /**
   * Null comes back exactly when there is no default and neither a matching
   * producer output nor (for a live producer) a converted cache.
   */
  lemma GetInputDataNull(input: Input, procs: Processors)
    requires Resolvable(input, procs)
    ensures GetInputData(input, procs).None? <==>
      input.defaultValue.None? &&
      (input.linkedOutput.processor !in procs ||
       (procs[input.linkedOutput.processor].outputs[input.linkedOutput.dataIndex].signature != input.signature &&
        input.convertedData.None?))
  {
  }

  /** The outcome of `SetupLink`: the updated input and its return value, if defined. */
  datatype LinkSetup = LinkSetup(input: Input, result: Option<bool>)

  /**
   * `Input::SetupLink`: clears the converted cache, then, for a live
   * producer, rejects an incompatible link, accepts an equal signature as
   * is, or stores the conversion of the producer's output. Without a live
   * producer the function runs off its end: its result is undefined
   * (`None`). A conversion with undefined behaviour leaves it undefined too.
   */
  function SetupLink(input: Input, procs: Processors, conv: Cast): (r: LinkSetup)
    requires Resolvable(input, procs)
    ensures r.input == input.(convertedData := r.input.convertedData)
    ensures input.linkedOutput.processor !in procs ==> r.result.None? && r.input.convertedData.None?
    ensures var ld := LinkedData(input, procs);
      ld.Some? && !CanLink(ld.value.signature, input.signature) ==>
        r.result == Some(false) && r.input.convertedData.None?
    ensures var ld := LinkedData(input, procs);
      ld.Some? && ld.value.signature == input.signature ==>
        r.result == Some(true) && r.input.convertedData.None?
    ensures r.result == Some(false) ==>
      LinkedData(input, procs).Some? && !CanLink(LinkedData(input, procs).value.signature, input.signature)
    ensures var ld := LinkedData(input, procs);
      ld.Some? && CanLink(ld.value.signature, input.signature) && ld.value.signature != input.signature ==>
        match ConvertTo(ld.value, input.signature, conv)
        case Produced(d) => r == LinkSetup(input.(convertedData := Some(d)), Some(true))
        case NullData => r == LinkSetup(input.(convertedData := None), Some(true))
        case Undefined => r.result.None?
    ensures r.input.convertedData.Some? ==>
      r.result == Some(true) && LinkedData(input, procs).Some? &&
      LinkedData(input, procs).value.signature != input.signature &&
      ConvertTo(LinkedData(input, procs).value, input.signature, conv) == Produced(r.input.convertedData.value)
  {
    var cleared := input.(convertedData := None);
    var ld := LinkedData(input, procs);
    if ld.None? then LinkSetup(cleared, None)
    else if !CanLink(ld.value.signature, input.signature) then LinkSetup(cleared, Some(false))
    else if ld.value.signature == input.signature then LinkSetup(cleared, Some(true))
    else
      match ConvertTo(ld.value, input.signature, conv)
      case Produced(d) => LinkSetup(input.(convertedData := Some(d)), Some(true))
      case NullData => LinkSetup(cleared, Some(true))
      case Undefined => LinkSetup(cleared, None)
  }

  /**
   * After a successful setup against a value or curve producer of another
   * signature, the input reads the converted cache, which carries exactly
   * the input's signature.
   */
  lemma {:induction false} SetupLinkFeedsInput(input: Input, procs: Processors, conv: Cast)
    requires Resolvable(input, procs)
    requires input.linkedOutput.processor in procs
    requires var ld := LinkedData(input, procs).value;
      IsVector(ld.signature.dataType) && ld.signature != input.signature
    requires SetupLink(input, procs, conv).input.convertedData.Some?
    ensures var r := SetupLink(input, procs, conv);
      r.result == Some(true) &&
      GetInputData(r.input, procs) == r.input.convertedData &&
      r.input.convertedData.value.signature == input.signature
  {
    var r := SetupLink(input, procs, conv);
    var ld := LinkedData(input, procs).value;
    assert ConvertTo(ld, input.signature, conv) == Produced(r.input.convertedData.value);
    assert LinkedData(r.input, procs) == LinkedData(input, procs);
  }

  /**
   * `Input::ResetDefaultValue`: a fresh default named after the input for
   * value, curve and text inputs; none for image and buffer inputs.
   */
  function ResetDefaultValue(input: Input): (r: Input)
    ensures r == input.(defaultValue := r.defaultValue)
    ensures r.defaultValue.Some? <==> IsVector(input.signature.dataType) || input.signature.dataType == Text
    ensures r.defaultValue.Some? ==> r.defaultValue.value.name == input.name
    ensures r.defaultValue.Some? && IsVector(input.signature.dataType) ==>
      r.defaultValue.value.signature == input.signature
    ensures r.defaultValue == if Make(input.signature).Some? then Some(Make(input.signature).value.(name := input.name)) else None
    ensures input.signature.dataType == Value ==>
      r.defaultValue.Some? && r.defaultValue.value.payload.Values? &&
      Shaped(r.defaultValue.value.payload.rows, input.signature.arrayLength, input.signature.numCoords)
    ensures input.signature.dataType == Curve ==>
      r.defaultValue.Some? && r.defaultValue.value.payload.Curves? &&
      Shaped(r.defaultValue.value.payload.curves, input.signature.arrayLength, input.signature.numCoords)
    ensures input.signature.dataType == Text ==>
      r.defaultValue == Some(Data(input.name, DefaultSignature(), Texts([""])))
  {
    var made := match input.signature.dataType
      case Value => Make(input.signature)
      case Curve => Make(input.signature)
      case Text => Make(input.signature)
      case Image => None
      case Buffer => None;
    input.(defaultValue := if made.Some? then Some(made.value.(name := input.name)) else None)
  }

  /** What `CanProcess` asks of one input. */
  predicate Usable(input: Input, procs: Processors)
    requires Resolvable(input, procs)
  {
    !(input.linkedOutput.processor == UNLINKED && input.defaultValue.None?) &&
    GetInputData(input, procs).Some?
  }

  /**
   * The separate unlinked-without-default test only matters when a
   * processor is registered under `UNLINKED` itself; otherwise an input is
   * usable exactly when it yields data.
   */
  lemma UsableIsNonNull(input: Input, procs: Processors)
    requires Resolvable(input, procs) && UNLINKED !in procs
    ensures Usable(input, procs) <==> GetInputData(input, procs).Some?
  {
  }

  /** Whether an input is bound to a producer at all. */
  predicate IsLinked(input: Input) {
    input.linkedOutput.processor != UNLINKED
  }

  /** Whether some input is bound to a producer (`HasLinkedInputs`). */
  predicate AnyLinked(inputs: seq<Input>) {
    exists k :: 0 <= k < |inputs| && IsLinked(inputs[k])
  }

  /**
   * The readiness test of the scheduler: every linked input's producer is
   * done.
   */
  predicate ReadyIn(inputs: seq<Input>, done: set<ProcessorId>) {
    forall k :: 0 <= k < |inputs| ==> !IsLinked(inputs[k]) || inputs[k].linkedOutput.processor in done
  }
}
