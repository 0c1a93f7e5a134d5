/**
 * Typed data containers (processor.h `Data`, `TData`, `VecData`, `Curve`,
 * `Text`, `Image`, `Buffer`) and their allocation `Data::Make`.
 */
module DataModel {
  import opened Wrappers
  import opened Signatures

  /**
   * One 32-bit lane of a value: the bit pattern of a `float`, an `int32_t`
   * or a `uint32_t`, depending on the encoding. Zero is the all-zero
   * pattern for all three.
   */
  type Scalar = bv32

  /** A 2D float pair of a curve point; 0 and 1 are exact in `float`. */
  datatype Point2 = Point2(x: real, y: real)

  datatype CurvePoint = CurvePoint(position: Point2, tangentLeft: Point2, tangentRight: Point2)

  /** One curve: its control points. */
  datatype CurvePoints = CurvePoints(points: seq<CurvePoint>)

  /** An opaque shared handle to a GPU texture or buffer. */
  type Handle = nat

  /** The payload of each concrete Data class: `data` as a vector (of vectors). */
  datatype Payload =
    | Values(rows: seq<seq<Scalar>>)
    | Curves(curves: seq<seq<CurvePoints>>)
    | Texts(strings: seq<string>)
    | Images(textures: seq<Handle>)
    | Buffers(buffers: seq<Handle>)

  datatype Data = Data(name: string, signature: DataSignature, payload: Payload)

  /** The curve a new curve coordinate holds: (0,0) then (1,1), tangents (1,1). */
  function IdentityCurve(): CurvePoints {
    CurvePoints([
      CurvePoint(Point2(0.0, 0.0), Point2(1.0, 1.0), Point2(1.0, 1.0)),
      CurvePoint(Point2(1.0, 1.0), Point2(1.0, 1.0), Point2(1.0, 1.0))])
  }

  /** `array_length` rows of `num_coords` entries each. */
  ghost predicate Shaped<T>(rows: seq<seq<T>>, arrayLength: nat, numCoords: nat) {
    |rows| == arrayLength && forall i :: 0 <= i < |rows| ==> |rows[i]| == numCoords
  }

  /**
   * `std::vector::resize(n, v)`: keeps the first `min(|s|, n)` elements and
   * pads with copies of `v`.
   */
  function Resize<T>(s: seq<T>, n: nat, v: T): (r: seq<T>)
    ensures |r| == n
    ensures forall i :: 0 <= i < n ==> r[i] == if i < |s| then s[i] else v
  {
    if n <= |s| then s[..n] else s + seq(n - |s|, _ => v)
  }

  /** What `VecData::ResetValueTo(v)` leaves in `data`. */
  function ResetRows<T>(rows: seq<seq<T>>, arrayLength: nat, numCoords: nat, v: T): (r: seq<seq<T>>)
  {
    var outer := Resize(rows, arrayLength, []);
    seq(arrayLength, i requires 0 <= i < arrayLength => Resize(outer[i], numCoords, v))
  }

  /**
   * Reset on fresh data: exactly `array_length` rows of `num_coords`
   * copies of `v`.
   */
  lemma ResetFreshIsUniform<T>(arrayLength: nat, numCoords: nat, v: T)
    ensures Shaped(ResetRows([], arrayLength, numCoords, v), arrayLength, numCoords)
    ensures forall i, j :: 0 <= i < arrayLength && 0 <= j < numCoords ==>
      ResetRows([], arrayLength, numCoords, v)[i][j] == v
  {
  }

  /**
   * Reset on existing data keeps what fits: entries inside both the old
   * and the new shape survive, everything else becomes `v`.
   */
  lemma ResetKeepsOverlap<T>(rows: seq<seq<T>>, arrayLength: nat, numCoords: nat, v: T, i: nat, j: nat)
    requires i < arrayLength && j < numCoords
    ensures Shaped(ResetRows(rows, arrayLength, numCoords, v), arrayLength, numCoords)
    ensures ResetRows(rows, arrayLength, numCoords, v)[i][j] ==
      if i < |rows| && j < |rows[i]| then rows[i][j] else v
  {
    var outer := Resize(rows, arrayLength, []);
    assert i < |rows| ==> outer[i] == rows[i];
    assert i >= |rows| ==> outer[i] == [];
  }

  /** A `VecData<E>`: a signature and a vector of rows of `E`. */
  class VecData<E> {
    var signature: DataSignature
    var data: seq<seq<E>>

    /** A freshly made object: the given signature and no rows yet. */
    constructor (signature: DataSignature)
      ensures this.signature == signature && data == []
    {
      this.signature := signature;
      data := [];
    }

    /**
     * `ResetValueTo(v)`: resize to `array_length` rows, then resize every
     * row to `num_coords` entries padded with `v`.
     */
    method ResetValueTo(v: E)
      modifies this
      ensures signature == old(signature)
      ensures data == ResetRows(old(data), signature.arrayLength, signature.numCoords, v)
      ensures Shaped(data, signature.arrayLength, signature.numCoords)
    {
      ghost var outer := Resize(data, signature.arrayLength, []);
      data := Resize(data, signature.arrayLength, []);
      var i := 0;
      while i < |data|
        invariant signature == old(signature)
        invariant |data| == |outer| == signature.arrayLength && 0 <= i <= |data|
        invariant forall j :: 0 <= j < i ==> data[j] == Resize(outer[j], signature.numCoords, v)
        invariant forall j :: i <= j < |data| ==> data[j] == outer[j]
      {
        data := data[i := Resize(data[i], signature.numCoords, v)];
        i := i + 1;
      }
    }
  }

  /**
   * `Data::Make`: a zero value, identity curves, one empty string, or no
   * data at all for images and buffers (their allocation is not written).
   * The text branch never sets the signature, so the result keeps the
   * default one.
   */
  function Make(sig: DataSignature): (r: Option<Data>)
    ensures r.None? <==> sig.dataType == Image || sig.dataType == Buffer
    ensures r.Some? && sig.dataType != Text ==> r.value.signature == sig
    ensures r.Some? ==> r.value.name == ""
    ensures sig.dataType == Value ==>
      r.Some? && r.value.payload.Values? &&
      Shaped(r.value.payload.rows, sig.arrayLength, sig.numCoords) &&
      forall i, j :: 0 <= i < sig.arrayLength && 0 <= j < sig.numCoords ==>
        r.value.payload.rows[i][j] == 0
    ensures sig.dataType == Curve ==>
      r.Some? && r.value.payload.Curves? &&
      Shaped(r.value.payload.curves, sig.arrayLength, sig.numCoords) &&
      forall i, j :: 0 <= i < sig.arrayLength && 0 <= j < sig.numCoords ==>
        r.value.payload.curves[i][j] == IdentityCurve()
    ensures sig.dataType == Text ==>
      r == Some(Data("", DefaultSignature(), Texts([""])))
  {
    match sig.dataType
    case Value =>
      ResetFreshIsUniform(sig.arrayLength, sig.numCoords, 0 as Scalar);
      Some(Data("", sig, Values(ResetRows([], sig.arrayLength, sig.numCoords, 0))))
    case Curve =>
      // every row of empty curves is then overwritten curve by curve
      ResetFreshIsUniform(sig.arrayLength, sig.numCoords, IdentityCurve());
      Some(Data("", sig, Curves(ResetRows([], sig.arrayLength, sig.numCoords, IdentityCurve()))))
    case Text => Some(Data("", DefaultSignature(), Texts([""])))
    case Image => None
    case Buffer => None
  }

  /** Text data never carries a text signature when it is made. */
  lemma MadeTextHasWrongSignature(sig: DataSignature)
    requires sig.dataType == Text
    ensures Make(sig).Some? && Make(sig).value.signature != sig
    ensures Make(sig).value.signature.dataType == Value
  {
  }
}
