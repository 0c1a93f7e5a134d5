/**
 * Conversion between data of different signatures (processor.cpp
 * `CopyValueData` and `Data::ConvertTo`).
 */
module Conversion {
  import opened Wrappers
  import opened Signatures
  import opened DataModel

  /**
   * The numeric cast between encodings done by `std::copy` and `std::fill`
   * (float truncation, integer promotion, ...): `conv(from, to, x)`. It is
   * a parameter because its float and integer arithmetic is not modelled.
   */
  type Cast = (Encoding, Encoding, Scalar) -> Scalar

  /** Copying between vectors of the same element type changes nothing. */
  function CastScalar(conv: Cast, from: Encoding, to: Encoding, x: Scalar): Scalar {
    if from == to then x else conv(from, to, x)
  }

  /** The curve written into destination coordinates that were not copied. */
  function ZeroCurve(): CurvePoints {
    CurvePoints([
      CurvePoint(Point2(0.0, 0.0), Point2(0.0, 0.0), Point2(0.0, 0.0)),
      CurvePoint(Point2(0.0, 0.0), Point2(0.0, 0.0), Point2(0.0, 0.0))])
  }

  function Min(a: nat, b: nat): nat {
    if a <= b then a else b
  }

  /**
   * One destination row of length `rowLen` after the copy, with
   * `k = min(width, |srcRow|)`: a single copied coordinate is broadcast to
   * the whole row, otherwise the first `k` entries are copied and the rest
   * are `zero`.
   */
  function CopyRow<T>(rowLen: nat, width: nat, srcRow: seq<T>, cast: T -> T, zero: T): (r: seq<T>)
    requires Min(width, |srcRow|) <= rowLen
    ensures |r| == rowLen
  {
    var k := Min(width, |srcRow|);
    if k == 1 then seq(rowLen, _ => cast(srcRow[0]))
    else seq(rowLen, j requires 0 <= j < rowLen => if j < k then cast(srcRow[j]) else zero)
  }

  /** The rows of the destination after `CopyValueData`. */
  ghost predicate CopyFits<T>(dst: seq<seq<T>>, width: nat, src: seq<seq<T>>) {
    |dst| <= |src| && forall i :: 0 <= i < |dst| ==> Min(width, |src[i]|) <= |dst[i]|
  }

  function CopiedRows<T>(dst: seq<seq<T>>, width: nat, src: seq<seq<T>>, cast: T -> T, zero: T): (r: seq<seq<T>>)
    requires CopyFits(dst, width, src)
    ensures |r| == |dst|
  {
    seq(|dst|, i requires 0 <= i < |dst| => CopyRow(|dst[i]|, width, src[i], cast, zero))
  }

  /** With one coordinate to copy, the whole destination row repeats it. */
  lemma CopyRowBroadcast<T>(rowLen: nat, width: nat, srcRow: seq<T>, cast: T -> T, zero: T, j: nat)
    requires Min(width, |srcRow|) <= rowLen && Min(width, |srcRow|) == 1 && j < rowLen
    ensures CopyRow(rowLen, width, srcRow, cast, zero)[j] == cast(srcRow[0])
  {
  }

  /** Otherwise the first `k` coordinates are copied and the rest are zero. */
  lemma CopyRowPrefix<T>(rowLen: nat, width: nat, srcRow: seq<T>, cast: T -> T, zero: T, j: nat)
    requires Min(width, |srcRow|) <= rowLen && Min(width, |srcRow|) != 1 && j < rowLen
    ensures CopyRow(rowLen, width, srcRow, cast, zero)[j] ==
      if j < Min(width, |srcRow|) then cast(srcRow[j]) else zero
  {
  }

  /**
   * `CopyValueData`: for each of the destination's `array_length` rows, fill
   * or copy from the same row of the source. The source is indexed with the
   * destination's `array_length`, so it must have at least that many rows.
   */
  method CopyValueData<T>(dst: VecData<T>, src: seq<seq<T>>, cast: T -> T, zero: T)
    requires |dst.data| == dst.signature.arrayLength
    requires CopyFits(dst.data, dst.signature.numCoords, src)
    modifies dst
    ensures dst.signature == old(dst.signature)
    ensures dst.data == CopiedRows(old(dst.data), dst.signature.numCoords, src, cast, zero)
  {
    ghost var before := dst.data;
    var width := dst.signature.numCoords;
    var i := 0;
    while i < dst.signature.arrayLength
      invariant dst.signature == old(dst.signature)
      invariant 0 <= i <= |dst.data| == |before| == dst.signature.arrayLength
      invariant forall j :: 0 <= j < i ==> dst.data[j] == CopyRow(|before[j]|, width, src[j], cast, zero)
      invariant forall j :: i <= j < |dst.data| ==> dst.data[j] == before[j]
    {
      var row := dst.data[i];
      var k := Min(width, |src[i]|);
      var j := 0;
      if k == 1 {
        // std::fill of the whole row with the one source coordinate
        while j < |row|
          invariant 0 <= j <= |row| == |before[i]|
          invariant forall m :: 0 <= m < j ==> row[m] == cast(src[i][0])
        {
          row := row[j := cast(src[i][0])];
          j := j + 1;
        }
      } else {
        // std::copy of the first k coordinates, then std::fill of the rest
        while j < |row|
          invariant 0 <= j <= |row| == |before[i]|
          invariant forall m :: 0 <= m < j ==> row[m] == if m < k then cast(src[i][m]) else zero
        {
          row := row[j := if j < k then cast(src[i][j]) else zero];
          j := j + 1;
        }
      }
      dst.data := dst.data[i := row];
      i := i + 1;
    }
  }

  /**
   * The outcome of `ConvertTo`: new data, a null pointer, or a path on
   * which the source has undefined behaviour (a null or mistyped
   * destination, or a source with too few rows).
   */
  datatype Converted = Produced(data: Data) | NullData | Undefined

  predicate IsVector(t: DataType) {
    t == Value || t == Curve
  }

  /**
   * `Data::ConvertTo(target)`. Scalars are cast with the encodings the
   * other way round (from the target's to the source's), because the
   * template arguments of `CopyValueData` are swapped for every mixed
   * encoding pair; the three value classes share one layout, so what runs
   * is that swapped cast.
   */
  function ConvertTo(src: Data, target: DataSignature, conv: Cast): (r: Converted)
    ensures !CanLink(src.signature, target) ==> r == NullData
    ensures r.Undefined? ==> IsVector(src.signature.dataType)
    ensures CanLink(src.signature, target) && IsVector(src.signature.dataType) && target.dataType == Image ==>
      r == Undefined
    ensures src.signature.dataType == Curve && target.dataType == Value ==> r == Undefined
    ensures r.Produced? && IsVector(src.signature.dataType) ==>
      r.data.signature == target && r.data.name == ""
    ensures r.Produced? && src.signature.dataType == Value ==>
      r.data.payload.Values? && Shaped(r.data.payload.rows, target.arrayLength, target.numCoords)
    ensures r.Produced? && src.signature.dataType == Curve ==>
      r.data.payload.Curves? && Shaped(r.data.payload.curves, target.arrayLength, target.numCoords)
    ensures CanLink(src.signature, target) && src.signature.dataType == Value ==>
      if target.dataType == Value && src.payload.Values? && |src.payload.rows| >= target.arrayLength
      then r.Produced? else r == Undefined
    ensures CanLink(src.signature, target) && src.signature.dataType == Curve ==>
      if target.dataType == Curve && src.payload.Curves? && |src.payload.curves| >= target.arrayLength
      then r.Produced? else r == Undefined
    ensures CanLink(src.signature, target) && !IsVector(src.signature.dataType) ==>
      r == if Make(target).Some? then Produced(Make(target).value) else NullData
  {
    if !CanLink(src.signature, target) then NullData
    else
      var made := Make(target);
      match src.signature.dataType
      case Value =>
        if made.None? || !made.value.payload.Values? || !src.payload.Values? then Undefined
        else if |src.payload.rows| < target.arrayLength then Undefined
        else
          var cast := x => CastScalar(conv, target.encoding, src.signature.encoding, x);
          Produced(made.value.(payload :=
            Values(CopiedRows(made.value.payload.rows, target.numCoords, src.payload.rows, cast, 0))))
      case Curve =>
        if made.None? || !made.value.payload.Curves? || !src.payload.Curves? then Undefined
        else if |src.payload.curves| < target.arrayLength then Undefined
        else
          Produced(made.value.(payload :=
            Curves(CopiedRows(made.value.payload.curves, target.numCoords, src.payload.curves, c => c, ZeroCurve()))))
      case _ =>
        if made.Some? then Produced(made.value) else NullData
  }

  /**
   * Per element, value to value: with `k = min(num_coords, |source row|)`,
   * a single coordinate is broadcast to every coordinate of the row,
   * otherwise the first `k` are copied and the rest are zero, each cast
   * from the target's encoding to the source's.
   */
  lemma {:induction false} ConvertValueElement(src: Data, target: DataSignature, conv: Cast, i: nat, j: nat)
    requires src.signature.dataType == Value && ConvertTo(src, target, conv).Produced?
    requires i < target.arrayLength && j < target.numCoords
    ensures src.payload.Values? && i < |src.payload.rows|
    ensures var k := Min(target.numCoords, |src.payload.rows[i]|);
      ConvertTo(src, target, conv).data.payload.rows[i][j] ==
        if k == 1 then CastScalar(conv, target.encoding, src.signature.encoding, src.payload.rows[i][0])
        else if j < k then CastScalar(conv, target.encoding, src.signature.encoding, src.payload.rows[i][j])
        else 0
  {
    var made := Make(target);
    var rows := made.value.payload.rows;
    var cast := x => CastScalar(conv, target.encoding, src.signature.encoding, x);
    assert |rows[i]| == target.numCoords;
    var row := CopyRow(|rows[i]|, target.numCoords, src.payload.rows[i], cast, 0);
    assert ConvertTo(src, target, conv).data.payload.rows[i] == row;
  }

  /** Within one encoding the copy is exact: no cast is involved. */
  lemma {:induction false} ConvertSameEncodingExact(src: Data, target: DataSignature, conv: Cast, i: nat, j: nat)
    requires src.signature.dataType == Value && ConvertTo(src, target, conv).Produced?
    requires target.encoding == src.signature.encoding
    requires i < target.arrayLength && j < target.numCoords
    ensures src.payload.Values? && i < |src.payload.rows|
    ensures var k := Min(target.numCoords, |src.payload.rows[i]|);
      ConvertTo(src, target, conv).data.payload.rows[i][j] ==
        if k == 1 then src.payload.rows[i][0]
        else if j < k then src.payload.rows[i][j]
        else 0
  {
    ConvertValueElement(src, target, conv, i, j);
  }

  /**
   * Per element, curve to curve: the same broadcast and prefix copy, with
   * coordinates that were not copied reset to the zero curve.
   */
  lemma {:induction false} ConvertCurveElement(src: Data, target: DataSignature, conv: Cast, i: nat, j: nat)
    requires src.signature.dataType == Curve && ConvertTo(src, target, conv).Produced?
    requires i < target.arrayLength && j < target.numCoords
    ensures src.payload.Curves? && i < |src.payload.curves|
    ensures var k := Min(target.numCoords, |src.payload.curves[i]|);
      ConvertTo(src, target, conv).data.payload.curves[i][j] ==
        if k == 1 then src.payload.curves[i][0]
        else if j < k then src.payload.curves[i][j]
        else ZeroCurve()
  {
    var made := Make(target);
    var rows := made.value.payload.curves;
    assert |rows[i]| == target.numCoords;
    var row := CopyRow(|rows[i]|, target.numCoords, src.payload.curves[i], c => c, ZeroCurve());
    assert ConvertTo(src, target, conv).data.payload.curves[i] == row;
  }

  /**
   * A value or curve source with fewer rows than the target's
   * `array_length` is read past its end.
   */
  lemma ConvertShortSourceUndefined(src: Data, target: DataSignature, conv: Cast)
    requires
      (src.signature.dataType == Value && target.dataType == Value && src.payload.Values? &&
       |src.payload.rows| < target.arrayLength) ||
      (src.signature.dataType == Curve && target.dataType == Curve && src.payload.Curves? &&
       |src.payload.curves| < target.arrayLength)
    ensures ConvertTo(src, target, conv) == Undefined
  {
  }

  /** Text to text allocates a new text and copies none of the source strings. */
  lemma ConvertTextCopiesNothing(src: Data, target: DataSignature, conv: Cast)
    requires src.signature.dataType == Text && target.dataType == Text
    ensures ConvertTo(src, target, conv) == Produced(Data("", DefaultSignature(), Texts([""])))
  {
  }

  /**
   * The swapped template arguments: converting a float value to a signed
   * integer applies the integer-to-float cast. With a cast that tells the
   * two directions apart, the element differs from the float-to-integer
   * cast of the source element.
   */
  lemma MixedEncodingCastsBackwards()
    ensures var conv: Cast := (from, to, x) => if from == Floating then 1 else 2;
      var src := Data("", DataSignature(Value, Floating, 1, 1), Values([[7]]));
      var target := DataSignature(Value, SInteger, 1, 1);
      ConvertTo(src, target, conv).Produced? &&
      ConvertTo(src, target, conv).data.payload.rows[0][0] == conv(SInteger, Floating, 7) &&
      ConvertTo(src, target, conv).data.payload.rows[0][0] != conv(Floating, SInteger, 7)
  {
    var conv: Cast := (from, to, x) => if from == Floating then 1 else 2;
    var src := Data("", DataSignature(Value, Floating, 1, 1), Values([[7]]));
    var target := DataSignature(Value, SInteger, 1, 1);
    ConvertValueElement(src, target, conv, 0, 0);
  }
}
