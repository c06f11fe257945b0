/** `TIOScalarLayerDescription`: the read-only description of a layer holding a
    single value, and the `TIODataType` enum it carries. */
module ScalarLayer {

  /** `TIODataType`, in declaration order. */
  datatype DataType = Unknown | UInt8 | Float32 | Int32 | Int64

  /** The name a model.json uses for a data type; the unknown type has none. */
  function DataTypeName(t: DataType): (s: string)
    ensures s == "" <==> t.Unknown?
  {
    match t
    case Unknown => ""
    case UInt8 => "uint8"
    case Float32 => "float32"
    case Int32 => "int32"
    case Int64 => "int64"
  }

  /** The data type a model.json name stands for; any other name is unknown. */
  function DataTypeForName(s: string): (t: DataType)
  {
    if s == "uint8" then UInt8
    else if s == "float32" then Float32
    else if s == "int32" then Int32
    else if s == "int64" then Int64
    else Unknown
  }

  /** Every known data type is read back from its name. */
  lemma DataTypeNameRoundTrip(t: DataType)
    requires !t.Unknown?
    ensures DataTypeForName(DataTypeName(t)) == t
  {
  }

  /** A name that denotes a known type is that type's name. */
  lemma DataTypeForNameRoundTrip(s: string)
    requires !DataTypeForName(s).Unknown?
    ensures DataTypeName(DataTypeForName(s)) == s
  {
  }

  /** The stored properties of a scalar layer description. */
  datatype ScalarLayerFields = ScalarLayerFields(
    shape: seq<int>,
    batched: bool,
    dtype: DataType,
    quantized: bool)

  /** The two shapes a scalar layer has: `[1]`, or `[-1,1]` with the batch
      placeholder in front. */
  predicate IsScalarShape(shape: seq<int>)
  {
    shape == [1] || shape == [-1, 1]
  }

  /** A scalar shape, batched exactly when the shape carries the batch
      placeholder. */
  predicate Consistent(d: ScalarLayerFields)
  {
    IsScalarShape(d.shape) && (d.batched <==> -1 in d.shape)
  }

  /** The description of a scalar layer: its shape is always `[1]` or
      `[-1,1]`, and it is batched exactly when the placeholder is there. */
  type ScalarLayerDescription = d: ScalarLayerFields | Consistent(d)
    witness ScalarLayerFields([1], false, Unknown, false)

  /** `initWithShape:batched:dtype:quantized:quantizer:dequantizer:` stores
      its arguments as they are; the shape is one a scalar layer has. */
  function InitWithShape(shape: seq<int>, batched: bool, dtype: DataType, quantized: bool): (d: ScalarLayerDescription)
    requires IsScalarShape(shape) && (batched <==> -1 in shape)
    ensures d.shape == shape && d.batched == batched && d.dtype == dtype && d.quantized == quantized
  {
    ScalarLayerFields(shape, batched, dtype, quantized)
  }

  /** A dimension's contribution to the length: the `-1` batch placeholder
      counts as 1. */
  function DimensionLength(dim: int): int
  {
    if dim == -1 then 1 else dim
  }

  /** The product of the dimensions with every `-1` read as 1. */
  function Product(shape: seq<int>): (p: int)
    ensures (forall i :: 0 <= i < |shape| ==> shape[i] >= 1 || shape[i] == -1) ==> p >= 1
    decreases |shape|
  {
    if |shape| == 0 then 1
    else
      assert forall i :: 0 < i < |shape| ==> shape[1..][i - 1] == shape[i];
      DimensionLength(shape[0]) * Product(shape[1..])
  }

  /** `length`. */
  function Length(d: ScalarLayerDescription): (n: int)
    ensures n == 1
  {
    assert [1][1..] == [] && [-1, 1][1..] == [1];
    Product(d.shape)
  }

  /** The length of a concatenated shape is the product of the lengths. */
  lemma {:induction false} ProductAppend(a: seq<int>, b: seq<int>)
    ensures Product(a + b) == Product(a) * Product(b)
    decreases |a|
  {
    if |a| == 0 {
      assert a + b == b;
    } else {
      assert (a + b)[1..] == a[1..] + b;
      ProductAppend(a[1..], b);
      MulAssoc(DimensionLength(a[0]), Product(a[1..]), Product(b));
    }
  }

  lemma MulAssoc(x: int, p: int, q: int)
    ensures x * (p * q) == (x * p) * q
  {
  }

  /** A batch placeholder in front or at the back leaves the length as it is. */
  lemma BatchPlaceholderIsNeutral(shape: seq<int>)
    ensures Product([-1] + shape) == Product(shape)
    ensures Product(shape + [-1]) == Product(shape)
  {
    ProductAppend([-1], shape);
    ProductAppend(shape, [-1]);
  }

  /** In every description, `[-1,1]` goes with `batched == YES` and
      `[1]` with `batched == NO`. */
  lemma BatchedIffPlaceholderShape(d: ScalarLayerDescription)
    ensures d.batched <==> d.shape == [-1, 1]
    ensures !d.batched <==> d.shape == [1]
  {
  }
}
