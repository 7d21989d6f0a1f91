/** Automation values as a program sees them, and the in-memory VARIANT and SAFEARRAY records
    they are written to and read from (sections 2.2.29 and 2.2.30 of MS-OAUT). */
module Automation {
  import opened Wrappers
  import opened Words
  import opened Dates

  type VarType = bv16

  const VT_EMPTY: VarType := 0x0000
  const VT_NULL: VarType := 0x0001
  const VT_I2: VarType := 0x0002
  const VT_I4: VarType := 0x0003
  const VT_R4: VarType := 0x0004
  const VT_R8: VarType := 0x0005
  const VT_CY: VarType := 0x0006
  const VT_DATE: VarType := 0x0007
  const VT_BSTR: VarType := 0x0008
  const VT_ERROR: VarType := 0x000a
  const VT_BOOL: VarType := 0x000b
  const VT_VARIANT: VarType := 0x000c
  const VT_DECIMAL: VarType := 0x000e
  const VT_I1: VarType := 0x0010
  const VT_UI1: VarType := 0x0011
  const VT_UI2: VarType := 0x0012
  const VT_UI4: VarType := 0x0013
  const VT_I8: VarType := 0x0014
  const VT_UI8: VarType := 0x0015
  const VT_INT: VarType := 0x0016
  const VT_UINT: VarType := 0x0017
  const VT_ARRAY: VarType := 0x2000
  const VT_BYREF: VarType := 0x4000

  predicate HasFlag(vt: VarType, flag: VarType) {
    vt & flag != 0
  }

  function Without(vt: VarType, flag: VarType): VarType {
    vt & !flag
  }

  datatype Result<+T> = Ok(value: T) | Err(error: ValueError)

  datatype ValueError =
    | TooDeep
    | NotFinite
    | InvalidUtf8
    | TooLarge
    | ScaleTooLarge
    | DateError
    | NeedsVariant
    | NotByRef
    | NeedsNil
    | WrongKind
    | NestedScalar
    | TypeMismatch
    | Unsupported
    | BadElementType
    | BadBounds
    | WrongCount
    | BadElement
    | Malformed

  datatype Float32 = Float32(bits: uint32)

  /** A 96-bit coefficient, a decimal scale and a sign. */
  datatype Decimal = Decimal(hi: uint32, lo: uint64, scale: uint8, negative: bool)

  datatype Bound = Bound(lower: int32, count: uint32)

  /** A Go value that the library reads or writes.  A time is in nanoseconds since 1899-12-30;
      Foreign stands for every value of another type. */
  datatype Value =
    | Nil
    | Bool(b: bool)
    | Int8(i8: int8)
    | Uint8(u8: uint8)
    | Int16(i16: int16)
    | Uint16(u16: uint16)
    | Int32(i32: int32)
    | Uint32(u32: uint32)
    | Int64(i64: int64)
    | Uint64(u64: uint64)
    | Single(f32: Float32)
    | Double(f64: Float64)
    | Str(text: Bytes)
    | Currency(units: int64)
    | Dec(d: Decimal)
    | ErrorCode(code: uint32)
    | Time(ns: int)
    | Arr(a: Array)
    | Var(vt: VarType, v: Value)
    | Foreign

  /** A nil pair of bounds and values is the null SAFEARRAY; any other nil slice is an empty one. */
  datatype Array =
    | NullArray(elementType: VarType)
    | Array(elementType: VarType, bounds: seq<Bound>, values: seq<Value>)

  /** The dynamic type and value of the union of a VARIANT. */
  datatype Payload =
    | PNone
    | PU8(u8: uint8)
    | PI16(i16: int16)
    | PU16(u16: uint16)
    | PI32(i32: int32)
    | PU32(u32: uint32)
    | PI64(i64: int64)
    | PU64(u64: uint64)
    | PF32(f32: Float32)
    | PF64(f64: Float64)
    | PString(s: Option<Bytes>)
    | PCurrency(c: Option<int64>)
    | PDecimal(d: Option<RawDecimal>)
    | PArray(a: Option<SafeArray>)
    | PVariant(v: Option<Variant>)
    | POther

  datatype RawDecimal = RawDecimal(hi: uint32, lo: uint64, scale: uint8, sign: uint8)

  datatype Variant = Variant(vt: VarType, union: Option<Payload>)

  datatype Tag = TagI1 | TagI2 | TagI4 | TagI8 | TagString | TagVariant | TagOther

  /** The element buffer of a SAFEARRAY, with the element count its header claims. */
  datatype Cells =
    | NoCells                 // no payload, a null one, or one of another type
    | BytesOf(size: uint32, bytes: seq<uint8>)
    | WordsOf(size: uint32, words: seq<uint16>)
    | LongsOf(size: uint32, longs: seq<uint32>)
    | HypersOf(size: uint32, hypers: seq<int64>)
    | StringsOf(size: uint32, strings: seq<Option<Bytes>>)
    | VariantsOf(size: uint32, variants: seq<Option<Variant>>)

  datatype SafeArray = SafeArray(
    dims: nat,
    features: bv16,
    width: nat,
    lockedType: VarType,      // the high half of the lock count field
    bounds: seq<Option<Bound>>,
    tag: Tag,
    cells: Cells
  )

  const FEATURE_STRING: bv16 := 0x0100
  const FEATURE_UNKNOWN: bv16 := 0x0200
  const FEATURE_DISPATCH: bv16 := 0x0400
  const FEATURE_VARIANT: bv16 := 0x0800
  const FEATURE_HAVE_VARTYPE: bv16 := 0x0080
  const TYPE_FEATURES: bv16 := 0x0f00

  datatype Layout = Layout(tag: Tag, width: nat, features: bv16)

  function ArrayLayout(vt: VarType): Option<Layout> {
    if vt == VT_I1 || vt == VT_UI1 then Some(Layout(TagI1, 1, FEATURE_HAVE_VARTYPE))
    else if vt == VT_I2 || vt == VT_UI2 || vt == VT_BOOL then Some(Layout(TagI2, 2, FEATURE_HAVE_VARTYPE))
    else if vt == VT_I4 || vt == VT_UI4 || vt == VT_R4 || vt == VT_ERROR || vt == VT_INT || vt == VT_UINT then
      Some(Layout(TagI4, 4, FEATURE_HAVE_VARTYPE))
    else if vt == VT_I8 || vt == VT_UI8 || vt == VT_R8 || vt == VT_CY || vt == VT_DATE then
      Some(Layout(TagI8, 8, FEATURE_HAVE_VARTYPE))
    else if vt == VT_BSTR then Some(Layout(TagString, 4, FEATURE_STRING | FEATURE_HAVE_VARTYPE))
    else if vt == VT_VARIANT then Some(Layout(TagVariant, 16, FEATURE_VARIANT | FEATURE_HAVE_VARTYPE))
    else None
  }

  const MAX_DIMENSIONS := 32
  const MAX_ELEMENTS := 0x10_0000
  const MAX_INT32 := 0x7fff_ffff

  predicate BoundFits(b: Bound) {
    b.count > 0 ==> b.lower as int + b.count as int - 1 <= MAX_INT32
  }

  /** The number of elements that bounds describe. */
  function Product(bounds: seq<Bound>): nat {
    if bounds == [] then 1 else Product(bounds[..|bounds| - 1]) * bounds[|bounds| - 1].count as nat
  }

  /** Bounds are accepted when every upper bound fits and no prefix describes too many elements. */
  ghost predicate BoundsFit(bounds: seq<Bound>) {
    && (forall i :: 0 <= i < |bounds| ==> BoundFits(bounds[i]))
    && (forall i :: 0 <= i <= |bounds| ==> Product(bounds[..i]) <= MAX_ELEMENTS)
  }

  /** The count of the loop over the dimensions, which stops at the first bad one. */
  function CountPrefix(bounds: seq<Bound>): (r: Result<nat>)
    ensures r.Ok? ==> r.value <= MAX_ELEMENTS
  {
    if bounds == [] then Ok(1)
    else
      var b := bounds[|bounds| - 1];
      match CountPrefix(bounds[..|bounds| - 1])
      case Err(e) => Err(e)
      case Ok(n) =>
        if !BoundFits(b) then Err(BadBounds)
        else if n * b.count as nat > MAX_ELEMENTS then Err(TooLarge)
        else Ok(n * b.count as nat)
  }

  function ArrayCount(bounds: seq<Bound>): (r: Result<nat>)
    ensures r.Ok? ==> r.value <= MAX_ELEMENTS
  {
    if |bounds| == 0 || |bounds| > MAX_DIMENSIONS then Err(BadBounds) else CountPrefix(bounds)
  }

  lemma {:induction false} CountPrefixIsProduct(bounds: seq<Bound>)
    ensures CountPrefix(bounds).Ok? <==> BoundsFit(bounds)
    ensures CountPrefix(bounds).Ok? ==> CountPrefix(bounds).value == Product(bounds)
  {
    if bounds == [] {
    } else {
      var front := bounds[..|bounds| - 1];
      CountPrefixIsProduct(front);
      assert forall i :: 0 <= i <= |front| ==> front[..i] == bounds[..i];
      assert bounds[..|bounds|] == bounds;
      assert BoundsFit(bounds) ==> BoundsFit(front) by {
        assert forall i :: 0 <= i < |front| ==> front[i] == bounds[i];
      }
      if CountPrefix(bounds).Ok? {
        forall i | 0 <= i <= |bounds|
          ensures Product(bounds[..i]) <= MAX_ELEMENTS
        {
          if i < |bounds| {
            assert bounds[..i] == front[..i];
          }
        }
      }
    }
  }

  /** A SAFEARRAY is accepted with 1 to 32 dimensions whose upper bounds fit in an int32 and
      none of whose prefixes describes more than 2^20 elements; its count is the product. */
  method CountElements(bounds: seq<Bound>) returns (r: Result<nat>)
    ensures r == ArrayCount(bounds)
    ensures r.Ok? <==> 1 <= |bounds| <= MAX_DIMENSIONS && BoundsFit(bounds)
    ensures r.Ok? ==> r.value == Product(bounds)
  {
    CountPrefixIsProduct(bounds);
    if |bounds| == 0 || |bounds| > MAX_DIMENSIONS {
      return Err(BadBounds);
    }
    var count := 1;
    for i := 0 to |bounds|
      invariant CountPrefix(bounds[..i]) == Ok(count)
      invariant count <= MAX_ELEMENTS
    {
      var b := bounds[i];
      var next := bounds[..i + 1];
      assert next[..|next| - 1] == bounds[..i] && next[|next| - 1] == b;
      if b.count > 0 && b.lower as int + b.count as int - 1 > MAX_INT32 {
        CountStops(bounds, i + 1);
        return Err(BadBounds);
      }
      count := count * b.count as nat;
      if count > MAX_ELEMENTS {
        CountStops(bounds, i + 1);
        return Err(TooLarge);
      }
    }
    assert bounds[..|bounds|] == bounds;
    return Ok(count);
  }

  lemma {:induction false} CountStops(bounds: seq<Bound>, i: nat)
    requires i <= |bounds| && CountPrefix(bounds[..i]).Err?
    ensures CountPrefix(bounds) == CountPrefix(bounds[..i])
    decreases |bounds|
  {
    if i == |bounds| {
      assert bounds[..i] == bounds;
    } else {
      var front := bounds[..|bounds| - 1];
      assert front[..i] == bounds[..i];
      CountStops(front, i);
    }
  }
}
