/** Writing: from a value to the in-memory VARIANT record. */
module Encode {
  import opened Wrappers
  import opened Words
  import opened Dates
  import opened Automation

  const MAX_DEPTH := 32
  const MAX_TEXT := 0x7fff_ffff

  /** The floating point services a conversion needs: doubles, and which singles are finite. */
  datatype Floats = Floats(fpu: Fpu, finite32: Float32 -> bool)

  function Fuel(depth: nat): nat {
    if depth > MAX_DEPTH then 0 else MAX_DEPTH + 1 - depth
  }

  /** The number of VARIANT records inside each other; the marshaler accepts at most 32. */
  function Nesting(v: Variant): nat
    decreases v
  {
    match v.union
    case Some(PVariant(Some(inner))) => 1 + Nesting(inner)
    case Some(PArray(Some(a))) => 1 + CellNesting(a.cells)
    case _ => 1
  }

  function CellNesting(c: Cells): nat
    decreases c
  {
    match c
    case VariantsOf(_, vs) => ListNesting(vs)
    case _ => 0
  }

  function ListNesting(vs: seq<Option<Variant>>): nat
    decreases vs
  {
    if vs == [] then 0
    else
      var rest := ListNesting(vs[1..]);
      var head := vs[0];
      var first := match head case Some(v) => assert v < head; Nesting(v) case None => 0;
      if first < rest then rest else first
  }

  function Plain(vt: VarType, p: Payload): Result<Variant> {
    Ok(Variant(vt, Some(p)))
  }

  function WriteVariant(fl: Floats, v: Value): Result<Variant> {
    WriteVariantDepth(fl, v, 0)
  }

  function WriteVariantDepth(fl: Floats, v: Value, depth: nat): Result<Variant>
    decreases Fuel(depth), 4
  {
    if depth > MAX_DEPTH then Err(TooDeep)
    else
      match v
      case Bool(b) => Plain(VT_BOOL, PI16(if b then -1 else 0))
      case Int8(x) => Plain(VT_I1, PU8(U8(x)))
      case Uint8(x) => Plain(VT_UI1, PU8(x))
      case Int16(x) => Plain(VT_I2, PI16(x))
      case Uint16(x) => Plain(VT_UI2, PU16(x))
      case Int32(x) => Plain(VT_I4, PI32(x))
      case Uint32(x) => Plain(VT_UI4, PU32(x))
      case Int64(x) => Plain(VT_I8, PI64(x))
      case Uint64(x) => Plain(VT_UI8, PU64(x))
      case Single(f) => if fl.finite32(f) then Plain(VT_R4, PF32(f)) else Err(NotFinite)
      case Double(f) => if fl.fpu.finite(f) then Plain(VT_R8, PF64(f)) else Err(NotFinite)
      case Str(s) =>
        if !ValidUtf8(s) then Err(InvalidUtf8)
        else if |s| > MAX_TEXT then Err(TooLarge)
        else Plain(VT_BSTR, PString(Some(s)))
      case _ =>
        match WriteExtendedValue(fl, v, depth)
        case Err(e) => Err(e)
        case Ok(w) =>
          if HasFlag(w.vt, VT_ARRAY | VT_BYREF) && Nesting(w) > MAX_DEPTH then Err(TooDeep) else Ok(w)
  }

  function WriteExtendedValue(fl: Floats, v: Value, depth: nat): Result<Variant>
    requires depth <= MAX_DEPTH
    decreases Fuel(depth), 3
  {
    match v
    case Arr(a) =>
      (match WriteArray(fl, a, depth + 1)
       case Err(e) => Err(e)
       case Ok(sa) => Plain(VT_ARRAY | a.elementType, PArray(sa)))
    case Currency(x) => Plain(VT_CY, PCurrency(Some(x)))
    case Dec(d) =>
      if d.scale > 28 then Err(ScaleTooLarge)
      else Plain(VT_DECIMAL, PDecimal(Some(RawDecimal(d.hi, d.lo, d.scale, if d.negative then 0x80 else 0))))
    case ErrorCode(x) => Plain(VT_ERROR, PI32(I32(x)))
    case Time(ns) =>
      (match DateAutomation(fl.fpu, ns)
       case OutOfRange => Err(DateError)
       case Date(f) => Plain(VT_DATE, PF64(f)))
    case Var(vt, x) =>
      if HasFlag(vt, VT_BYREF) then WriteByRef(fl, vt, x, depth)
      else if vt == VT_EMPTY || vt == VT_NULL then
        if x.Nil? then Ok(Variant(vt, Some(PNone))) else Err(NeedsNil)
      else if vt == VT_INT then
        if x.Int32? then Plain(VT_INT, PI32(x.i32)) else Err(WrongKind)
      else if vt == VT_UINT then
        if x.Uint32? then Plain(VT_UINT, PU32(x.u32)) else Err(WrongKind)
      else if x.Var? then Err(NestedScalar)
      else
        (match WriteVariantDepth(fl, x, depth + 1)
         case Err(e) => Err(e)
         case Ok(w) => if w.vt != vt then Err(TypeMismatch) else Ok(w))
    case _ => Err(Unsupported)
  }

  function WriteByRef(fl: Floats, vt: VarType, x: Value, depth: nat): Result<Variant>
    requires depth <= MAX_DEPTH
    decreases Fuel(depth), 2
  {
    var base := Without(vt, VT_BYREF);
    if base == VT_VARIANT then
      if !x.Var? then Err(NeedsVariant)
      else
        match WriteVariantDepth(fl, x, depth + 1)
        case Err(e) => Err(e)
        case Ok(inner) => Plain(vt, PVariant(Some(inner)))
    else if base == VT_EMPTY || base == VT_NULL then Err(NotByRef)
    else
      match WriteVariantDepth(fl, Var(base, x), depth + 1)
      case Err(e) => Err(e)
      case Ok(inner) => Ok(inner.(vt := vt))
  }

  /** The element buffers that the loop over the elements fills. */
  datatype Buffers = Buffers(
    bytes: seq<uint8>,
    words: seq<uint16>,
    longs: seq<uint32>,
    hypers: seq<int64>,
    strings: seq<Option<Bytes>>,
    variants: seq<Option<Variant>>
  )

  const NO_BUFFERS := Buffers([], [], [], [], [], [])

  function AppendElement(b: Buffers, et: VarType, w: Variant): Result<Buffers> {
    if et == VT_VARIANT then Ok(b.(variants := b.variants + [Some(w)]))
    else
      match w.union
      case Some(PU8(x)) => Ok(b.(bytes := b.bytes + [x]))
      case Some(PI16(x)) => Ok(b.(words := b.words + [U16(x)]))
      case Some(PU16(x)) => Ok(b.(words := b.words + [x]))
      case Some(PI32(x)) => Ok(b.(longs := b.longs + [U32(x)]))
      case Some(PU32(x)) => Ok(b.(longs := b.longs + [x]))
      case Some(PF32(f)) => Ok(b.(longs := b.longs + [f.bits]))
      case Some(PI64(x)) => Ok(b.(hypers := b.hypers + [x]))
      case Some(PU64(x)) => Ok(b.(hypers := b.hypers + [I64(x)]))
      case Some(PF64(f)) => Ok(b.(hypers := b.hypers + [I64(f.bits)]))
      case Some(PCurrency(Some(x))) => Ok(b.(hypers := b.hypers + [x]))
      case Some(PString(s)) => Ok(b.(strings := b.strings + [s]))
      case _ => Err(BadElement)
  }

  function WriteElement(fl: Floats, et: VarType, x: Value, depth: nat): Result<Variant>
    decreases Fuel(depth), 5
  {
    WriteVariantDepth(fl, if et == VT_VARIANT then x else Var(et, x), depth)
  }

  /** The buffers after the elements xs; the first failure wins. */
  function WriteElements(fl: Floats, et: VarType, xs: seq<Value>, depth: nat): Result<Buffers>
    decreases Fuel(depth), 6, |xs|
  {
    if xs == [] then Ok(NO_BUFFERS)
    else
      match WriteElements(fl, et, xs[..|xs| - 1], depth)
      case Err(e) => Err(e)
      case Ok(b) =>
        match WriteElement(fl, et, xs[|xs| - 1], depth)
        case Err(e) => Err(e)
        case Ok(w) => AppendElement(b, et, w)
  }

  function CellsOf(tag: Tag, size: uint32, b: Buffers): Cells {
    match tag
    case TagI1 => BytesOf(size, b.bytes)
    case TagI2 => WordsOf(size, b.words)
    case TagI4 => LongsOf(size, b.longs)
    case TagI8 => HypersOf(size, b.hypers)
    case TagString => StringsOf(size, b.strings)
    case TagVariant => VariantsOf(size, b.variants)
    case TagOther => NoCells
  }

  function Present(bounds: seq<Bound>): seq<Option<Bound>> {
    seq(|bounds|, i requires 0 <= i < |bounds| => Some(bounds[i]))
  }

  function Build(l: Layout, et: VarType, bounds: seq<Bound>, count: nat, b: Buffers): SafeArray
    requires count <= MAX_ELEMENTS
  {
    SafeArray(|bounds|, l.features, l.width, et, Present(bounds), l.tag, CellsOf(l.tag, count as uint32, b))
  }

  function WriteArray(fl: Floats, a: Array, depth: nat): Result<Option<SafeArray>>
    decreases Fuel(depth), 7
  {
    match ArrayLayout(a.elementType)
    case None => Err(BadElementType)
    case Some(l) =>
      if a.NullArray? then Ok(None)
      else
        match ArrayCount(a.bounds)
        case Err(e) => Err(e)
        case Ok(count) =>
          if count != |a.values| then Err(WrongCount)
          else
            match WriteElements(fl, a.elementType, a.values, depth)
            case Err(e) => Err(e)
            case Ok(b) => Ok(Some(Build(l, a.elementType, a.bounds, count, b)))
  }

  lemma {:induction false} WriteElementsStops(fl: Floats, et: VarType, xs: seq<Value>, depth: nat, i: nat)
    requires i <= |xs| && WriteElements(fl, et, xs[..i], depth).Err?
    ensures WriteElements(fl, et, xs, depth) == WriteElements(fl, et, xs[..i], depth)
    decreases |xs|
  {
    if i == |xs| {
      assert xs[..i] == xs;
    } else {
      var front := xs[..|xs| - 1];
      assert front[..i] == xs[..i];
      WriteElementsStops(fl, et, front, depth, i);
    }
  }

  /** The loop of writeArray, which fills the six buffers element by element. */
  method BuildArray(fl: Floats, a: Array, depth: nat) returns (r: Result<Option<SafeArray>>)
    ensures r == WriteArray(fl, a, depth)
  {
    var layout := ArrayLayout(a.elementType);
    if layout.None? {
      return Err(BadElementType);
    }
    if a.NullArray? {
      return Ok(None);
    }
    var bounds, xs := a.bounds, a.values;
    var counted := CountElements(bounds);
    if counted.Err? {
      return Err(counted.error);
    }
    if counted.value != |xs| {
      return Err(WrongCount);
    }
    CountPrefixIsProduct(bounds);
    assert bounds[..|bounds|] == bounds;
    var buffers := NO_BUFFERS;
    for i := 0 to |xs|
      invariant WriteElements(fl, a.elementType, xs[..i], depth) == Ok(buffers)
    {
      var next := xs[..i + 1];
      assert next[..|next| - 1] == xs[..i] && next[|next| - 1] == xs[i];
      var w := WriteElement(fl, a.elementType, xs[i], depth);
      if w.Err? {
        WriteElementsStops(fl, a.elementType, xs, depth, i + 1);
        return Err(w.error);
      }
      var appended := AppendElement(buffers, a.elementType, w.value);
      if appended.Err? {
        WriteElementsStops(fl, a.elementType, xs, depth, i + 1);
        return Err(appended.error);
      }
      buffers := appended.value;
    }
    assert xs[..|xs|] == xs;
    return Ok(Some(Build(layout.value, a.elementType, bounds, counted.value, buffers)));
  }
}
