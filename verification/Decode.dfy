/** Reading: from an arbitrary in-memory VARIANT record to a value. */
module Decode {
  import opened Wrappers
  import opened Words
  import opened Dates
  import opened Automation
  import opened Encode

  /** The union's content, returned as it is for the types that need no conversion. */
  function FromPayload(p: Payload): Value {
    match p
    case PNone => Nil
    case PU8(x) => Uint8(x)
    case PI16(x) => Int16(x)
    case PU16(x) => Uint16(x)
    case PI32(x) => Int32(x)
    case PU32(x) => Uint32(x)
    case PI64(x) => Int64(x)
    case PU64(x) => Uint64(x)
    case PF32(f) => Single(f)
    case PF64(f) => Double(f)
    case _ => Foreign
  }

  function ReadDate(fl: Floats, f: Float64): Result<Value> {
    match AutomationDate(fl.fpu, f)
    case OutOfRange => Err(DateError)
    case Date(ns) => Ok(Time(ns))
  }

  predicate PassesThrough(vt: VarType) {
    vt in {VT_I2, VT_I4, VT_R4, VT_R8, VT_UI1, VT_UI2, VT_UI4, VT_I8, VT_UI8, VT_INT, VT_UINT}
  }

  function ReadScalar(fl: Floats, vt: VarType, p: Payload): Result<Value> {
    if vt == VT_EMPTY || vt == VT_NULL then Ok(Nil)
    else if PassesThrough(vt) then Ok(FromPayload(p))
    else if vt == VT_DATE then
      if p.PF64? then ReadDate(fl, p.f64) else Err(Malformed)
    else if vt == VT_CY then
      if p.PCurrency? && p.c.Some? then Ok(Currency(p.c.value)) else Err(Malformed)
    else if vt == VT_DECIMAL then
      match p
      case PDecimal(Some(d)) =>
        if d.scale > 28 || (d.sign != 0 && d.sign != 0x80) then Err(Malformed)
        else Ok(Dec(Decimal(d.hi, d.lo, d.scale, d.sign == 0x80)))
      case _ => Err(Malformed)
    else if vt == VT_ERROR then
      if p.PI32? then Ok(ErrorCode(U32(p.i32))) else Err(Malformed)
    else if vt == VT_BSTR then
      match p
      case PString(s) => Ok(Str(if s.Some? then s.value else []))
      case _ => Err(Malformed)
    else if vt == VT_I1 then
      if p.PU8? then Ok(Int8(I8(p.u8))) else Err(Malformed)
    else if vt == VT_BOOL then
      if p.PI16? then Ok(Bool(p.i16 != 0)) else Err(Malformed)
    else Err(Unsupported)
  }

  function ScalarValue(fl: Floats, v: Option<Variant>): Result<Value> {
    ScalarValueDepth(fl, v, 0)
  }

  /** The value keeps its tag unless it already carries one. */
  function Retag(vt: VarType, x: Value): Value {
    if HasFlag(vt, VT_BYREF) then x else Var(vt, x)
  }

  function ScalarValueDepth(fl: Floats, v: Option<Variant>, depth: nat): Result<Value>
    decreases Fuel(depth), 1
  {
    if depth > MAX_DEPTH then Err(TooDeep)
    else if v.None? || v.value.union.None? then Err(Malformed)
    else
      var vt, p := v.value.vt, v.value.union.value;
      if HasFlag(vt, VT_BYREF) then
        var base := Without(vt, VT_BYREF);
        if base == VT_VARIANT then
          match p
          case PVariant(Some(inner)) =>
            (match ScalarValueDepth(fl, Some(inner), depth + 1)
             case Err(e) => Err(e)
             case Ok(x) => Ok(Var(vt, Retag(inner.vt, x))))
          case _ => Err(Malformed)
        else
          match ScalarValueDepth(fl, Some(v.value.(vt := base)), depth + 1)
          case Err(e) => Err(e)
          case Ok(x) => Ok(Var(vt, x))
      else if HasFlag(vt, VT_ARRAY) then
        match p
        case PArray(a) =>
          (match ReadArray(fl, a, Without(vt, VT_ARRAY), depth + 1)
           case Err(e) => Err(e)
           case Ok(x) => Ok(Arr(x)))
        case _ => Err(Malformed)
      else ReadScalar(fl, vt, p)
  }

  function CellCount(c: Cells): nat {
    match c
    case NoCells => 0
    case BytesOf(_, s) => |s|
    case WordsOf(_, s) => |s|
    case LongsOf(_, s) => |s|
    case HypersOf(_, s) => |s|
    case StringsOf(_, s) => |s|
    case VariantsOf(_, s) => |s|
  }

  function CellSize(c: Cells): nat {
    if c.NoCells? then 0 else c.size as nat
  }

  function ReadHyper(fl: Floats, vt: VarType, n: int64): Result<Value> {
    if vt == VT_UI8 then Ok(Uint64(U64(n)))
    else if vt == VT_R8 then Ok(Double(Float64(U64(n))))
    else if vt == VT_CY then Ok(Currency(n))
    else if vt == VT_DATE then ReadDate(fl, Float64(U64(n)))
    else Ok(Int64(n))
  }

  function ReadLong(vt: VarType, n: uint32): Value {
    if vt == VT_I4 || vt == VT_INT then Int32(I32(n))
    else if vt == VT_R4 then Single(Float32(n))
    else if vt == VT_ERROR then ErrorCode(n)
    else Uint32(n)
  }

  function ReadWord(vt: VarType, n: uint16): Value {
    if vt == VT_I2 then Int16(I16(n)) else if vt == VT_BOOL then Bool(n != 0) else Uint16(n)
  }

  function ReadCell(fl: Floats, c: Cells, vt: VarType, i: nat, depth: nat): Result<Value>
    requires i < CellCount(c)
    decreases Fuel(depth), 2
  {
    match c
    case BytesOf(_, s) => Ok(if vt == VT_I1 then Int8(I8(s[i])) else Uint8(s[i]))
    case WordsOf(_, s) => Ok(ReadWord(vt, s[i]))
    case LongsOf(_, s) => Ok(ReadLong(vt, s[i]))
    case HypersOf(_, s) => ReadHyper(fl, vt, s[i])
    case StringsOf(_, s) => Ok(Str(if s[i].Some? then s[i].value else []))
    case VariantsOf(_, s) =>
      match ScalarValueDepth(fl, s[i], depth)
      case Err(e) => Err(e)
      case Ok(x) => Ok(if s[i].Some? then Retag(s[i].value.vt, x) else x)
  }

  /** The first n cells; the first failure wins. */
  function ReadCells(fl: Floats, c: Cells, vt: VarType, n: nat, depth: nat): (r: Result<seq<Value>>)
    requires n <= CellCount(c)
    ensures r.Ok? ==> |r.value| == n
    decreases Fuel(depth), 3, n
  {
    if n == 0 then Ok([])
    else
      match ReadCells(fl, c, vt, n - 1, depth)
      case Err(e) => Err(e)
      case Ok(xs) =>
        match ReadCell(fl, c, vt, n - 1, depth)
        case Err(e) => Err(e)
        case Ok(x) => Ok(xs + [x])
  }

  predicate HeaderOk(a: SafeArray, vt: VarType, l: Layout) {
    && a.tag == l.tag && a.width == l.width && a.dims == |a.bounds|
    && (a.features & FEATURE_HAVE_VARTYPE != 0 ==> a.lockedType == vt)
    && a.features & TYPE_FEATURES == l.features & TYPE_FEATURES
  }

  /** All bounds, if none is missing. */
  function AllBounds(bounds: seq<Option<Bound>>): Option<seq<Bound>> {
    if bounds == [] then Some([])
    else
      match (AllBounds(bounds[..|bounds| - 1]), bounds[|bounds| - 1])
      case (Some(bs), Some(b)) => Some(bs + [b])
      case _ => None
  }

  function ReadArray(fl: Floats, a: Option<SafeArray>, vt: VarType, depth: nat): Result<Array>
    decreases Fuel(depth), 4
  {
    match ArrayLayout(vt)
    case None => Err(BadElementType)
    case Some(l) =>
      if a.None? then Ok(NullArray(vt))
      else if !HeaderOk(a.value, vt, l) then Err(Malformed)
      else
        match AllBounds(a.value.bounds)
        case None => Err(Malformed)
        case Some(bounds) =>
          match ArrayCount(bounds)
          case Err(e) => Err(e)
          case Ok(count) =>
            var c := a.value.cells;
            if c.NoCells? then Err(Malformed)
            else
              match ReadCells(fl, c, vt, CellCount(c), depth)
              case Err(e) => Err(e)
              case Ok(xs) =>
                if CellSize(c) != count || |xs| != count then Err(WrongCount)
                else Ok(Array(vt, bounds, xs))
  }

  lemma {:induction false} ReadCellsStops(fl: Floats, c: Cells, vt: VarType, n: nat, k: nat, depth: nat)
    requires k <= n <= CellCount(c) && ReadCells(fl, c, vt, k, depth).Err?
    ensures ReadCells(fl, c, vt, n, depth) == ReadCells(fl, c, vt, k, depth)
  {
    if k < n {
      ReadCellsStops(fl, c, vt, n - 1, k, depth);
    }
  }

  lemma {:induction false} MissingBound(bounds: seq<Option<Bound>>, k: nat)
    requires k < |bounds| && bounds[k].None?
    ensures AllBounds(bounds).None?
    decreases |bounds|
  {
    if k < |bounds| - 1 {
      MissingBound(bounds[..|bounds| - 1], k);
    }
  }

  /** The loops of readArray over the bounds and over the element buffer. */
  method ParseArray(fl: Floats, a: Option<SafeArray>, vt: VarType, depth: nat) returns (r: Result<Array>)
    ensures r == ReadArray(fl, a, vt, depth)
  {
    var layout := ArrayLayout(vt);
    if layout.None? {
      return Err(BadElementType);
    }
    if a.None? {
      return Ok(NullArray(vt));
    }
    var sa := a.value;
    if !HeaderOk(sa, vt, layout.value) {
      return Err(Malformed);
    }
    var bounds: seq<Bound> := [];
    for i := 0 to |sa.bounds|
      invariant AllBounds(sa.bounds[..i]) == Some(bounds)
    {
      if sa.bounds[i].None? {
        MissingBound(sa.bounds, i);
        return Err(Malformed);
      }
      var next := sa.bounds[..i + 1];
      assert next[..|next| - 1] == sa.bounds[..i] && next[|next| - 1] == sa.bounds[i];
      bounds := bounds + [sa.bounds[i].value];
    }
    assert sa.bounds[..|sa.bounds|] == sa.bounds;
    var counted := CountElements(bounds);
    if counted.Err? {
      return Err(counted.error);
    }
    if sa.cells.NoCells? {
      return Err(Malformed);
    }
    var xs: seq<Value> := [];
    for i := 0 to CellCount(sa.cells)
      invariant ReadCells(fl, sa.cells, vt, i, depth) == Ok(xs)
    {
      var x := ReadCell(fl, sa.cells, vt, i, depth);
      if x.Err? {
        ReadCellsStops(fl, sa.cells, vt, CellCount(sa.cells), i + 1, depth);
        return Err(x.error);
      }
      xs := xs + [x.value];
    }
    if CellSize(sa.cells) != counted.value || |xs| != counted.value {
      return Err(WrongCount);
    }
    return Ok(Array(vt, bounds, xs));
  }
}
