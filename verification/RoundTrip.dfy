/** Every value that can be written reads back as its normal form, at any nesting depth. */
module RoundTrip {
  import opened Wrappers
  import opened Words
  import opened Dates
  import opened Automation
  import opened Encode
  import opened Decode

  /** The VARTYPE a value is written with. */
  function TypeOf(v: Value): VarType {
    match v
    case Bool(_) => VT_BOOL
    case Int8(_) => VT_I1
    case Uint8(_) => VT_UI1
    case Int16(_) => VT_I2
    case Uint16(_) => VT_UI2
    case Int32(_) => VT_I4
    case Uint32(_) => VT_UI4
    case Int64(_) => VT_I8
    case Uint64(_) => VT_UI8
    case Single(_) => VT_R4
    case Double(_) => VT_R8
    case Str(_) => VT_BSTR
    case Currency(_) => VT_CY
    case Dec(_) => VT_DECIMAL
    case ErrorCode(_) => VT_ERROR
    case Time(_) => VT_DATE
    case Arr(a) => VT_ARRAY | a.elementType
    case Var(vt, _) => vt
    case Nil => VT_EMPTY
    case Foreign => VT_EMPTY
  }

  /** The normal form: typed scalars lose their tag at the top level and keep it inside VARIANT
      arrays and BYREF VARIANTs, dates are rounded to the millisecond, and an array's values are
      in normal form. */
  function Norm(v: Value): Value
    decreases v, 0
  {
    match v
    case Time(ns) => Time(RoundMs(ns) * 1000000)
    case Arr(NullArray(_)) => v
    case Arr(Array(et, bounds, xs)) => Arr(Array(et, bounds, NormAll(et, xs)))
    case Var(vt, x) =>
      if HasFlag(vt, VT_BYREF) then Var(vt, if Without(vt, VT_BYREF) == VT_VARIANT then Tagged(x) else Norm(x))
      else if vt == VT_EMPTY || vt == VT_NULL then Nil
      else Norm(x)
    case _ => v
  }

  function Tagged(v: Value): Value
    decreases v, 1
  {
    Retag(TypeOf(v), Norm(v))
  }

  function NormElement(et: VarType, v: Value): Value
    decreases v, 2
  {
    if et == VT_VARIANT then Tagged(v) else Norm(v)
  }

  function NormAll(et: VarType, xs: seq<Value>): (r: seq<Value>)
    ensures |r| == |xs|
    decreases xs, 0
  {
    if xs == [] then [] else NormAll(et, xs[..|xs| - 1]) + [NormElement(et, xs[|xs| - 1])]
  }

  // ---- scalars ----

  /** Values written without recursion. */
  predicate Simple(v: Value) {
    !v.Arr? && !v.Var? && !v.Nil? && !v.Foreign?
  }

  /** The types whose values are converted by writeExtendedValue. */
  predicate Converted(v: Value) {
    v.Currency? || v.Dec? || v.ErrorCode? || v.Time?
  }

  /** The record w is a scalar that reads as v in normal form. */
  predicate ReadsBack(fl: Floats, w: Variant, v: Value) {
    && w.vt == TypeOf(v) && w.union.Some?
    && !HasFlag(w.vt, VT_BYREF) && !HasFlag(w.vt, VT_ARRAY)
    && ReadScalar(fl, w.vt, w.union.value) == Ok(Norm(v))
  }

  lemma PlainRoundTrip(fl: Floats, v: Value, depth: nat)
    requires Simple(v) && !Converted(v) && WriteVariantDepth(fl, v, depth).Ok?
    ensures ReadsBack(fl, WriteVariantDepth(fl, v, depth).value, v)
  {
    WordsInverse();
  }

  lemma ConvertedRoundTrip(fl: Floats, v: Value, depth: nat)
    requires Faithful(fl.fpu) && Converted(v) && depth <= MAX_DEPTH && WriteExtendedValue(fl, v, depth).Ok?
    ensures ReadsBack(fl, WriteExtendedValue(fl, v, depth).value, v)
  {
    WordsInverse();
    if v.Time? {
      RoundedRoundTrip(fl.fpu, v.ns);
    }
  }

  lemma SimpleRoundTrip(fl: Floats, v: Value, depth: nat)
    requires Faithful(fl.fpu) && Simple(v) && depth <= MAX_DEPTH && WriteVariantDepth(fl, v, depth).Ok?
    ensures ReadsBack(fl, WriteVariantDepth(fl, v, depth).value, v)
  {
    if Converted(v) {
      ExtendedAsIs(fl, v, depth);
      ConvertedRoundTrip(fl, v, depth);
    } else {
      PlainRoundTrip(fl, v, depth);
    }
  }

  /** The record carries the type of the value, and null or unsupported values are refused. */
  lemma WrittenType(fl: Floats, v: Value, depth: nat)
    requires depth <= MAX_DEPTH && WriteVariantDepth(fl, v, depth).Ok?
    ensures WriteVariantDepth(fl, v, depth).value.vt == TypeOf(v)
    ensures !v.Nil? && !v.Foreign?
  {
    match v
    case Bool(_) =>
    case Int8(_) =>
    case Uint8(_) =>
    case Int16(_) =>
    case Uint16(_) =>
    case Int32(_) =>
    case Uint32(_) =>
    case Int64(_) =>
    case Uint64(_) =>
    case Single(_) =>
    case Double(_) =>
    case Str(_) =>
    case _ =>
      ExtendedAsIs(fl, v, depth);
      ExtendedType(fl, v, depth);
  }

  /** An accepted value beyond the plain scalars is what writeExtendedValue makes of it. */
  lemma ExtendedAsIs(fl: Floats, v: Value, depth: nat)
    requires depth <= MAX_DEPTH
    requires v.Nil? || v.Foreign? || v.Currency? || v.Dec? || v.ErrorCode? || v.Time? || v.Arr? || v.Var?
    ensures WriteVariantDepth(fl, v, depth).Ok? ==> WriteExtendedValue(fl, v, depth) == WriteVariantDepth(fl, v, depth)
  {}

  lemma ExtendedType(fl: Floats, v: Value, depth: nat)
    requires depth <= MAX_DEPTH && WriteExtendedValue(fl, v, depth).Ok?
    ensures WriteExtendedValue(fl, v, depth).value.vt == TypeOf(v)
    ensures !v.Nil? && !v.Foreign?
  {}

  // ---- array elements ----

  predicate TypedElement(et: VarType) {
    ArrayLayout(et).Some? && et != VT_VARIANT
  }

  lemma ArrayFlags(et: VarType)
    requires ArrayLayout(et).Some?
    ensures HasFlag(VT_ARRAY | et, VT_ARRAY) && !HasFlag(VT_ARRAY | et, VT_BYREF)
    ensures Without(VT_ARRAY | et, VT_ARRAY) == et
    ensures !HasFlag(et, VT_BYREF) && !HasFlag(et, VT_ARRAY) && et != VT_EMPTY && et != VT_NULL
  {}

  lemma ArrayTagged(v: Value)
    ensures v.Arr? ==> HasFlag(TypeOf(v), VT_ARRAY)
  {}

  /** A typed element is a scalar of the element type, written without its tag. */
  lemma TypedElementIsSimple(fl: Floats, et: VarType, x: Value, depth: nat)
    requires TypedElement(et) && WriteElement(fl, et, x, depth).Ok?
    ensures depth <= MAX_DEPTH && Simple(x)
    ensures if et == VT_INT then x.Int32? && WriteElement(fl, et, x, depth) == Plain(VT_INT, PI32(x.i32))
            else if et == VT_UINT then x.Uint32? && WriteElement(fl, et, x, depth) == Plain(VT_UINT, PU32(x.u32))
            else
              && depth < MAX_DEPTH && TypeOf(x) == et
              && WriteElement(fl, et, x, depth) == WriteVariantDepth(fl, x, depth + 1)
  {
    var v := Var(et, x);
    ArrayFlags(et);
    assert WriteElement(fl, et, x, depth) == WriteExtendedValue(fl, v, depth);
    if et != VT_INT && et != VT_UINT {
      var w := WriteVariantDepth(fl, x, depth + 1);
      assert w.Ok? && w.value.vt == et;
      WrittenType(fl, x, depth + 1);
      ArrayTagged(x);
    }
  }

  /** The length of the buffer a layout uses. */
  function Filled(tag: Tag, b: Buffers): nat {
    CellCount(CellsOf(tag, 0, b))
  }

  /** Buffer r is buffer b, for this element type, extended by a cell that reads as x. */
  ghost predicate Extends(fl: Floats, et: VarType, b: Buffers, r: Buffers, x: Value, depth: nat)
    requires ArrayLayout(et).Some?
  {
    var tag := ArrayLayout(et).value.tag;
    && Filled(tag, r) == Filled(tag, b) + 1
    && (forall i :: 0 <= i < Filled(tag, b) ==>
          ReadCell(fl, CellsOf(tag, 0, r), et, i, depth) == ReadCell(fl, CellsOf(tag, 0, b), et, i, depth))
    && ReadCell(fl, CellsOf(tag, 0, r), et, Filled(tag, b), depth) == Ok(Norm(x))
  }

  lemma BytesExtend(fl: Floats, et: VarType, x: Value, w: Variant, b: Buffers, depth: nat)
    requires et == VT_I1 || et == VT_UI1
    requires (et == VT_I1 && x.Int8? && w.union == Some(PU8(U8(x.i8)))) ||
             (et == VT_UI1 && x.Uint8? && w.union == Some(PU8(x.u8)))
    ensures AppendElement(b, et, w).Ok? && Extends(fl, et, b, AppendElement(b, et, w).value, x, depth)
  {
    WordsInverse();
  }

  lemma WordsExtend(fl: Floats, et: VarType, x: Value, w: Variant, b: Buffers, depth: nat)
    requires et == VT_I2 || et == VT_UI2 || et == VT_BOOL
    requires || (et == VT_I2 && x.Int16? && w.union == Some(PI16(x.i16)))
             || (et == VT_UI2 && x.Uint16? && w.union == Some(PU16(x.u16)))
             || (et == VT_BOOL && x.Bool? && w.union == Some(PI16(if x.b then -1 else 0)))
    ensures AppendElement(b, et, w).Ok? && Extends(fl, et, b, AppendElement(b, et, w).value, x, depth)
  {
    WordsInverse();
  }

  lemma SignedLongsExtend(fl: Floats, et: VarType, x: Value, w: Variant, b: Buffers, depth: nat)
    requires et == VT_I4 || et == VT_INT || et == VT_ERROR
    requires || (et != VT_ERROR && x.Int32? && w.union == Some(PI32(x.i32)))
             || (et == VT_ERROR && x.ErrorCode? && w.union == Some(PI32(I32(x.code))))
    ensures AppendElement(b, et, w).Ok? && Extends(fl, et, b, AppendElement(b, et, w).value, x, depth)
  {
    WordsInverse();
  }

  lemma LongsExtend(fl: Floats, et: VarType, x: Value, w: Variant, b: Buffers, depth: nat)
    requires et == VT_UI4 || et == VT_UINT || et == VT_R4
    requires || (et != VT_R4 && x.Uint32? && w.union == Some(PU32(x.u32)))
             || (et == VT_R4 && x.Single? && w.union == Some(PF32(x.f32)))
    ensures AppendElement(b, et, w).Ok? && Extends(fl, et, b, AppendElement(b, et, w).value, x, depth)
  {
    WordsInverse();
  }

  lemma HypersExtend(fl: Floats, et: VarType, x: Value, w: Variant, b: Buffers, depth: nat)
    requires et == VT_I8 || et == VT_CY
    requires || (et == VT_I8 && x.Int64? && w.union == Some(PI64(x.i64)))
             || (et == VT_CY && x.Currency? && w.union == Some(PCurrency(Some(x.units))))
    ensures AppendElement(b, et, w).Ok? && Extends(fl, et, b, AppendElement(b, et, w).value, x, depth)
  {
    WordsInverse();
  }

  lemma UnsignedHypersExtend(fl: Floats, et: VarType, x: Value, w: Variant, b: Buffers, depth: nat)
    requires et == VT_UI8 || et == VT_R8
    requires || (et == VT_UI8 && x.Uint64? && w.union == Some(PU64(x.u64)))
             || (et == VT_R8 && x.Double? && w.union == Some(PF64(x.f64)))
    ensures AppendElement(b, et, w).Ok? && Extends(fl, et, b, AppendElement(b, et, w).value, x, depth)
  {
    WordsInverse();
  }

  lemma DatesExtend(fl: Floats, x: Value, w: Variant, b: Buffers, depth: nat)
    requires Faithful(fl.fpu) && x.Time? && DateAutomation(fl.fpu, x.ns).Date?
    requires w.union == Some(PF64(DateAutomation(fl.fpu, x.ns).value))
    ensures AppendElement(b, VT_DATE, w).Ok? && Extends(fl, VT_DATE, b, AppendElement(b, VT_DATE, w).value, x, depth)
  {
    WordsInverse();
    RoundedRoundTrip(fl.fpu, x.ns);
  }

  lemma StringsExtend(fl: Floats, x: Value, w: Variant, b: Buffers, depth: nat)
    requires x.Str? && w.union == Some(PString(Some(x.text)))
    ensures AppendElement(b, VT_BSTR, w).Ok? && Extends(fl, VT_BSTR, b, AppendElement(b, VT_BSTR, w).value, x, depth)
  {}

  /** Appending a typed element extends exactly the buffer of its layout, by a cell that reads
      back as the element's normal form. */
  lemma TypedElementRoundTrip(fl: Floats, et: VarType, x: Value, b: Buffers, depth: nat, at: nat)
    requires Faithful(fl.fpu) && TypedElement(et) && WriteElement(fl, et, x, depth).Ok?
    ensures var r := AppendElement(b, et, WriteElement(fl, et, x, depth).value);
            r.Ok? && Extends(fl, et, b, r.value, x, at)
  {
    TypedElementIsSimple(fl, et, x, depth);
    var w := WriteElement(fl, et, x, depth).value;
    match ArrayLayout(et).value.tag
    case TagI1 => BytesExtend(fl, et, x, w, b, at);
    case TagI2 => WordsExtend(fl, et, x, w, b, at);
    case TagI4 =>
      if x.Int32? || x.ErrorCode? {
        SignedLongsExtend(fl, et, x, w, b, at);
      } else {
        LongsExtend(fl, et, x, w, b, at);
      }
    case TagI8 =>
      HypersPayload(fl, et, x, depth);
      if x.Time? {
        DatesExtend(fl, x, w, b, at);
      } else if x.Uint64? || x.Double? {
        UnsignedHypersExtend(fl, et, x, w, b, at);
      } else {
        HypersExtend(fl, et, x, w, b, at);
      }
    case TagString => StringsExtend(fl, x, w, b, at);
  }

  lemma HypersPayload(fl: Floats, et: VarType, x: Value, depth: nat)
    requires (et == VT_CY && x.Currency?) || (et == VT_DATE && x.Time?) || (et == VT_R8 && x.Double?) ||
             (et == VT_I8 && x.Int64?) || (et == VT_UI8 && x.Uint64?)
    requires WriteElement(fl, et, x, depth).Ok? && depth < MAX_DEPTH
    requires WriteElement(fl, et, x, depth) == WriteVariantDepth(fl, x, depth + 1)
    ensures var u := WriteElement(fl, et, x, depth).value.union;
            && (x.Currency? ==> u == Some(PCurrency(Some(x.units))))
            && (x.Time? ==> DateAutomation(fl.fpu, x.ns).Date? && u == Some(PF64(DateAutomation(fl.fpu, x.ns).value)))
  {
    if x.Currency? || x.Time? {
      assert WriteVariantDepth(fl, x, depth + 1) == WriteExtendedValue(fl, x, depth + 1);
    }
  }

  lemma {:induction false} ReadCellsAgree(fl: Floats, c: Cells, k: Cells, vt: VarType, n: nat, depth: nat)
    requires n <= CellCount(c) && n <= CellCount(k)
    requires forall i :: 0 <= i < n ==> ReadCell(fl, c, vt, i, depth) == ReadCell(fl, k, vt, i, depth)
    ensures ReadCells(fl, c, vt, n, depth) == ReadCells(fl, k, vt, n, depth)
  {
    if n > 0 {
      ReadCellsAgree(fl, c, k, vt, n - 1, depth);
    }
  }

  lemma SizeIsIrrelevant(fl: Floats, tag: Tag, b: Buffers, size: uint32, vt: VarType, depth: nat)
    ensures CellCount(CellsOf(tag, size, b)) == Filled(tag, b)
    ensures ReadCells(fl, CellsOf(tag, size, b), vt, Filled(tag, b), depth) ==
            ReadCells(fl, CellsOf(tag, 0, b), vt, Filled(tag, b), depth)
  {
    forall i | 0 <= i < Filled(tag, b)
      ensures ReadCell(fl, CellsOf(tag, size, b), vt, i, depth) == ReadCell(fl, CellsOf(tag, 0, b), vt, i, depth)
    {}
    ReadCellsAgree(fl, CellsOf(tag, size, b), CellsOf(tag, 0, b), vt, Filled(tag, b), depth);
  }

  lemma {:induction false} BoundsRoundTrip(bounds: seq<Bound>)
    ensures AllBounds(Present(bounds)) == Some(bounds)
  {
    if bounds == [] {
    } else {
      var front := bounds[..|bounds| - 1];
      BoundsRoundTrip(front);
      assert Present(bounds)[..|bounds| - 1] == Present(front);
      assert front + [bounds[|bounds| - 1]] == bounds;
    }
  }

  // ---- the main theorem ----

  /** One more element: the buffer of the layout gains a cell that reads as the normal form. */
  lemma ElementRoundTrip(fl: Floats, et: VarType, x: Value, b: Buffers, depth: nat, at: nat)
    requires Faithful(fl.fpu) && ArrayLayout(et).Some? && at <= depth && WriteElement(fl, et, x, depth).Ok?
    ensures var tag := ArrayLayout(et).value.tag;
            var r := AppendElement(b, et, WriteElement(fl, et, x, depth).value);
            && r.Ok? && Filled(tag, r.value) == Filled(tag, b) + 1
            && (forall i :: 0 <= i < Filled(tag, b) ==>
                  ReadCell(fl, CellsOf(tag, 0, r.value), et, i, at) == ReadCell(fl, CellsOf(tag, 0, b), et, i, at))
            && ReadCell(fl, CellsOf(tag, 0, r.value), et, Filled(tag, b), at) == Ok(NormElement(et, x))
    decreases Fuel(depth), 5
  {
    if et == VT_VARIANT {
      VariantRoundTrip(fl, x, depth, at);
    } else {
      TypedElementRoundTrip(fl, et, x, b, depth, at);
    }
  }

  lemma {:induction false} ElementsRoundTrip(fl: Floats, et: VarType, xs: seq<Value>, depth: nat, at: nat)
    requires Faithful(fl.fpu) && ArrayLayout(et).Some? && at <= depth && WriteElements(fl, et, xs, depth).Ok?
    ensures var tag := ArrayLayout(et).value.tag;
            var b := WriteElements(fl, et, xs, depth).value;
            && Filled(tag, b) == |xs|
            && ReadCells(fl, CellsOf(tag, 0, b), et, |xs|, at) == Ok(NormAll(et, xs))
    decreases Fuel(depth), 6, |xs|
  {
    if xs != [] {
      var front, last := xs[..|xs| - 1], xs[|xs| - 1];
      ElementsRoundTrip(fl, et, front, depth, at);
      var tag := ArrayLayout(et).value.tag;
      var b := WriteElements(fl, et, front, depth).value;
      ElementRoundTrip(fl, et, last, b, depth, at);
      var r := WriteElements(fl, et, xs, depth).value;
      ReadCellsAgree(fl, CellsOf(tag, 0, r), CellsOf(tag, 0, b), et, |front|, at);
    }
  }

  /** A built array passes the checks of the reader, which returns what its cells read as. */
  lemma BuiltArrayReads(fl: Floats, l: Layout, et: VarType, bounds: seq<Bound>, xs: seq<Value>, b: Buffers, at: nat)
    requires ArrayLayout(et) == Some(l) && ArrayCount(bounds) == Ok(|xs|) && Filled(l.tag, b) == |xs|
    requires ReadCells(fl, CellsOf(l.tag, 0, b), et, |xs|, at) == Ok(xs)
    ensures ReadArray(fl, Some(Build(l, et, bounds, |xs|, b)), et, at) == Ok(Array(et, bounds, xs))
  {
    var sa := Build(l, et, bounds, |xs|, b);
    SizeIsIrrelevant(fl, l.tag, b, |xs| as uint32, et, at);
    BoundsRoundTrip(bounds);
    assert HeaderOk(sa, et, l);
    assert CellCount(sa.cells) == |xs| && CellSize(sa.cells) == |xs|;
  }

  lemma ArrayRoundTrip(fl: Floats, a: Array, depth: nat, at: nat)
    requires Faithful(fl.fpu) && at <= depth && WriteArray(fl, a, depth).Ok?
    ensures ArrayLayout(a.elementType).Some?
    ensures ReadArray(fl, WriteArray(fl, a, depth).value, a.elementType, at).Ok?
    ensures Arr(ReadArray(fl, WriteArray(fl, a, depth).value, a.elementType, at).value) == Norm(Arr(a))
    decreases Fuel(depth), 7
  {
    if a.Array? {
      var l := ArrayLayout(a.elementType).value;
      var b := WriteElements(fl, a.elementType, a.values, depth).value;
      ElementsRoundTrip(fl, a.elementType, a.values, depth, at);
      BuiltArrayReads(fl, l, a.elementType, a.bounds, NormAll(a.elementType, a.values), b, at);
    }
  }

  lemma ArrayVariantRoundTrip(fl: Floats, a: Array, sa: Option<SafeArray>, depth: nat, at: nat)
    requires Faithful(fl.fpu) && at <= depth <= MAX_DEPTH && WriteArray(fl, a, depth + 1) == Ok(sa)
    ensures ScalarValueDepth(fl, Some(Variant(VT_ARRAY | a.elementType, Some(PArray(sa)))), at) == Ok(Norm(Arr(a)))
    decreases Fuel(depth), 3
  {
    ArrayRoundTrip(fl, a, depth + 1, at + 1);
    ArrayVariantReads(fl, a.elementType, sa, at, Norm(Arr(a)));
  }

  lemma ArrayIsWritten(fl: Floats, a: Array, depth: nat)
    requires depth <= MAX_DEPTH && WriteExtendedValue(fl, Arr(a), depth).Ok?
    ensures WriteArray(fl, a, depth + 1).Ok?
    ensures WriteExtendedValue(fl, Arr(a), depth) ==
              Plain(VT_ARRAY | a.elementType, PArray(WriteArray(fl, a, depth + 1).value))
  {}

  lemma ArrayVariantReads(fl: Floats, et: VarType, sa: Option<SafeArray>, at: nat, v: Value)
    requires at <= MAX_DEPTH && ArrayLayout(et).Some?
    requires ReadArray(fl, sa, et, at + 1).Ok? && Arr(ReadArray(fl, sa, et, at + 1).value) == v
    ensures ScalarValueDepth(fl, Some(Variant(VT_ARRAY | et, Some(PArray(sa)))), at) == Ok(v)
  {
    ArrayFlags(et);
  }

  lemma ExtendedIsWritten(fl: Floats, v: Value, depth: nat)
    requires (v.Arr? || v.Var?) && WriteVariantDepth(fl, v, depth).Ok?
    ensures depth <= MAX_DEPTH && WriteVariantDepth(fl, v, depth) == WriteExtendedValue(fl, v, depth)
  {}

  lemma ScalarRoundTrip(fl: Floats, v: Value, depth: nat, at: nat)
    requires Faithful(fl.fpu) && Simple(v) && at <= depth && WriteVariantDepth(fl, v, depth).Ok?
    ensures ScalarValueDepth(fl, Some(WriteVariantDepth(fl, v, depth).value), at) == Ok(Norm(v))
  {
    SimpleRoundTrip(fl, v, depth);
  }

  /** A value accepted at one depth reads back, at that depth or any smaller one, as its normal
      form: the nesting limits of the two sides never reject what was written. */
  lemma VariantRoundTrip(fl: Floats, v: Value, depth: nat, at: nat)
    requires Faithful(fl.fpu) && at <= depth && WriteVariantDepth(fl, v, depth).Ok?
    ensures WriteVariantDepth(fl, v, depth).value.vt == TypeOf(v)
    ensures ScalarValueDepth(fl, Some(WriteVariantDepth(fl, v, depth).value), at) == Ok(Norm(v))
    decreases Fuel(depth), 4
  {
    WrittenType(fl, v, depth);
    if Simple(v) {
      ScalarRoundTrip(fl, v, depth, at);
    } else {
      ExtendedIsWritten(fl, v, depth);
      if v.Arr? {
        ArrayIsWritten(fl, v.a, depth);
        ArrayVariantRoundTrip(fl, v.a, WriteArray(fl, v.a, depth + 1).value, depth, at);
      } else {
        TypedRoundTrip(fl, v.vt, v.v, depth, at);
      }
    }
  }

  lemma TypedRoundTrip(fl: Floats, vt: VarType, x: Value, depth: nat, at: nat)
    requires Faithful(fl.fpu) && at <= depth <= MAX_DEPTH && WriteExtendedValue(fl, Var(vt, x), depth).Ok?
    ensures ScalarValueDepth(fl, Some(WriteExtendedValue(fl, Var(vt, x), depth).value), at) == Ok(Norm(Var(vt, x)))
    decreases Fuel(depth), 3
  {
    if HasFlag(vt, VT_BYREF) {
      ByRefRoundTrip(fl, vt, x, WriteByRef(fl, vt, x, depth).value, depth, at);
    } else if vt != VT_EMPTY && vt != VT_NULL && vt != VT_INT && vt != VT_UINT {
      VariantRoundTrip(fl, x, depth + 1, at);
    }
  }

  lemma ByRefVariantIsWritten(fl: Floats, vt: VarType, x: Value, w: Variant, depth: nat) returns (inner: Variant)
    requires depth <= MAX_DEPTH && Without(vt, VT_BYREF) == VT_VARIANT && WriteByRef(fl, vt, x, depth) == Ok(w)
    ensures WriteVariantDepth(fl, x, depth + 1) == Ok(inner) && w == Variant(vt, Some(PVariant(Some(inner))))
  {
    inner := WriteVariantDepth(fl, x, depth + 1).value;
  }

  lemma ByRefScalarIsWritten(fl: Floats, vt: VarType, x: Value, w: Variant, depth: nat) returns (inner: Variant)
    requires depth <= MAX_DEPTH && Without(vt, VT_BYREF) != VT_VARIANT && WriteByRef(fl, vt, x, depth) == Ok(w)
    ensures Without(vt, VT_BYREF) != VT_EMPTY && Without(vt, VT_BYREF) != VT_NULL
    ensures WriteVariantDepth(fl, Var(Without(vt, VT_BYREF), x), depth + 1) == Ok(inner) && w == inner.(vt := vt)
  {
    inner := WriteVariantDepth(fl, Var(Without(vt, VT_BYREF), x), depth + 1).value;
  }

  lemma ByRefVariantReads(fl: Floats, vt: VarType, w: Variant, x: Value, at: nat)
    requires at <= MAX_DEPTH && HasFlag(vt, VT_BYREF) && Without(vt, VT_BYREF) == VT_VARIANT
    requires ScalarValueDepth(fl, Some(w), at + 1) == Ok(x)
    ensures ScalarValueDepth(fl, Some(Variant(vt, Some(PVariant(Some(w))))), at) == Ok(Var(vt, Retag(w.vt, x)))
  {}

  lemma ByRefScalarReads(fl: Floats, vt: VarType, w: Variant, x: Value, at: nat)
    requires at <= MAX_DEPTH && HasFlag(vt, VT_BYREF) && Without(vt, VT_BYREF) != VT_VARIANT
    requires w.vt == Without(vt, VT_BYREF) && ScalarValueDepth(fl, Some(w), at + 1) == Ok(x)
    ensures ScalarValueDepth(fl, Some(w.(vt := vt)), at) == Ok(Var(vt, x))
  {
    assert w.(vt := vt).(vt := Without(vt, VT_BYREF)) == w;
  }

  /** Without BYREF a tag that is not null disappears in the normal form. */
  lemma NormDropsTag(vt: VarType, x: Value)
    requires HasFlag(vt, VT_BYREF) && Without(vt, VT_BYREF) != VT_EMPTY && Without(vt, VT_BYREF) != VT_NULL
    ensures Norm(Var(Without(vt, VT_BYREF), x)) == Norm(x)
  {
    assert !HasFlag(Without(vt, VT_BYREF), VT_BYREF);
  }

  lemma ByRefVariantRoundTrip(fl: Floats, vt: VarType, x: Value, w: Variant, depth: nat, at: nat)
    requires Faithful(fl.fpu) && at <= depth <= MAX_DEPTH && HasFlag(vt, VT_BYREF)
    requires WriteByRef(fl, vt, x, depth) == Ok(w)
    requires Without(vt, VT_BYREF) == VT_VARIANT
    ensures ScalarValueDepth(fl, Some(w), at) == Ok(Var(vt, Tagged(x)))
    decreases Fuel(depth), 1
  {
    var inner := ByRefVariantIsWritten(fl, vt, x, w, depth);
    VariantRoundTrip(fl, x, depth + 1, at + 1);
    ByRefVariantReads(fl, vt, inner, Norm(x), at);
  }

  lemma ByRefScalarRoundTrip(fl: Floats, vt: VarType, base: VarType, x: Value, w: Variant, depth: nat, at: nat)
    requires Faithful(fl.fpu) && at <= depth <= MAX_DEPTH && HasFlag(vt, VT_BYREF)
    requires base == Without(vt, VT_BYREF) && base != VT_VARIANT && Norm(Var(base, x)) == Norm(x)
    requires WriteVariantDepth(fl, Var(base, x), depth + 1) == Ok(w)
    ensures ScalarValueDepth(fl, Some(w.(vt := vt)), at) == Ok(Var(vt, Norm(x)))
    decreases Fuel(depth), 1
  {
    VariantRoundTrip(fl, Var(base, x), depth + 1, at + 1);
    ByRefScalarReads(fl, vt, w, Norm(x), at);
  }

  lemma ByRefRoundTrip(fl: Floats, vt: VarType, x: Value, w: Variant, depth: nat, at: nat)
    requires Faithful(fl.fpu) && at <= depth <= MAX_DEPTH && HasFlag(vt, VT_BYREF)
    requires WriteByRef(fl, vt, x, depth) == Ok(w)
    ensures ScalarValueDepth(fl, Some(w), at) == Ok(Norm(Var(vt, x)))
    decreases Fuel(depth), 2
  {
    if Without(vt, VT_BYREF) == VT_VARIANT {
      ByRefVariantRoundTrip(fl, vt, x, w, depth, at);
    } else {
      var inner := ByRefScalarIsWritten(fl, vt, x, w, depth);
      NormDropsTag(vt, x);
      ByRefScalarRoundTrip(fl, vt, Without(vt, VT_BYREF), x, inner, depth, at);
    }
  }

  /** Reading back what was written gives the normal form of the value. */
  lemma WrittenValueReadsBack(fl: Floats, v: Value)
    requires Faithful(fl.fpu) && WriteVariant(fl, v).Ok?
    ensures ScalarValue(fl, Some(WriteVariant(fl, v).value)) == Ok(Norm(v))
  {
    VariantRoundTrip(fl, v, 0, 0);
  }
}
