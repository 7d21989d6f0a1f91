/** The records that values are written as and read from, field by field, with the type numbers of
    sections 2.2.7 and 2.2.30 of MS-OAUT. */
module Records {
  import opened Wrappers
  import opened Words
  import opened Dates
  import opened Automation
  import opened Encode
  import opened Decode
  import opened RoundTrip
  import opened Acceptance

  /** Two integers with the same low bits. */
  predicate Same8(a: int, b: int) { (a - b) % 0x100 == 0 }
  predicate Same16(a: int, b: int) { (a - b) % 0x1_0000 == 0 }
  predicate Same32(a: int, b: int) { (a - b) % 0x1_0000_0000 == 0 }
  predicate Same64(a: int, b: int) { (a - b) % 0x1_0000_0000_0000_0000 == 0 }

  /** The type number and payload that a VARIANT holding v must have. */
  predicate Holds(fl: Floats, v: Value, vt: VarType, p: Payload) {
    match v
    case Bool(b) => vt == 0x000b && p.PI16? && p.i16 == if b then -1 else 0
    case Int8(x) => vt == 0x0010 && p.PU8? && Same8(p.u8 as int, x as int)
    case Uint8(x) => vt == 0x0011 && p.PU8? && p.u8 == x
    case Int16(x) => vt == 0x0002 && p.PI16? && p.i16 == x
    case Uint16(x) => vt == 0x0012 && p.PU16? && p.u16 == x
    case Int32(x) => vt == 0x0003 && p.PI32? && p.i32 == x
    case Uint32(x) => vt == 0x0013 && p.PU32? && p.u32 == x
    case Int64(x) => vt == 0x0014 && p.PI64? && p.i64 == x
    case Uint64(x) => vt == 0x0015 && p.PU64? && p.u64 == x
    case Single(f) => vt == 0x0004 && p.PF32? && p.f32 == f
    case Double(f) => vt == 0x0005 && p.PF64? && p.f64 == f
    case Str(s) => vt == 0x0008 && p.PString? && p.s.Some? && p.s.value == s
    case Currency(n) => vt == 0x0006 && p.PCurrency? && p.c.Some? && p.c.value == n
    case Dec(d) =>
      && vt == 0x000e && p.PDecimal? && p.d.Some?
      && p.d.value.hi == d.hi && p.d.value.lo == d.lo && p.d.value.scale == d.scale
      && p.d.value.sign == if d.negative then 0x80 else 0x00
    case ErrorCode(x) => vt == 0x000a && p.PI32? && Same32(p.i32 as int, x as int)
    case Time(ns) => vt == 0x0007 && p.PF64? && DateAutomation(fl.fpu, ns) == Date(p.f64)
    case _ => false
  }

  lemma ScalarRecord(fl: Floats, v: Value, depth: nat)
    requires depth <= 32 && !v.Arr? && !v.Var? && AcceptableScalar(fl, v)
    ensures var w := WriteVariantDepth(fl, v, depth);
            w.Ok? && w.value.union.Some? && Holds(fl, v, w.value.vt, w.value.union.value)
  {
    ScalarAccepts(fl, v, depth);
    if Converted(v) {
      ConvertedRecord(fl, v, depth);
    }
  }

  lemma ConvertedRecord(fl: Floats, v: Value, depth: nat)
    requires depth <= 32 && Converted(v) && WriteVariantDepth(fl, v, depth).Ok?
    ensures var w := WriteVariantDepth(fl, v, depth);
            w.value.union.Some? && Holds(fl, v, w.value.vt, w.value.union.value)
  {
    ExtendedAsIs(fl, v, depth);
  }

  /** A tagged value: null, the two machine integers, and otherwise the record of the value itself;
      BYREF VARIANT adds one record around it, any other BYREF only changes the type. */
  lemma TypedRecord(fl: Floats, vt: VarType, x: Value, depth: nat)
    requires WriteVariantDepth(fl, Var(vt, x), depth).Ok?
    ensures var w := WriteVariantDepth(fl, Var(vt, x), depth).value;
            if vt & 0x4000 != 0 then
              var inner := WriteVariantDepth(fl, if vt == 0x400c then x else Var(vt & 0xbfff, x), depth + 1);
              && inner.Ok?
              && w.vt == vt
              && w.union == if vt == 0x400c then Some(PVariant(Some(inner.value))) else inner.value.union
            else if vt == 0x0000 || vt == 0x0001 then w == Variant(vt, Some(PNone))
            else if vt == 0x0016 then x.Int32? && w == Variant(0x0016, Some(PI32(x.i32)))
            else if vt == 0x0017 then x.Uint32? && w == Variant(0x0017, Some(PU32(x.u32)))
            else WriteVariantDepth(fl, x, depth + 1) == Ok(w) && w.vt == vt
  {
    Flags(vt);
    TypedIsChecked(fl, vt, x, depth);
  }

  // ---- arrays ----

  /** The element types with the tag of the buffer, the cell width and the feature bits. */
  lemma LayoutTable(et: VarType)
    ensures et in {0x0010, 0x0011} ==> ArrayLayout(et) == Some(Layout(TagI1, 1, 0x0080))
    ensures et in {0x0002, 0x000b, 0x0012} ==> ArrayLayout(et) == Some(Layout(TagI2, 2, 0x0080))
    ensures et in {0x0003, 0x0004, 0x000a, 0x0013, 0x0016, 0x0017} ==> ArrayLayout(et) == Some(Layout(TagI4, 4, 0x0080))
    ensures et in {0x0005, 0x0006, 0x0007, 0x0014, 0x0015} ==> ArrayLayout(et) == Some(Layout(TagI8, 8, 0x0080))
    ensures et == 0x0008 ==> ArrayLayout(et) == Some(Layout(TagString, 4, 0x0180))
    ensures et == 0x000c ==> ArrayLayout(et) == Some(Layout(TagVariant, 16, 0x0880))
    ensures !ElementType(et) ==> ArrayLayout(et) == None
  {}

  /** Cell i of a buffer holds element x of an array of type et. */
  predicate CellHolds(fl: Floats, et: VarType, c: Cells, i: nat, x: Value, depth: nat)
    requires i < CellCount(c)
  {
    match c
    case BytesOf(_, s) =>
      if et == 0x0010 then x.Int8? && Same8(s[i] as int, x.i8 as int) else x.Uint8? && s[i] == x.u8
    case WordsOf(_, s) =>
      if et == 0x0002 then x.Int16? && Same16(s[i] as int, x.i16 as int)
      else if et == 0x000b then x.Bool? && s[i] == if x.b then 0xffff else 0x0000
      else x.Uint16? && s[i] == x.u16
    case LongsOf(_, s) =>
      if et == 0x0003 || et == 0x0016 then x.Int32? && Same32(s[i] as int, x.i32 as int)
      else if et == 0x0004 then x.Single? && s[i] == x.f32.bits
      else if et == 0x000a then x.ErrorCode? && s[i] == x.code
      else x.Uint32? && s[i] == x.u32
    case HypersOf(_, s) =>
      if et == 0x0005 then x.Double? && Same64(s[i] as int, x.f64.bits as int)
      else if et == 0x0006 then x.Currency? && s[i] == x.units
      else if et == 0x0007 then
        && x.Time? && DateAutomation(fl.fpu, x.ns).Date?
        && Same64(s[i] as int, DateAutomation(fl.fpu, x.ns).value.bits as int)
      else if et == 0x0015 then x.Uint64? && Same64(s[i] as int, x.u64 as int)
      else x.Int64? && s[i] == x.i64
    case StringsOf(_, s) => x.Str? && s[i] == Some(x.text)
    case VariantsOf(_, s) => s[i].Some? && WriteVariantDepth(fl, x, depth) == Ok(s[i].value)
  }

  /** Buffer r is buffer b with one more cell, which holds x. */
  ghost predicate Gains(fl: Floats, et: VarType, b: Buffers, r: Buffers, x: Value, depth: nat)
    requires ArrayLayout(et).Some?
  {
    var tag := ArrayLayout(et).value.tag;
    var n, was, now := Filled(tag, b), CellsOf(tag, 0, b), CellsOf(tag, 0, r);
    && Filled(tag, r) == n + 1
    && (forall i, y :: 0 <= i < n && CellHolds(fl, et, was, i, y, depth) ==> CellHolds(fl, et, now, i, y, depth))
    && CellHolds(fl, et, now, n, x, depth)
  }

  lemma SmallAppends(fl: Floats, et: VarType, x: Value, w: Variant, b: Buffers, depth: nat)
    requires ArrayLayout(et).Some? && ArrayLayout(et).value.tag in {TagI1, TagI2}
    requires w.union.Some? && Holds(fl, x, et, w.union.value)
    ensures AppendElement(b, et, w).Ok? && Gains(fl, et, b, AppendElement(b, et, w).value, x, depth)
  {}

  lemma LongAppends(fl: Floats, et: VarType, x: Value, w: Variant, b: Buffers, depth: nat)
    requires ArrayLayout(et).Some? && ArrayLayout(et).value.tag == TagI4 && et != VT_INT && et != VT_UINT
    requires w.union.Some? && Holds(fl, x, et, w.union.value)
    ensures AppendElement(b, et, w).Ok? && Gains(fl, et, b, AppendElement(b, et, w).value, x, depth)
  {}

  lemma MachineIntegerAppends(fl: Floats, et: VarType, x: Value, w: Variant, b: Buffers, depth: nat)
    requires || (et == VT_INT && x.Int32? && w.union == Some(PI32(x.i32)))
             || (et == VT_UINT && x.Uint32? && w.union == Some(PU32(x.u32)))
    ensures AppendElement(b, et, w).Ok? && Gains(fl, et, b, AppendElement(b, et, w).value, x, depth)
  {}

  lemma HyperAppends(fl: Floats, et: VarType, x: Value, w: Variant, b: Buffers, depth: nat)
    requires ArrayLayout(et).Some? && ArrayLayout(et).value.tag == TagI8
    requires w.union.Some? && Holds(fl, x, et, w.union.value)
    ensures AppendElement(b, et, w).Ok? && Gains(fl, et, b, AppendElement(b, et, w).value, x, depth)
  {}

  lemma StringAppends(fl: Floats, x: Value, w: Variant, b: Buffers, depth: nat)
    requires w.union.Some? && Holds(fl, x, VT_BSTR, w.union.value)
    ensures AppendElement(b, VT_BSTR, w).Ok? && Gains(fl, VT_BSTR, b, AppendElement(b, VT_BSTR, w).value, x, depth)
  {}

  lemma VariantAppends(fl: Floats, x: Value, w: Variant, b: Buffers, depth: nat)
    requires WriteVariantDepth(fl, x, depth) == Ok(w)
    ensures AppendElement(b, VT_VARIANT, w).Ok?
    ensures Gains(fl, VT_VARIANT, b, AppendElement(b, VT_VARIANT, w).value, x, depth)
  {}

  lemma ScalarAppends(fl: Floats, et: VarType, x: Value, w: Variant, b: Buffers, depth: nat)
    requires TypedElement(et) && et != VT_INT && et != VT_UINT
    requires w.union.Some? && Holds(fl, x, et, w.union.value)
    ensures AppendElement(b, et, w).Ok? && Gains(fl, et, b, AppendElement(b, et, w).value, x, depth)
  {
    match ArrayLayout(et).value.tag
    case TagI1 => SmallAppends(fl, et, x, w, b, depth);
    case TagI2 => SmallAppends(fl, et, x, w, b, depth);
    case TagI4 => LongAppends(fl, et, x, w, b, depth);
    case TagI8 => HyperAppends(fl, et, x, w, b, depth);
    case _ => StringAppends(fl, x, w, b, depth);
  }

  lemma TypedElementRecord(fl: Floats, et: VarType, x: Value, depth: nat)
    requires TypedElement(et) && et != VT_INT && et != VT_UINT && WriteElement(fl, et, x, depth).Ok?
    ensures var w := WriteElement(fl, et, x, depth).value;
            w.union.Some? && Holds(fl, x, et, w.union.value)
  {
    TypedElementIsSimple(fl, et, x, depth);
    ScalarAccepts(fl, x, depth + 1);
    ScalarRecord(fl, x, depth + 1);
    WrittenType(fl, x, depth + 1);
  }

  lemma ElementCell(fl: Floats, et: VarType, x: Value, b: Buffers, depth: nat)
    requires ArrayLayout(et).Some? && WriteElement(fl, et, x, depth).Ok?
    ensures var r := AppendElement(b, et, WriteElement(fl, et, x, depth).value);
            r.Ok? && Gains(fl, et, b, r.value, x, depth)
  {
    var w := WriteElement(fl, et, x, depth).value;
    if et == VT_VARIANT {
      VariantAppends(fl, x, w, b, depth);
    } else if et == VT_INT || et == VT_UINT {
      TypedElementIsSimple(fl, et, x, depth);
      MachineIntegerAppends(fl, et, x, w, b, depth);
    } else {
      TypedElementRecord(fl, et, x, depth);
      ScalarAppends(fl, et, x, w, b, depth);
    }
  }

  ghost predicate AllHeld(fl: Floats, et: VarType, c: Cells, xs: seq<Value>, depth: nat) {
    CellCount(c) == |xs| && forall i :: 0 <= i < |xs| ==> CellHolds(fl, et, c, i, xs[i], depth)
  }

  lemma HeldGrows(fl: Floats, et: VarType, b: Buffers, r: Buffers, xs: seq<Value>, x: Value, depth: nat)
    requires ArrayLayout(et).Some? && Gains(fl, et, b, r, x, depth)
    requires AllHeld(fl, et, CellsOf(ArrayLayout(et).value.tag, 0, b), xs, depth)
    ensures AllHeld(fl, et, CellsOf(ArrayLayout(et).value.tag, 0, r), xs + [x], depth)
  {}

  lemma {:induction false} ElementCells(fl: Floats, et: VarType, xs: seq<Value>, depth: nat)
    requires ArrayLayout(et).Some? && WriteElements(fl, et, xs, depth).Ok?
    ensures AllHeld(fl, et, CellsOf(ArrayLayout(et).value.tag, 0, WriteElements(fl, et, xs, depth).value), xs, depth)
    decreases |xs|
  {
    if xs != [] {
      var front, last := xs[..|xs| - 1], xs[|xs| - 1];
      ElementCells(fl, et, front, depth);
      var b := WriteElements(fl, et, front, depth).value;
      ElementCell(fl, et, last, b, depth);
      HeldGrows(fl, et, b, WriteElements(fl, et, xs, depth).value, front, last, depth);
      assert xs == front + [last];
    }
  }

  /** The written SAFEARRAY: one descriptor bound for each dimension, the type in the lock word, the
      features and cell width of its type, and the elements in order. */
  ghost predicate Describes(fl: Floats, a: Array, sa: SafeArray, depth: nat)
    requires a.Array?
  {
    && sa.dims == |a.bounds| == |sa.bounds| && sa.lockedType == a.elementType
    && (forall i :: 0 <= i < |a.bounds| ==> sa.bounds[i] == Some(a.bounds[i]))
    && ArrayLayout(a.elementType) == Some(Layout(sa.tag, sa.width, sa.features))
    && CellSize(sa.cells) == |a.values|
    && AllHeld(fl, a.elementType, sa.cells, a.values, depth)
  }

  lemma BuildDescribes(fl: Floats, a: Array, l: Layout, b: Buffers, depth: nat)
    requires a.Array? && ArrayLayout(a.elementType) == Some(l) && |a.values| <= MAX_ELEMENTS
    requires AllHeld(fl, a.elementType, CellsOf(l.tag, 0, b), a.values, depth)
    ensures Describes(fl, a, Build(l, a.elementType, a.bounds, |a.values|, b), depth)
  {
    var c, d := CellsOf(l.tag, 0, b), CellsOf(l.tag, |a.values| as uint32, b);
    forall i | 0 <= i < |a.values|
      ensures CellHolds(fl, a.elementType, d, i, a.values[i], depth)
    {
      assert CellHolds(fl, a.elementType, c, i, a.values[i], depth);
    }
  }

  lemma ArrayRecord(fl: Floats, a: Array, depth: nat)
    requires WriteVariantDepth(fl, Arr(a), depth).Ok?
    ensures var w := WriteVariantDepth(fl, Arr(a), depth).value;
            && w.vt == 0x2000 | a.elementType && w.union.Some? && w.union.value.PArray?
            && (a.NullArray? <==> w.union.value.a.None?)
            && (a.Array? ==> Describes(fl, a, w.union.value.a.value, depth + 1))
  {
    ArrayIsWrapped(fl, a, depth);
    if a.Array? {
      var l := ArrayLayout(a.elementType).value;
      var b := WriteElements(fl, a.elementType, a.values, depth + 1).value;
      ElementCells(fl, a.elementType, a.values, depth + 1);
      BuildDescribes(fl, a, l, b, depth + 1);
    }
  }

  // ---- reading ----

  /** Reading a scalar record.  The plain numbers are returned as the payload is, whatever number
      type it has; the other types need their own payload. */
  lemma ScalarReads(fl: Floats, vt: VarType, p: Payload)
    ensures vt in {0x0000, 0x0001} ==> ReadScalar(fl, vt, p) == Ok(Nil)
    ensures vt in {0x0002, 0x0003, 0x0004, 0x0005, 0x0011, 0x0012, 0x0013, 0x0014, 0x0015, 0x0016, 0x0017} ==>
              ReadScalar(fl, vt, p).Ok? && PlainlyReads(p, ReadScalar(fl, vt, p).value)
    ensures vt in {0x0006, 0x000a, 0x000e, 0x0010} ==>
              && (ReadScalar(fl, vt, p).Ok? <==> ConvertiblePayload(vt, p))
              && (ReadScalar(fl, vt, p).Ok? ==> Holds(fl, ReadScalar(fl, vt, p).value, vt, p))
    ensures vt == 0x0007 ==>
              && (ReadScalar(fl, vt, p).Ok? <==> p.PF64? && AutomationDate(fl.fpu, p.f64).Date?)
              && (ReadScalar(fl, vt, p).Ok? ==>
                    && ReadScalar(fl, vt, p).value.Time?
                    && AutomationDate(fl.fpu, p.f64) == Date(ReadScalar(fl, vt, p).value.ns))
    ensures vt == 0x0008 ==>
              ReadScalar(fl, vt, p) ==
                if p.PString? then Ok(Str(match p.s case Some(t) => t case None => [])) else Err(Malformed)
    ensures vt == 0x000b ==> ReadScalar(fl, vt, p) == if p.PI16? then Ok(Bool(p.i16 != 0)) else Err(Malformed)
    ensures vt !in {0x0000, 0x0001, 0x000e} && (vt == 0x000c || !ElementType(vt)) ==>
              ReadScalar(fl, vt, p) == Err(Unsupported)
  {}

  predicate PlainlyReads(p: Payload, x: Value) {
    match p
    case PU8(n) => x == Uint8(n)
    case PI16(n) => x == Int16(n)
    case PU16(n) => x == Uint16(n)
    case PI32(n) => x == Int32(n)
    case PU32(n) => x == Uint32(n)
    case PI64(n) => x == Int64(n)
    case PU64(n) => x == Uint64(n)
    case PF32(f) => x == Single(f)
    case PF64(f) => x == Double(f)
    case PNone => x == Nil
    case _ => x == Foreign
  }

  predicate ConvertiblePayload(vt: VarType, p: Payload) {
    match p
    case PU8(_) => vt == 0x0010
    case PI32(_) => vt == 0x000a
    case PCurrency(Some(_)) => vt == 0x0006
    case PDecimal(Some(d)) => vt == 0x000e && d.scale <= 28 && d.sign in {0x00, 0x80}
    case _ => false
  }

  /** A record is refused when it is missing or too deep. */
  lemma RefusedRecords(fl: Floats, v: Option<Variant>, depth: nat)
    ensures depth > 32 || v.None? || v.value.union.None? ==> ScalarValueDepth(fl, v, depth).Err?
  {}

  /** BYREF adds the tag to what the record means without it; a BYREF VARIANT is the record inside,
      with the type of that record. */
  lemma ByRefReads(fl: Floats, vt: VarType, p: Payload, depth: nat)
    requires depth <= 32 && vt & 0x4000 != 0
    ensures var r := ScalarValueDepth(fl, Some(Variant(vt, Some(p))), depth);
            if vt != 0x400c then
              var inner := ScalarValueDepth(fl, Some(Variant(vt & 0xbfff, Some(p))), depth + 1);
              if inner.Err? then r.Err? else r == Ok(Var(vt, inner.value))
            else if p.PVariant? && p.v.Some? then
              var inner := ScalarValueDepth(fl, p.v, depth + 1);
              if inner.Err? then r.Err?
              else r == Ok(Var(vt, if p.v.value.vt & 0x4000 != 0 then inner.value else Var(p.v.value.vt, inner.value)))
            else r.Err?
  {
    Flags(vt);
    var w := Variant(vt, Some(p));
    assert w.(vt := vt & 0xbfff) == Variant(vt & 0xbfff, Some(p));
    if vt == 0x400c && p.PVariant? && p.v.Some? {
      Flags(p.v.value.vt);
    }
  }

  lemma PlainReads(fl: Floats, vt: VarType, p: Payload, depth: nat)
    requires depth <= 32 && vt & 0x4000 == 0
    ensures var r := ScalarValueDepth(fl, Some(Variant(vt, Some(p))), depth);
            if vt & 0x2000 == 0 then r == ReadScalar(fl, vt, p)
            else if p.PArray? then
              var inner := ReadArray(fl, p.a, vt & 0xdfff, depth + 1);
              if inner.Err? then r.Err? else r == Ok(Arr(inner.value))
            else r.Err?
  {
    Flags(vt);
    assert HasFlag(vt, VT_ARRAY) <==> vt & 0x2000 != 0;
    assert Without(vt, VT_ARRAY) == vt & 0xdfff;
  }

  /** The descriptor of an array of type et, with a buffer as long as its bounds say. */
  ghost predicate GoodArray(sa: SafeArray, et: VarType, bounds: seq<Bound>) {
    && ArrayLayout(et).Some? && sa.tag == ArrayLayout(et).value.tag && sa.width == ArrayLayout(et).value.width
    && sa.dims == |sa.bounds| == |bounds| && (forall i :: 0 <= i < |bounds| ==> sa.bounds[i] == Some(bounds[i]))
    && (sa.features & 0x0080 != 0 ==> sa.lockedType == et)
    && sa.features & 0x0f00 == (if et == 0x0008 then 0x0100 else if et == 0x000c then 0x0800 else 0)
    && 1 <= |bounds| <= 32 && BoundsFit(bounds)
    && !sa.cells.NoCells? && Product(bounds) == CellSize(sa.cells) == CellCount(sa.cells)
  }

  ghost predicate AllPresent(bounds: seq<Option<Bound>>, all: seq<Bound>) {
    |all| == |bounds| && forall i :: 0 <= i < |bounds| ==> bounds[i] == Some(all[i])
  }

  lemma {:induction false} BoundsPresent(bounds: seq<Option<Bound>>)
    ensures AllBounds(bounds).Some? ==> AllPresent(bounds, AllBounds(bounds).value)
    ensures AllBounds(bounds).None? ==> exists i :: 0 <= i < |bounds| && bounds[i].None?
  {
    if bounds != [] {
      var front, last := bounds[..|bounds| - 1], bounds[|bounds| - 1];
      BoundsPresent(front);
      if AllBounds(front).None? {
        var i :| 0 <= i < |front| && front[i].None?;
        assert bounds[i].None?;
      } else if last.None? {
        assert bounds[|bounds| - 1].None?;
      }
    }
  }

  /** The cells below n can be read, and their values are xs. */
  ghost predicate AllRead(fl: Floats, c: Cells, vt: VarType, n: nat, depth: nat, xs: seq<Value>) {
    n <= CellCount(c) && |xs| == n && forall i :: 0 <= i < n ==> ReadCell(fl, c, vt, i, depth) == Ok(xs[i])
  }

  lemma {:induction false} CellsRead(fl: Floats, c: Cells, vt: VarType, n: nat, depth: nat)
    requires n <= CellCount(c)
    ensures var r := ReadCells(fl, c, vt, n, depth);
            if r.Ok? then AllRead(fl, c, vt, n, depth, r.value)
            else exists i :: 0 <= i < n && ReadCell(fl, c, vt, i, depth).Err?
  {
    if n > 0 {
      CellsRead(fl, c, vt, n - 1, depth);
      if ReadCells(fl, c, vt, n - 1, depth).Err? {
        var i :| 0 <= i < n - 1 && ReadCell(fl, c, vt, i, depth).Err?;
        assert 0 <= i < n && ReadCell(fl, c, vt, i, depth).Err?;
      } else if ReadCell(fl, c, vt, n - 1, depth).Err? {
        assert 0 <= n - 1 < n && ReadCell(fl, c, vt, n - 1, depth).Err?;
      }
    }
  }

  /** Only the bounds of the record fit its descriptor. */
  lemma GoodBounds(sa: SafeArray, et: VarType, bounds: seq<Bound>)
    requires GoodArray(sa, et, bounds)
    ensures AllBounds(sa.bounds) == Some(bounds) && ArrayCount(bounds) == Ok(CellCount(sa.cells))
    ensures HeaderOk(sa, et, ArrayLayout(et).value)
  {
    BoundsPresent(sa.bounds);
    if AllBounds(sa.bounds).Some? {
      assert AllBounds(sa.bounds).value == bounds;
    }
    LayoutElements(et);
    LayoutTable(et);
    CountPrefixIsProduct(bounds);
  }

  lemma ReadIsGood(fl: Floats, sa: SafeArray, et: VarType, depth: nat)
    requires ReadArray(fl, Some(sa), et, depth).Ok?
    ensures var a := ReadArray(fl, Some(sa), et, depth).value;
            && a.Array? && a.elementType == et && GoodArray(sa, et, a.bounds)
            && ReadCells(fl, sa.cells, et, CellCount(sa.cells), depth) == Ok(a.values)
  {
    var a := ReadArray(fl, Some(sa), et, depth).value;
    BoundsPresent(sa.bounds);
    LayoutElements(et);
    LayoutTable(et);
    CountPrefixIsProduct(a.bounds);
  }

  /** Exactly the arrays with a good descriptor and readable elements are read, and the result has
      the bounds and the elements of the record. */
  lemma ArrayReads(fl: Floats, sa: SafeArray, et: VarType, depth: nat)
    ensures ReadArray(fl, Some(sa), et, depth).Ok? <==>
              && (exists bounds :: GoodArray(sa, et, bounds))
              && forall i :: 0 <= i < CellCount(sa.cells) ==> ReadCell(fl, sa.cells, et, i, depth).Ok?
    ensures ReadArray(fl, Some(sa), et, depth).Ok? ==>
              var a := ReadArray(fl, Some(sa), et, depth).value;
              && a.Array? && a.elementType == et && GoodArray(sa, et, a.bounds) && |a.values| == CellCount(sa.cells)
              && forall i :: 0 <= i < |a.values| ==> ReadCell(fl, sa.cells, et, i, depth) == Ok(a.values[i])
  {
    CellsRead(fl, sa.cells, et, CellCount(sa.cells), depth);
    if ReadArray(fl, Some(sa), et, depth).Ok? {
      ReadIsGood(fl, sa, et, depth);
    } else if exists bounds :: GoodArray(sa, et, bounds) {
      var bounds :| GoodArray(sa, et, bounds);
      GoodBounds(sa, et, bounds);
    }
  }

  lemma NullArrayReads(fl: Floats, et: VarType, depth: nat)
    ensures ReadArray(fl, None, et, depth) == if ElementType(et) then Ok(NullArray(et)) else Err(BadElementType)
  {
    LayoutElements(et);
  }

  /** Reading a cell of a buffer of the right kind: any bits are accepted, and a missing
      string is the empty one. */
  lemma CellReads(fl: Floats, et: VarType, c: Cells, i: nat, depth: nat)
    requires i < CellCount(c)
    ensures c.BytesOf? || c.LongsOf? || (c.WordsOf? && et != 0x000b) || (c.HypersOf? && et != 0x0007) ==>
              ReadCell(fl, c, et, i, depth).Ok? && CellHolds(fl, et, c, i, ReadCell(fl, c, et, i, depth).value, depth)
    ensures c.WordsOf? && et == 0x000b ==> ReadCell(fl, c, et, i, depth) == Ok(Bool(c.words[i] != 0))
    ensures c.StringsOf? ==>
              ReadCell(fl, c, et, i, depth) == Ok(Str(match c.strings[i] case Some(s) => s case None => []))
  {
    match c
    case BytesOf(_, s) => assert et == 0x0010 ==> Same8(s[i] as int, I8(s[i]) as int);
    case WordsOf(_, s) => assert et == 0x0002 ==> Same16(s[i] as int, I16(s[i]) as int);
    case LongsOf(_, s) => assert Same32(s[i] as int, I32(s[i]) as int);
    case HypersOf(_, s) => assert Same64(s[i] as int, U64(s[i]) as int);
    case _ =>
  }

  /** An element of a VARIANT array keeps its type. */
  lemma VariantCellReads(fl: Floats, c: Cells, i: nat, depth: nat)
    requires c.VariantsOf? && i < |c.variants|
    ensures var r := ReadCell(fl, c, 0x000c, i, depth);
            if c.variants[i].None? then r.Err?
            else
              var w, x := c.variants[i].value, ScalarValueDepth(fl, c.variants[i], depth);
              r == if x.Ok? && w.vt & 0x4000 == 0 then Ok(Var(w.vt, x.value)) else x
  {
    RefusedRecords(fl, None, depth);
  }

  lemma DateCellReads(fl: Floats, s: seq<int64>, size: uint32, i: nat, depth: nat)
    requires i < |s|
    ensures var r := ReadCell(fl, HypersOf(size, s), 0x0007, i, depth);
            exists f: Float64 ::
              && Same64(f.bits as int, s[i] as int)
              && (AutomationDate(fl.fpu, f).OutOfRange? ==> r.Err?)
              && (AutomationDate(fl.fpu, f).Date? ==> r == Ok(Time(AutomationDate(fl.fpu, f).value)))
  {
    assert Same64(Float64(U64(s[i])).bits as int, s[i] as int);
  }

  /** A time that is written reads back as the nearest whole millisecond. */
  lemma TimeReadsBack(fl: Floats, ns: int, depth: nat, at: nat)
    requires Faithful(fl.fpu) && at <= depth <= 32 && Dates.Writable(ns)
    ensures WriteVariantDepth(fl, Time(ns), depth).Ok?
    ensures var r := ScalarValueDepth(fl, Some(WriteVariantDepth(fl, Time(ns), depth).value), at);
            && r.Ok? && r.value.Time? && NearestMillisecond(ns, r.value.ns)
            && (ns % 1000000 == 0 ==> r.value == Time(ns))
    ensures Norm(Time(ns)).Time? && NearestMillisecond(ns, Norm(Time(ns)).ns)
  {
    ScalarAccepts(fl, Time(ns), depth);
    VariantRoundTrip(fl, Time(ns), depth, at);
    RoundMsIsNearest(ns);
  }
}
