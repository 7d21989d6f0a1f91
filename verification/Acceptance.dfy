/** Which values can be written, and the record each of them is written as. */
module Acceptance {
  import opened Wrappers
  import opened Words
  import opened Dates
  import opened Automation
  import opened Encode
  import opened RoundTrip

  /** The number of VARIANT records inside each other that a value needs. */
  function Levels(v: Value): nat
    decreases v, 0
  {
    match v
    case Arr(Array(et, _, xs)) => if et == 0x000c then 1 + MostLevels(xs) else 1
    case Var(vt, x) => if vt == 0x400c then 1 + Levels(x) else Levels(x)
    case _ => 1
  }

  function MostLevels(xs: seq<Value>): nat
    decreases xs
  {
    if xs == [] then 0
    else
      var most, last := MostLevels(xs[..|xs| - 1]), Levels(xs[|xs| - 1]);
      if last > most then last else most
  }

  /** The values without parts that can be written. */
  predicate AcceptableScalar(fl: Floats, v: Value) {
    match v
    case Single(f) => fl.finite32(f)
    case Double(f) => fl.fpu.finite(f)
    case Str(s) => ValidUtf8(s) && |s| <= 0x7fff_ffff
    case Dec(d) => d.scale <= 28
    case Time(ns) => Dates.Writable(ns)
    case Nil => false
    case Foreign => false
    case _ => true
  }

  /** The values that can be written when depth records already enclose them. */
  ghost predicate Acceptable(fl: Floats, v: Value, depth: nat)
    decreases Fuel(depth), 1
  {
    && depth <= 32
    && match v
       case Arr(a) => Levels(v) <= 32 && AcceptableArray(fl, a, depth + 1)
       case Var(vt, x) =>
         if vt & 0x4000 != 0 then
           && Levels(v) <= 32 && vt != 0x4000 && vt != 0x4001
           && (if vt == 0x400c then x.Var? && Acceptable(fl, x, depth + 1)
               else Acceptable(fl, Var(vt & 0xbfff, x), depth + 1))
         else if vt == 0x0000 || vt == 0x0001 then x.Nil?
         else if vt == 0x0016 then x.Int32?
         else if vt == 0x0017 then x.Uint32?
         else !x.Var? && TypeOf(x) == vt && Acceptable(fl, x, depth + 1)
       case _ => AcceptableScalar(fl, v)
  }

  /** The types an array can have: all scalars but DECIMAL and null, and VARIANT. */
  predicate ElementType(et: VarType) {
    et in {0x0002, 0x0003, 0x0004, 0x0005, 0x0006, 0x0007, 0x0008, 0x000a, 0x000b, 0x000c,
           0x0010, 0x0011, 0x0012, 0x0013, 0x0014, 0x0015, 0x0016, 0x0017}
  }

  ghost predicate AcceptableElement(fl: Floats, et: VarType, x: Value, depth: nat)
    decreases Fuel(depth), 2
  {
    Acceptable(fl, if et == 0x000c then x else Var(et, x), depth)
  }

  ghost predicate AcceptableArray(fl: Floats, a: Array, depth: nat)
    decreases Fuel(depth), 3
  {
    && ElementType(a.elementType)
    && (a.Array? ==>
          && 1 <= |a.bounds| <= 32 && BoundsFit(a.bounds) && Product(a.bounds) == |a.values|
          && forall i :: 0 <= i < |a.values| ==> AcceptableElement(fl, a.elementType, a.values[i], depth))
  }

  // ---- nesting ----

  lemma {:induction false} NestingAppends(vs: seq<Option<Variant>>, w: Variant)
    ensures ListNesting(vs + [Some(w)]) == if Nesting(w) > ListNesting(vs) then Nesting(w) else ListNesting(vs)
  {
    if vs == [] {
      assert [Some(w)][1..] == [];
    } else {
      assert (vs + [Some(w)])[1..] == vs[1..] + [Some(w)];
      NestingAppends(vs[1..], w);
    }
  }

  /** The element buffers hold VARIANT records only for arrays of VARIANTs. */
  ghost predicate Nested(et: VarType, b: Buffers, xs: seq<Value>) {
    if et == 0x000c then ListNesting(b.variants) == MostLevels(xs) else true
  }

  lemma AppendNests(et: VarType, b: Buffers, w: Variant, xs: seq<Value>, x: Value)
    requires Nested(et, b, xs) && Nesting(w) == Levels(x) && AppendElement(b, et, w).Ok?
    ensures Nested(et, AppendElement(b, et, w).value, xs + [x])
  {
    assert (xs + [x])[..|xs|] == xs;
    if et == 0x000c {
      NestingAppends(b.variants, w);
    }
  }

  lemma ArrayNests(a: Array, l: Layout, count: nat, b: Buffers)
    requires ArrayLayout(a.elementType) == Some(l) && count <= MAX_ELEMENTS && a.Array?
    requires Nested(a.elementType, b, a.values)
    ensures var sa := Build(l, a.elementType, a.bounds, count, b);
            Nesting(Variant(VT_ARRAY | a.elementType, Some(PArray(Some(sa))))) == Levels(Arr(a))
  {}

  // ---- the cases of the writer ----

  lemma ScalarAccepts(fl: Floats, v: Value, depth: nat)
    requires depth <= 32 && !v.Arr? && !v.Var?
    ensures WriteVariantDepth(fl, v, depth).Ok? <==> AcceptableScalar(fl, v)
    ensures WriteVariantDepth(fl, v, depth).Ok? ==> Nesting(WriteVariantDepth(fl, v, depth).value) == 1
  {
    if v.Time? {
      WritableIsInRange(v.ns);
    }
  }

  lemma LayoutElements(et: VarType)
    ensures ArrayLayout(et).Some? <==> ElementType(et)
  {}

  /** Writing an array inside a VARIANT. */
  lemma ArrayIsWrapped(fl: Floats, a: Array, depth: nat)
    requires depth <= 32
    ensures WriteVariantDepth(fl, Arr(a), depth).Ok? <==>
              && WriteArray(fl, a, depth + 1).Ok?
              && Nesting(Variant(VT_ARRAY | a.elementType, Some(PArray(WriteArray(fl, a, depth + 1).value)))) <= 32
    ensures WriteVariantDepth(fl, Arr(a), depth).Ok? ==>
              WriteVariantDepth(fl, Arr(a), depth).value ==
              Variant(VT_ARRAY | a.elementType, Some(PArray(WriteArray(fl, a, depth + 1).value)))
  {
    assert HasFlag(VT_ARRAY | a.elementType, VT_ARRAY | VT_BYREF);
  }

  /** Writing a tagged value: the record is checked once more when its type is an array or BYREF. */
  lemma TypedIsChecked(fl: Floats, vt: VarType, x: Value, depth: nat)
    requires depth <= 32
    ensures var w := WriteExtendedValue(fl, Var(vt, x), depth);
            WriteVariantDepth(fl, Var(vt, x), depth) ==
            if w.Ok? && HasFlag(w.value.vt, VT_ARRAY | VT_BYREF) && Nesting(w.value) > 32 then Err(TooDeep) else w
  {}

  /** Writing a BYREF scalar or array: the record of the value itself with the BYREF type. */
  lemma ByRefIsWrapped(fl: Floats, vt: VarType, base: VarType, x: Value, depth: nat)
    requires depth <= 32 && vt & 0x4000 != 0 && vt != 0x400c && base == vt & 0xbfff
    ensures var w, inner := WriteVariantDepth(fl, Var(vt, x), depth), WriteVariantDepth(fl, Var(base, x), depth + 1);
            && (w.Ok? <==> vt != 0x4000 && vt != 0x4001 && inner.Ok? && Nesting(inner.value) <= 32)
            && (w.Ok? ==> Nesting(w.value) == Nesting(inner.value))
  {
    Flags(vt);
    TypedIsChecked(fl, vt, x, depth);
  }

  lemma ByRefLevels(vt: VarType, x: Value)
    requires vt & 0x4000 != 0 && vt != 0x400c
    ensures Levels(Var(vt, x)) == Levels(Var(vt & 0xbfff, x))
  {
    Flags(vt);
  }

  lemma Flags(vt: VarType)
    ensures HasFlag(vt, VT_BYREF) <==> vt & 0x4000 != 0
    ensures Without(vt, VT_BYREF) == vt & 0xbfff
    ensures vt & 0x4000 != 0 ==> (vt & 0xbfff == 0x000c <==> vt == 0x400c)
    ensures vt & 0x4000 != 0 ==> (vt & 0xbfff == 0x0000 <==> vt == 0x4000) && (vt & 0xbfff == 0x0001 <==> vt == 0x4001)
    ensures vt & 0x4000 != 0 ==> HasFlag(vt, VT_ARRAY | VT_BYREF) && vt & 0xbfff & 0x4000 == 0
  {}

  /** A typed element that can be written fits the buffers. */
  lemma ElementAppends(fl: Floats, et: VarType, x: Value, depth: nat, b: Buffers)
    requires ElementType(et) && WriteElement(fl, et, x, depth).Ok?
    ensures AppendElement(b, et, WriteElement(fl, et, x, depth).value).Ok?
  {
    LayoutElements(et);
    if et != VT_VARIANT {
      TypedElementIsSimple(fl, et, x, depth);
      if et != VT_INT && et != VT_UINT {
        SimpleAppends(fl, et, x, depth + 1, b);
      }
    }
  }

  lemma SimpleAppends(fl: Floats, et: VarType, x: Value, depth: nat, b: Buffers)
    requires ElementType(et) && et != VT_VARIANT && Simple(x) && TypeOf(x) == et && WriteVariantDepth(fl, x, depth).Ok?
    ensures AppendElement(b, et, WriteVariantDepth(fl, x, depth).value).Ok?
  {}

  // ---- exactly the acceptable values are accepted ----

  /** Writing v inside depth records succeeds exactly when v is acceptable there, and the record
      nests as deep as v needs. */
  ghost predicate Agrees(fl: Floats, v: Value, depth: nat) {
    && (WriteVariantDepth(fl, v, depth).Ok? <==> Acceptable(fl, v, depth))
    && (WriteVariantDepth(fl, v, depth).Ok? ==> Nesting(WriteVariantDepth(fl, v, depth).value) == Levels(v))
  }

  lemma WriteAccepts(fl: Floats, v: Value, depth: nat)
    ensures Agrees(fl, v, depth)
    decreases Fuel(depth), 4
  {
    if depth <= 32 {
      match v
      case Arr(a) => ArrAccepts(fl, a, depth);
      case Var(vt, x) => TypedAccepts(fl, vt, x, depth);
      case _ => ScalarAccepts(fl, v, depth);
    }
  }

  lemma ArrAccepts(fl: Floats, a: Array, depth: nat)
    requires depth <= 32
    ensures Agrees(fl, Arr(a), depth)
    decreases Fuel(depth), 3
  {
    ArrayAccepts(fl, a, depth + 1);
    ArrayIsWrapped(fl, a, depth);
  }

  lemma TypedAccepts(fl: Floats, vt: VarType, x: Value, depth: nat)
    requires depth <= 32
    ensures Agrees(fl, Var(vt, x), depth)
    decreases Fuel(depth), 3
  {
    Flags(vt);
    TypedIsChecked(fl, vt, x, depth);
    if vt & 0x4000 != 0 {
      if vt == 0x400c {
        ByRefVariantAccepts(fl, vt, x, depth);
      } else {
        ByRefAccepts(fl, vt, x, depth);
      }
    } else {
      TagAccepts(fl, vt, x, depth);
    }
  }

  lemma ByRefVariantAccepts(fl: Floats, vt: VarType, x: Value, depth: nat)
    requires depth <= 32 && vt == 0x400c
    ensures Agrees(fl, Var(vt, x), depth)
    decreases Fuel(depth), 2
  {
    WriteAccepts(fl, x, depth + 1);
    TypedIsChecked(fl, vt, x, depth);
    Flags(vt);
  }

  lemma ByRefAccepts(fl: Floats, vt: VarType, x: Value, depth: nat)
    requires depth <= 32 && vt & 0x4000 != 0 && vt != 0x400c
    ensures Agrees(fl, Var(vt, x), depth)
    decreases Fuel(depth), 2
  {
    var base := vt & 0xbfff;
    WriteAccepts(fl, Var(base, x), depth + 1);
    ByRefIsWrapped(fl, vt, base, x, depth);
    ByRefLevels(vt, x);
    ByRefIsAcceptable(fl, vt, base, x, depth);
  }

  lemma ByRefIsAcceptable(fl: Floats, vt: VarType, base: VarType, x: Value, depth: nat)
    requires depth <= 32 && vt & 0x4000 != 0 && vt != 0x400c && base == vt & 0xbfff
    ensures Acceptable(fl, Var(vt, x), depth) <==>
              vt != 0x4000 && vt != 0x4001 && Levels(Var(vt, x)) <= 32 && Acceptable(fl, Var(base, x), depth + 1)
  {}

  lemma TagAccepts(fl: Floats, vt: VarType, x: Value, depth: nat)
    requires depth <= 32 && vt & 0x4000 == 0
    ensures Agrees(fl, Var(vt, x), depth)
    decreases Fuel(depth), 2
  {
    if vt == VT_EMPTY || vt == VT_NULL || vt == VT_INT || vt == VT_UINT || x.Var? {
      SpecialTagAccepts(fl, vt, x, depth);
    } else {
      WriteAccepts(fl, x, depth + 1);
      TagIsWrapped(fl, vt, x, depth);
    }
  }

  lemma SpecialTagAccepts(fl: Floats, vt: VarType, x: Value, depth: nat)
    requires depth <= 32 && vt & 0x4000 == 0
    requires vt == VT_EMPTY || vt == VT_NULL || vt == VT_INT || vt == VT_UINT || x.Var?
    ensures Agrees(fl, Var(vt, x), depth)
  {
    Flags(vt);
    TypedIsChecked(fl, vt, x, depth);
  }

  /** Writing a tagged scalar or array: the record of the value, whose type must be the tag. */
  lemma TagIsWrapped(fl: Floats, vt: VarType, x: Value, depth: nat)
    requires depth <= 32 && vt & 0x4000 == 0 && !x.Var?
    requires vt != VT_EMPTY && vt != VT_NULL && vt != VT_INT && vt != VT_UINT
    ensures var w, inner := WriteVariantDepth(fl, Var(vt, x), depth), WriteVariantDepth(fl, x, depth + 1);
            && (w.Ok? <==> inner.Ok? && TypeOf(x) == vt)
            && (w.Ok? ==> w == inner)
  {
    Flags(vt);
    TypedIsChecked(fl, vt, x, depth);
    if depth < 32 && WriteVariantDepth(fl, x, depth + 1).Ok? {
      WrittenType(fl, x, depth + 1);
      WrittenNests(fl, x, depth + 1);
    }
  }

  lemma WrittenNests(fl: Floats, x: Value, depth: nat)
    requires depth <= 32 && !x.Var? && WriteVariantDepth(fl, x, depth).Ok?
    ensures Nesting(WriteVariantDepth(fl, x, depth).value) <= 32
  {
    if x.Arr? {
      ArrayIsWrapped(fl, x.a, depth);
    } else {
      ScalarAccepts(fl, x, depth);
    }
  }

  lemma ArrayAccepts(fl: Floats, a: Array, depth: nat)
    ensures WriteArray(fl, a, depth).Ok? <==> AcceptableArray(fl, a, depth)
    ensures WriteArray(fl, a, depth).Ok? ==>
              Nesting(Variant(VT_ARRAY | a.elementType, Some(PArray(WriteArray(fl, a, depth).value)))) == Levels(Arr(a))
    decreases Fuel(depth), 6
  {
    LayoutElements(a.elementType);
    if a.Array? && ElementType(a.elementType) {
      CountPrefixIsProduct(a.bounds);
      ElementsAccept(fl, a.elementType, a.values, depth);
      if WriteArray(fl, a, depth).Ok? {
        var b := WriteElements(fl, a.elementType, a.values, depth).value;
        ArrayNests(a, ArrayLayout(a.elementType).value, ArrayCount(a.bounds).value, b);
      }
    }
  }

  lemma ElementsAccept(fl: Floats, et: VarType, xs: seq<Value>, depth: nat)
    requires ElementType(et)
    ensures WriteElements(fl, et, xs, depth).Ok? <==>
              forall i :: 0 <= i < |xs| ==> AcceptableElement(fl, et, xs[i], depth)
    ensures WriteElements(fl, et, xs, depth).Ok? ==> Nested(et, WriteElements(fl, et, xs, depth).value, xs)
    decreases Fuel(depth), 5, |xs|
  {
    if xs != [] {
      var front, x := xs[..|xs| - 1], xs[|xs| - 1];
      assert xs == front + [x];
      ElementsAccept(fl, et, front, depth);
      WriteAccepts(fl, if et == 0x000c then x else Var(et, x), depth);
      if WriteElements(fl, et, front, depth).Ok? && WriteElement(fl, et, x, depth).Ok? {
        var b := WriteElements(fl, et, front, depth).value;
        ElementAppends(fl, et, x, depth, b);
        if et == 0x000c {
          AppendNests(et, b, WriteElement(fl, et, x, depth).value, front, x);
        }
      }
    }
  }

  /** Exactly the acceptable values can be written. */
  lemma AcceptedExactly(fl: Floats, v: Value)
    ensures WriteVariant(fl, v).Ok? <==> Acceptable(fl, v, 0)
  {
    WriteAccepts(fl, v, 0);
  }
}
