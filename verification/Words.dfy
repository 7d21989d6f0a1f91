/** Machine integers and the conversions between signed and unsigned words of one width. */
module Words {
  newtype uint8 = x: int | 0 <= x < 0x100
  newtype uint16 = x: int | 0 <= x < 0x1_0000
  newtype uint32 = x: int | 0 <= x < 0x1_0000_0000
  newtype uint64 = x: int | 0 <= x < 0x1_0000_0000_0000_0000
  newtype int8 = x: int | -0x80 <= x < 0x80
  newtype int16 = x: int | -0x8000 <= x < 0x8000
  newtype int32 = x: int | -0x8000_0000 <= x < 0x8000_0000
  newtype int64 = x: int | -0x8000_0000_0000_0000 <= x < 0x8000_0000_0000_0000

  function U8(x: int8): uint8 { if x < 0 then (x as int + 0x100) as uint8 else x as uint8 }
  function I8(x: uint8): int8 { if x < 0x80 then x as int8 else (x as int - 0x100) as int8 }
  function U16(x: int16): uint16 { if x < 0 then (x as int + 0x1_0000) as uint16 else x as uint16 }
  function I16(x: uint16): int16 { if x < 0x8000 then x as int16 else (x as int - 0x1_0000) as int16 }
  function U32(x: int32): uint32 { if x < 0 then (x as int + 0x1_0000_0000) as uint32 else x as uint32 }
  function I32(x: uint32): int32 { if x < 0x8000_0000 then x as int32 else (x as int - 0x1_0000_0000) as int32 }

  function U64(x: int64): uint64 {
    if x < 0 then (x as int + 0x1_0000_0000_0000_0000) as uint64 else x as uint64
  }

  function I64(x: uint64): int64 {
    if x < 0x8000_0000_0000_0000 then x as int64 else (x as int - 0x1_0000_0000_0000_0000) as int64
  }

  /** The wrap-around conversions of each width undo each other. */
  lemma WordsInverse()
    ensures forall x :: I8(U8(x)) == x
    ensures forall x :: I16(U16(x)) == x
    ensures forall x :: I32(U32(x)) == x
    ensures forall x :: U32(I32(x)) == x
    ensures forall x :: U64(I64(x)) == x
    ensures forall x :: I64(U64(x)) == x
  {}

  type Bytes = seq<uint8>

  predicate Continuation(b: uint8) {
    0x80 <= b < 0xc0
  }

  /** The length of the well-formed UTF-8 sequence at the start of s, or 0. */
  function SequenceLength(s: Bytes): (n: nat)
    requires s != []
    ensures n <= |s|
  {
    var b := s[0];
    if b < 0x80 then 1
    else if 0xc2 <= b < 0xe0 && |s| >= 2 && Continuation(s[1]) then 2
    else if 0xe0 <= b < 0xf0 && |s| >= 3 && Continuation(s[1]) && Continuation(s[2]) &&
            (b == 0xe0 ==> s[1] >= 0xa0) && (b == 0xed ==> s[1] < 0xa0) then 3
    else if 0xf0 <= b < 0xf5 && |s| >= 4 && Continuation(s[1]) && Continuation(s[2]) && Continuation(s[3]) &&
            (b == 0xf0 ==> s[1] >= 0x90) && (b == 0xf4 ==> s[1] < 0x90) then 4
    else 0
  }

  predicate ValidUtf8(s: Bytes) {
    s == [] || (SequenceLength(s) > 0 && ValidUtf8(s[SequenceLength(s)..]))
  }
}
