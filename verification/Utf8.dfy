/** The accepted texts are the UTF-8 encodings of lists of Unicode scalar values (section 3 of
    RFC 3629). */
module Utf8 {
  import opened Words

  predicate Scalar(c: nat) {
    c < 0xd800 || 0xe000 <= c < 0x11_0000
  }

  function Continued(bits: nat): uint8 {
    (0x80 + bits % 0x40) as uint8
  }

  function EncodeScalar(c: nat): Bytes
    requires Scalar(c)
  {
    if c < 0x80 then [c as uint8]
    else if c < 0x800 then [(0xc0 + c / 0x40) as uint8, Continued(c)]
    else if c < 0x1_0000 then [(0xe0 + c / 0x1000) as uint8, Continued(c / 0x40), Continued(c)]
    else [(0xf0 + c / 0x4_0000) as uint8, Continued(c / 0x1000), Continued(c / 0x40), Continued(c)]
  }

  function EncodeText(cs: seq<nat>): Bytes
    requires forall i :: 0 <= i < |cs| ==> Scalar(cs[i])
  {
    if cs == [] then [] else EncodeScalar(cs[0]) + EncodeText(cs[1..])
  }

  ghost predicate EncodesText(s: Bytes, cs: seq<nat>) {
    (forall i :: 0 <= i < |cs| ==> Scalar(cs[i])) && s == EncodeText(cs)
  }

  lemma ScalarStarts(c: nat, rest: Bytes)
    requires Scalar(c)
    ensures var s := EncodeScalar(c) + rest;
            SequenceLength(s) == |EncodeScalar(c)| && s[SequenceLength(s)..] == rest
  {}

  /** The scalar value of the sequence at the start of s. */
  function DecodeScalar(s: Bytes): nat
    requires s != [] && SequenceLength(s) > 0
  {
    match SequenceLength(s)
    case 1 => s[0] as nat
    case 2 => s[0] as nat % 0x20 * 0x40 + s[1] as nat % 0x40
    case 3 => s[0] as nat % 0x10 * 0x1000 + s[1] as nat % 0x40 * 0x40 + s[2] as nat % 0x40
    case _ =>
      s[0] as nat % 0x08 * 0x4_0000 + s[1] as nat % 0x40 * 0x1000 + s[2] as nat % 0x40 * 0x40 + s[3] as nat % 0x40
  }

  lemma Split(a: nat, b: nat)
    requires b < 0x40
    ensures (a * 0x40 + b) / 0x40 == a && (a * 0x40 + b) % 0x40 == b
  {}

  lemma TwoBytes(s: Bytes)
    requires s != [] && SequenceLength(s) == 2
    ensures Scalar(DecodeScalar(s)) && EncodeScalar(DecodeScalar(s)) == s[..2]
  {
    Split(s[0] as nat % 0x20, s[1] as nat % 0x40);
  }

  lemma ThreeBytes(s: Bytes)
    requires s != [] && SequenceLength(s) == 3
    ensures Scalar(DecodeScalar(s)) && EncodeScalar(DecodeScalar(s)) == s[..3]
  {
    var a, b, c := s[0] as nat % 0x10, s[1] as nat % 0x40, s[2] as nat % 0x40;
    Split(a, b);
    Split(a * 0x40 + b, c);
    var n := a * 0x1000 + b * 0x40 + c;
    assert n / 0x40 == a * 0x40 + b && n / 0x1000 == a;
    assert 0x800 <= n < 0x1_0000 && Scalar(n);
    assert 0xe0 + a == s[0] as nat && 0x80 + b == s[1] as nat && 0x80 + c == s[2] as nat;
  }

  lemma FourBytes(s: Bytes)
    requires s != [] && SequenceLength(s) == 4
    ensures Scalar(DecodeScalar(s)) && EncodeScalar(DecodeScalar(s)) == s[..4]
  {
    var a, b, c, d := s[0] as nat % 0x08, s[1] as nat % 0x40, s[2] as nat % 0x40, s[3] as nat % 0x40;
    Split(a, b);
    Split(a * 0x40 + b, c);
    Split(a * 0x1000 + b * 0x40 + c, d);
    var n := a * 0x4_0000 + b * 0x1000 + c * 0x40 + d;
    assert n / 0x40 == a * 0x1000 + b * 0x40 + c && n / 0x1000 == a * 0x40 + b && n / 0x4_0000 == a;
    assert 0x1_0000 <= n < 0x11_0000;
    assert 0xf0 + a == s[0] as nat && 0x80 + b == s[1] as nat && 0x80 + c == s[2] as nat && 0x80 + d == s[3] as nat;
  }

  lemma StartDecodes(s: Bytes)
    requires s != [] && SequenceLength(s) > 0
    ensures Scalar(DecodeScalar(s)) && EncodeScalar(DecodeScalar(s)) == s[..SequenceLength(s)]
  {
    match SequenceLength(s)
    case 1 =>
    case 2 => TwoBytes(s);
    case 3 => ThreeBytes(s);
    case _ => FourBytes(s);
  }

  lemma {:induction false} EncodedIsValid(cs: seq<nat>)
    requires forall i :: 0 <= i < |cs| ==> Scalar(cs[i])
    ensures ValidUtf8(EncodeText(cs))
  {
    if cs != [] {
      EncodedIsValid(cs[1..]);
      ScalarStarts(cs[0], EncodeText(cs[1..]));
    }
  }

  lemma {:induction false} ValidIsEncoded(s: Bytes) returns (cs: seq<nat>)
    requires ValidUtf8(s)
    ensures EncodesText(s, cs)
  {
    if s == [] {
      cs := [];
    } else {
      var n := SequenceLength(s);
      var rest := ValidIsEncoded(s[n..]);
      StartDecodes(s);
      cs := [DecodeScalar(s)] + rest;
      assert cs[1..] == rest;
      assert s == s[..n] + s[n..];
    }
  }

  /** Exactly the encodings are valid. */
  lemma ValidIffEncoded(s: Bytes)
    ensures ValidUtf8(s) <==> exists cs :: EncodesText(s, cs)
  {
    if ValidUtf8(s) {
      var cs := ValidIsEncoded(s);
    }
    forall cs | EncodesText(s, cs)
      ensures ValidUtf8(s)
    {
      EncodedIsValid(cs);
    }
  }
}
