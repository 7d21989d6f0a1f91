/** Finding the TCP port of an object exporter in its string bindings (a DUALSTRINGARRAY, section
    2.2.19 of MS-DCOM: a list of network addresses as UTF-16 code units, then security bindings). */
module Bindings {
  import opened Words
  import opened Wrappers

  const TCP_TOWER: uint16 := 0x07      // ncacn_ip_tcp
  const OPEN: uint16 := 0x5b           // [
  const CLOSE: uint16 := 0x5d          // ]
  const ZERO: uint16 := 0x30
  const NINE: uint16 := 0x39

  datatype StringArray = StringArray(securityOffset: uint16, units: seq<uint16>)

  /** One string binding: a tower identifier and a network address. */
  datatype Binding = Binding(tower: uint16, address: seq<uint16>)

  datatype Extracted = Port(n: nat) | Missing | Unterminated | NoEndpoint

  /** The number that a string of decimal digits denotes. */
  function Number(s: seq<uint16>): Option<nat> {
    if s == [] then Some(0)
    else
      var d := s[|s| - 1];
      var front := Number(s[..|s| - 1]);
      if front.Some? && ZERO <= d <= NINE then Some(10 * front.value + (d - ZERO) as nat) else None
  }

  /** The last position of a code unit, or -1. */
  function LastIndex(s: seq<uint16>, c: uint16): (i: int)
    ensures -1 <= i < |s| && (i >= 0 ==> s[i] == c)
  {
    if s == [] then -1
    else if s[|s| - 1] == c then |s| - 1
    else LastIndex(s[..|s| - 1], c)
  }

  lemma {:induction false} LastIndexIsLast(s: seq<uint16>, c: uint16)
    ensures forall k :: LastIndex(s, c) < k < |s| ==> s[k] != c
  {
    if s != [] && s[|s| - 1] != c {
      LastIndexIsLast(s[..|s| - 1], c);
    }
  }

  /** A port is a non-empty digit string whose number is in 1..65535. */
  function ParsePort(s: seq<uint16>): Option<nat> {
    var n := Number(s);
    if s != [] && n.Some? && 0 < n.value <= 0xffff then n else None
  }

  /** The port in an address of the form host[port]. */
  function PortOf(address: seq<uint16>): Option<nat> {
    var left := LastIndex(address, OPEN);
    if left < 0 || address[|address| - 1] != CLOSE then None
    else ParsePort(address[left + 1..|address| - 1])
  }

  function Usable(b: Binding): Option<nat> {
    if b.tower == TCP_TOWER then PortOf(b.address) else None
  }

  /** What a scan makes of one binding. */
  type Reader = Binding -> Option<nat>

  /** The port of the first binding that the reader finds usable. */
  function FirstPort(bs: seq<Binding>, read: Reader): Option<nat> {
    if bs == [] then None
    else if read(bs[0]).Some? then read(bs[0])
    else FirstPort(bs[1..], read)
  }

  /** A binding that can be written: a zero tower would end the list and a zero unit the address. */
  predicate Proper(b: Binding) {
    b.tower != 0 && 0 !in b.address
  }

  function Encode(bs: seq<Binding>): seq<uint16> {
    if bs == [] then [] else [bs[0].tower] + bs[0].address + [0] + Encode(bs[1..])
  }

  /** The first position of a zero unit, or the length. */
  function ZeroIndex(t: seq<uint16>): (k: nat)
    ensures k <= |t|
  {
    if t == [] || t[0] == 0 then 0 else 1 + ZeroIndex(t[1..])
  }

  function Either(port: Option<nat>, otherwise: Extracted): Extracted {
    if port.Some? then Port(port.value) else otherwise
  }

  /** The scan, one binding at a time. */
  function Scan(t: seq<uint16>, read: Reader): Extracted {
    if t == [] || t[0] == 0 then NoEndpoint
    else
      var k := ZeroIndex(t[1..]);
      if k == |t[1..]| then Unterminated
      else Either(read(Binding(t[0], t[1..][..k])), Scan(t[1..][k + 1..], read))
  }

  predicate Sane(a: Option<StringArray>) {
    a.Some? && a.value.securityOffset != 0 && a.value.securityOffset as nat <= |a.value.units|
  }

  method ExtractTcpPort(a: Option<StringArray>) returns (r: Extracted)
    ensures r == if Sane(a) then Scan(a.value.units[..a.value.securityOffset as nat], Usable) else Missing
  {
    if a.None? || a.value.securityOffset == 0 || a.value.securityOffset as nat > |a.value.units| {
      return Missing;
    }
    r := FindPort(a.value.units[..a.value.securityOffset as nat], Usable);
  }

  /** The loop over the bindings. */
  method FindPort(sa: seq<uint16>, read: Reader) returns (r: Extracted)
    ensures r == Scan(sa, read)
  {
    ghost var answer := Scan(sa, read);
    var i := 0;
    assert sa[0..] == sa;
    while i < |sa| && sa[i] != 0
      invariant Awaits(sa, i, read, answer)
      decreases |sa| - i
    {
      var end := SkipAddress(sa, i + 1);
      ScanHere(sa, i, end, read, answer);
      if end == |sa| {
        return Unterminated;
      }
      var port := read(Binding(sa[i], sa[i + 1..end]));
      if port.Some? {
        return Port(port.value);
      }
      i := end + 1;
    }
    return NoEndpoint;
  }

  /** The scan from position i on gives the answer. */
  ghost predicate Awaits(sa: seq<uint16>, i: nat, read: Reader, answer: Extracted) {
    i <= |sa| && Scan(sa[i..], read) == answer
  }

  /** The inner loop: to the end of an address. */
  method SkipAddress(sa: seq<uint16>, start: nat) returns (end: nat)
    requires start <= |sa|
    ensures end == start + ZeroIndex(sa[start..])
  {
    end := start;
    while end < |sa| && sa[end] != 0
      invariant start <= end <= |sa|
      invariant start + ZeroIndex(sa[start..]) == end + ZeroIndex(sa[end..])
    {
      assert sa[end..][0] == sa[end] && sa[end..][1..] == sa[end + 1..];
      end := end + 1;
    }
  }

  /** The binding that starts at from ends at the first zero unit after it. */
  lemma ScanHere(sa: seq<uint16>, from: nat, end: nat, read: Reader, answer: Extracted)
    requires Awaits(sa, from, read, answer)
    requires from < |sa| && sa[from] != 0 && end == from + 1 + ZeroIndex(sa[from + 1..])
    ensures from < end <= |sa| && (end == |sa| ==> answer == Unterminated)
    ensures end < |sa| ==>
              var port := read(Binding(sa[from], sa[from + 1..end]));
              if port.Some? then answer == Port(port.value) else Awaits(sa, end + 1, read, answer)
  {
    var t := sa[from..];
    assert t[1..] == sa[from + 1..];
    assert t[1..][..end - from - 1] == sa[from + 1..end];
    if end < |sa| {
      assert t[1..][end - from..] == sa[end + 1..];
    }
  }

  predicate NonZero(t: seq<uint16>) {
    0 !in t
  }

  lemma {:induction false} ZeroIndexIs(t: seq<uint16>, k: nat)
    requires k <= |t| && (k < |t| ==> t[k] == 0) && NonZero(t[..k])
    ensures ZeroIndex(t) == k
  {
    if k > 0 {
      assert t[0] == t[..k][0];
      assert t[1..][..k - 1] == t[..k][1..];
      ZeroIndexIs(t[1..], k - 1);
    }
  }

  lemma {:induction false} NoZeroBefore(t: seq<uint16>)
    ensures 0 !in t[..ZeroIndex(t)] && (ZeroIndex(t) < |t| ==> t[ZeroIndex(t)] == 0)
  {
    if t != [] && t[0] != 0 {
      NoZeroBefore(t[1..]);
      assert t[..ZeroIndex(t)] == [t[0]] + t[1..][..ZeroIndex(t[1..])];
    }
  }

  /** What units are: proper bindings, then the end of the list or a last binding without its
      terminator. */
  ghost predicate Splits(t: seq<uint16>, bs: seq<Binding>, rest: seq<uint16>) {
    && t == Encode(bs) + rest
    && (forall k :: 0 <= k < |bs| ==> Proper(bs[k]))
    && (rest == [] || rest[0] == 0 || 0 !in rest)
  }

  function Verdict(bs: seq<Binding>, rest: seq<uint16>, read: Reader): Extracted {
    Either(FirstPort(bs, read), if rest == [] || rest[0] == 0 then NoEndpoint else Unterminated)
  }

  lemma ScanCons(b: Binding, tail: seq<uint16>, read: Reader)
    requires Proper(b)
    ensures Scan([b.tower] + b.address + [0] + tail, read) == Either(read(b), Scan(tail, read))
  {
    var t := [b.tower] + b.address + [0] + tail;
    var k := |b.address|;
    assert t[1..] == b.address + [0] + tail;
    ZeroIndexIs(t[1..], k);
    assert t[1..][..k] == b.address;
    assert t[1..][k + 1..] == tail;
  }

  /** However the units split into bindings, the scan gives the port of the first usable one. */
  lemma {:induction false} ScanFindsFirst(bs: seq<Binding>, rest: seq<uint16>, read: Reader)
    requires forall k :: 0 <= k < |bs| ==> Proper(bs[k])
    requires rest == [] || rest[0] == 0 || 0 !in rest
    ensures Scan(Encode(bs) + rest, read) == Verdict(bs, rest, read)
    decreases |bs|
  {
    if bs == [] {
      assert Encode(bs) + rest == rest;
      if rest != [] && rest[0] != 0 {
        ZeroIndexIs(rest[1..], |rest| - 1);
      }
    } else {
      var tail := Encode(bs[1..]) + rest;
      assert Encode(bs) + rest == [bs[0].tower] + bs[0].address + [0] + tail;
      ScanCons(bs[0], tail, read);
      ScanFindsFirst(bs[1..], rest, read);
    }
  }

  /** The head of a list with a terminated first binding. */
  lemma HeadSplits(t: seq<uint16>) returns (b: Binding, tail: seq<uint16>)
    requires t != [] && t[0] != 0 && ZeroIndex(t[1..]) < |t[1..]|
    ensures Proper(b) && t == [b.tower] + b.address + [0] + tail
  {
    var u := t[1..];
    var k := ZeroIndex(u);
    NoZeroBefore(u);
    b, tail := Binding(t[0], u[..k]), u[k + 1..];
    assert t == [t[0]] + u;
    assert u == u[..k] + [u[k]] + u[k + 1..];
  }

  lemma Unsplit(t: seq<uint16>)
    requires t == [] || t[0] == 0 || ZeroIndex(t[1..]) == |t[1..]|
    ensures Splits(t, [], t)
  {
    if t != [] && t[0] != 0 {
      var u := t[1..];
      NoZeroBefore(u);
      assert u[..|u|] == u && t == [t[0]] + u;
    }
  }

  /** Every list of units splits into bindings. */
  lemma {:induction false} EverythingSplits(t: seq<uint16>) returns (bs: seq<Binding>, rest: seq<uint16>)
    ensures Splits(t, bs, rest)
    decreases |t|
  {
    if t == [] || t[0] == 0 || ZeroIndex(t[1..]) == |t[1..]| {
      Unsplit(t);
      bs, rest := [], t;
    } else {
      var b, tail := HeadSplits(t);
      var more;
      more, rest := EverythingSplits(tail);
      SplitsCons(b, tail, more, rest);
      bs := [b] + more;
    }
  }

  lemma SplitsCons(b: Binding, tail: seq<uint16>, more: seq<Binding>, rest: seq<uint16>)
    requires Proper(b) && Splits(tail, more, rest)
    ensures Splits([b.tower] + b.address + [0] + tail, [b] + more, rest)
  {
    var bs := [b] + more;
    assert bs[1..] == more;
    assert Encode(bs) + rest == [b.tower] + b.address + [0] + tail;
    forall j | 0 <= j < |bs|
      ensures Proper(bs[j])
    {
      assert j > 0 ==> bs[j] == more[j - 1];
    }
  }

  /** For any units at all: they split into bindings, and the scan gives the first usable port. */
  lemma ScanDecides(t: seq<uint16>, read: Reader) returns (bs: seq<Binding>, rest: seq<uint16>)
    ensures Splits(t, bs, rest) && Scan(t, read) == Verdict(bs, rest, read)
  {
    bs, rest := EverythingSplits(t);
    ScanFindsFirst(bs, rest, read);
  }

  /** On the encoding of any list of proper bindings, whatever follows its terminator, the result
      is the port of the first usable TCP binding, and there is no result exactly when no binding
      is usable. */
  lemma EncodedBindings(bs: seq<Binding>, after: seq<uint16>)
    requires forall k :: 0 <= k < |bs| ==> Proper(bs[k])
    ensures Scan(Encode(bs) + [0] + after, Usable) == Either(FirstPort(bs, Usable), NoEndpoint)
    ensures FirstPort(bs, Usable).Some? <==> exists k :: 0 <= k < |bs| && Usable(bs[k]).Some?
  {
    assert Encode(bs) + [0] + after == Encode(bs) + ([0] + after);
    ScanFindsFirst(bs, [0] + after, Usable);
    FirstPortIsFirst(bs, Usable);
  }

  ghost predicate FirstAt(bs: seq<Binding>, read: Reader, k: nat) {
    && k < |bs| && read(bs[k]).Some? && read(bs[k]) == FirstPort(bs, read)
    && forall j :: 0 <= j < k ==> read(bs[j]).None?
  }

  lemma {:induction false} FirstPortIsFirst(bs: seq<Binding>, read: Reader)
    ensures FirstPort(bs, read).Some? <==> exists k :: 0 <= k < |bs| && read(bs[k]).Some?
    ensures FirstPort(bs, read).Some? ==> exists k: nat :: FirstAt(bs, read, k)
  {
    if bs == [] {
    } else if read(bs[0]).Some? {
      assert FirstAt(bs, read, 0);
    } else {
      var rest := bs[1..];
      FirstPortIsFirst(rest, read);
      assert forall k :: 0 <= k < |rest| ==> rest[k] == bs[k + 1];
      if FirstPort(rest, read).Some? {
        var k: nat :| FirstAt(rest, read, k);
        forall j | 0 <= j < k + 1
          ensures read(bs[j]).None?
        {
          assert j > 0 ==> bs[j] == rest[j - 1];
        }
        assert FirstAt(bs, read, k + 1);
      }
      if k :| 0 <= k < |bs| && read(bs[k]).Some? {
        assert read(rest[k - 1]).Some?;
      }
    }
  }

  /** A bracketed number makes an address usable. */
  lemma UsableAddress(host: seq<uint16>, port: seq<uint16>)
    requires OPEN !in port
    ensures PortOf(host + [OPEN] + port + [CLOSE]) == ParsePort(port)
  {
    var a := host + [OPEN] + port + [CLOSE];
    var left := LastIndex(a, OPEN);
    LastIndexIsLast(a, OPEN);
    assert a[|host|] == OPEN;
    forall k | |host| < k < |a|
      ensures a[k] != OPEN
    {
      assert a[k] == (port + [CLOSE])[k - |host| - 1];
    }
    assert left == |host|;
    assert a[left + 1..|a| - 1] == port;
  }

  /** Nothing else does: a usable address is some host followed by its bracketed port. */
  lemma UsableOnlyBracketed(address: seq<uint16>) returns (host: seq<uint16>, port: seq<uint16>)
    requires PortOf(address).Some?
    ensures address == host + [OPEN] + port + [CLOSE] && OPEN !in port
    ensures PortOf(address) == ParsePort(port)
  {
    var left, last := LastIndex(address, OPEN), |address| - 1;
    LastIndexIsLast(address, OPEN);
    host, port := address[..left], address[left + 1..last];
  }

  // ---- what a usable binding looks like ----

  /** The decimal digits of n, from '0' (0x30) to '9' (0x39). */
  function Digits(n: nat): (s: seq<uint16>)
    ensures s != []
  {
    (if n < 10 then [] else Digits(n / 10)) + [Digit(n)]
  }

  function Zeros(k: nat): seq<uint16> {
    seq(k, _ => 0x30)
  }

  predicate AllDigits(s: seq<uint16>) {
    forall k :: 0 <= k < |s| ==> 0x30 <= s[k] <= 0x39
  }

  lemma {:induction false} DigitsAreDigits(n: nat)
    ensures AllDigits(Digits(n))
  {
    if n >= 10 {
      DigitsAreDigits(n / 10);
    }
  }

  function Digit(n: nat): uint16 {
    (0x30 + n % 10) as uint16
  }

  lemma NumberAppends(s: seq<uint16>, n: nat)
    ensures Number(s + [Digit(n)]) == if Number(s).Some? then Some(10 * Number(s).value + n % 10) else None
  {
    assert (s + [Digit(n)])[..|s|] == s;
  }

  lemma {:induction false} ZerosAreZero(k: nat)
    ensures Number(Zeros(k)) == Some(0)
  {
    if k > 0 {
      ZerosAreZero(k - 1);
      NumberAppends(Zeros(k - 1), 0);
      assert Zeros(k) == Zeros(k - 1) + [Digit(0)];
    }
  }

  /** Numbers are read in base ten. */
  lemma {:induction false} NumberOfDigits(k: nat, n: nat)
    ensures Number(Zeros(k) + Digits(n)) == Some(n)
  {
    if n < 10 {
      ZerosAreZero(k);
      NumberAppends(Zeros(k), n);
      assert Digits(n) == [Digit(n)];
    } else {
      NumberOfDigits(k, n / 10);
      NumberAppends(Zeros(k) + Digits(n / 10), n);
      assert Zeros(k) + Digits(n) == Zeros(k) + Digits(n / 10) + [Digit(n)];
    }
  }

  lemma {:induction false} NumberAcceptsDigits(s: seq<uint16>)
    ensures Number(s).Some? <==> AllDigits(s)
  {
    if s != [] {
      NumberAcceptsDigits(s[..|s| - 1]);
    }
  }

  lemma DigitsAppend(n: nat, d: nat)
    requires d < 10 && n > 0
    ensures Digits(10 * n + d) == Digits(n) + [Digit(d)]
  {}

  lemma AppendShape(k: nat, n: nat, d: nat) returns (j: nat)
    requires d < 10
    ensures Zeros(k) + Digits(n) + [Digit(d)] == Zeros(j) + Digits(10 * n + d)
  {
    if n == 0 {
      assert Digits(0) == [Digit(0)] && Digits(d) == [Digit(d)];
      j := k + 1;
    } else {
      DigitsAppend(n, d);
      j := k;
    }
  }

  /** A digit string is the digits of its number after some zeros. */
  lemma {:induction false} NumberShape(s: seq<uint16>) returns (k: nat)
    requires s != [] && Number(s).Some?
    ensures s == Zeros(k) + Digits(Number(s).value)
    decreases |s|
  {
    var front, d := s[..|s| - 1], (s[|s| - 1] - 0x30) as nat;
    assert s == front + [Digit(d)];
    NumberAppends(front, d);
    if front == [] {
      k := 0;
      assert Digits(d) == [Digit(d)];
    } else {
      var n := Number(front).value;
      k := NumberShape(front);
      k := AppendShape(k, n, d);
    }
  }

  /** A string binding over TCP with an endpoint n: tower 7 and an address host[n], where n is
      between 1 and 65535, in decimal and possibly after zeros. */
  ghost predicate Denotes(b: Binding, n: nat) {
    && b.tower == 0x07 && 1 <= n <= 65535
    && exists host, k :: b.address == host + [0x5b] + (Zeros(k) + Digits(n)) + [0x5d]
  }

  /** Exactly the bindings with an endpoint are usable. */
  lemma UsableExactly(b: Binding, n: nat)
    ensures Usable(b) == Some(n) <==> Denotes(b, n)
  {
    if Usable(b) == Some(n) {
      var host, port := UsableOnlyBracketed(b.address);
      var k := NumberShape(port);
      assert b.address == host + [0x5b] + (Zeros(k) + Digits(n)) + [0x5d];
    }
    if Denotes(b, n) {
      var host, k :| b.address == host + [0x5b] + (Zeros(k) + Digits(n)) + [0x5d];
      NumberOfDigits(k, n);
      NumberAcceptsDigits(Zeros(k) + Digits(n));
      UsableAddress(host, Zeros(k) + Digits(n));
    }
  }

  ghost predicate HasEndpoint(b: Binding) {
    exists n: nat :: Denotes(b, n)
  }

  lemma UsableEndpoint(b: Binding)
    ensures Usable(b).Some? <==> HasEndpoint(b)
    ensures Usable(b).Some? ==> Denotes(b, Usable(b).value)
  {
    if Usable(b).Some? {
      UsableExactly(b, Usable(b).value);
    }
    if n: nat :| Denotes(b, n) {
      UsableExactly(b, n);
    }
  }

  /** Binding k has endpoint n, and none before it has one. */
  ghost predicate FirstEndpoint(bs: seq<Binding>, k: nat, n: nat) {
    k < |bs| && Denotes(bs[k], n) && forall j :: 0 <= j < k ==> !HasEndpoint(bs[j])
  }

  lemma FirstIsEndpoint(bs: seq<Binding>, k: nat)
    requires FirstAt(bs, Usable, k)
    ensures FirstEndpoint(bs, k, FirstPort(bs, Usable).value)
  {
    UsableEndpoint(bs[k]);
    forall j | 0 <= j < k
      ensures !HasEndpoint(bs[j])
    {
      UsableEndpoint(bs[j]);
    }
  }

  /** The TCP port of an object exporter: for any list of bindings, the endpoint of the first one
      that has one, and an error exactly when none has. */
  lemma PortIsFirstEndpoint(bs: seq<Binding>, after: seq<uint16>)
    requires forall k :: 0 <= k < |bs| ==> Proper(bs[k])
    ensures match Scan(Encode(bs) + [0] + after, Usable)
            case Port(n) => exists k: nat :: FirstEndpoint(bs, k, n)
            case NoEndpoint => forall k :: 0 <= k < |bs| ==> !HasEndpoint(bs[k])
            case _ => false
  {
    EncodedBindings(bs, after);
    if FirstPort(bs, Usable).Some? {
      FirstPortIsFirst(bs, Usable);
      var k: nat :| FirstAt(bs, Usable, k);
      FirstIsEndpoint(bs, k);
    } else {
      forall k | 0 <= k < |bs|
        ensures !HasEndpoint(bs[k])
      {
        UsableEndpoint(bs[k]);
      }
    }
  }
}
