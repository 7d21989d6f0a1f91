/** Splitting a request into RPCs of at most 1000 items against an arbitrary server. */
module Batch {
  import opened Words

  /** Chunk c holds the items from Start(c) up to End(n, c), at most 1000 of them. */
  function Start(c: nat): nat {
    1000 * c
  }

  function Least(a: nat, b: nat): nat {
    if a < b then a else b
  }

  function ChunkOf(p: nat): nat {
    p / 1000
  }

  function Offset(p: nat): nat {
    p % 1000
  }

  /** What one RPC of a batch comes back with.  Lost covers every transport or decoding error; the
      call may or may not have taken effect.  The arrays of a reply can have any length. */
  datatype Reply<T> =
    | Lost
    | Replied(hresult: int32, states: seq<T>, errors: seq<int32>)

  /** A reply that answers each of size items. */
  predicate Answers<T>(r: Reply<T>, size: nat, arrays: bool) {
    r.Replied? && r.hresult >= 0 && |r.errors| == size && (arrays ==> |r.states| == size)
  }

  /** The end of chunk c of n items. */
  function End(n: nat, c: nat): nat {
    Least(Start(c + 1), n)
  }

  /** Chunk c can be sent when its items are within limit, and completes when it is answered. */
  predicate Completes<T>(n: nat, limit: nat, reply: nat -> Reply<T>, arrays: bool, c: nat)
    requires Start(c) < n
  {
    End(n, c) <= limit && Answers(reply(c), End(n, c) - Start(c), arrays)
  }

  /** The first chunk from c on that does not complete, or the number of chunks. */
  function Stop<T>(n: nat, limit: nat, reply: nat -> Reply<T>, arrays: bool, c: nat): (k: nat)
    ensures k >= c
    decreases n - Start(c)
  {
    if Start(c) >= n || !Completes(n, limit, reply, arrays, c) then c
    else Stop(n, limit, reply, arrays, c + 1)
  }

  lemma {:induction false} StopIsFirst<T>(n: nat, limit: nat, reply: nat -> Reply<T>, arrays: bool, c: nat, i: nat)
    requires c <= i <= Stop(n, limit, reply, arrays, c)
    ensures i < Stop(n, limit, reply, arrays, c) ==> Start(i) < n && Completes(n, limit, reply, arrays, i)
    ensures i == Stop(n, limit, reply, arrays, c) && Start(i) < n ==> !Completes(n, limit, reply, arrays, i)
    decreases n - Start(c)
  {
    if Start(c) < n && Completes(n, limit, reply, arrays, c) && c < i {
      StopIsFirst(n, limit, reply, arrays, c + 1, i);
    }
  }

  /** The number of leading items with a complete answer. */
  function Confirmed<T>(n: nat, limit: nat, reply: nat -> Reply<T>, arrays: bool): (d: nat)
    ensures d <= n
  {
    var k := Stop(n, limit, reply, arrays, 0);
    if Start(k) < n then Start(k) else n
  }

  /** The number of leading items that were put in some RPC. */
  function Sent<T>(n: nat, limit: nat, reply: nat -> Reply<T>, arrays: bool): (d: nat)
    ensures Confirmed(n, limit, reply, arrays) <= d <= n
  {
    var k := Stop(n, limit, reply, arrays, 0);
    if Start(k) >= n then n
    else if End(n, k) <= limit then End(n, k)
    else Start(k)
  }

  /** The answer of a confirmed item. */
  function ItemError<T>(n: nat, limit: nat, reply: nat -> Reply<T>, arrays: bool, p: nat): int32
    requires p < Confirmed(n, limit, reply, arrays)
  {
    ConfirmedIsAnswered(n, limit, reply, arrays, p);
    reply(ChunkOf(p)).errors[Offset(p)]
  }

  lemma ConfirmedIsAnswered<T>(n: nat, limit: nat, reply: nat -> Reply<T>, arrays: bool, p: nat)
    requires p < Confirmed(n, limit, reply, arrays)
    ensures var c := ChunkOf(p);
            && c < Stop(n, limit, reply, arrays, 0) && Start(c) < n
            && Answers(reply(c), End(n, c) - Start(c), arrays)
            && Offset(p) < End(n, c) - Start(c) && End(n, c) <= limit
  {
    StopIsFirst(n, limit, reply, arrays, 0, ChunkOf(p));
  }

  /** A chunk that completes is confirmed, and the loop goes on after it. */
  lemma StopAfter<T>(n: nat, limit: nat, reply: nat -> Reply<T>, arrays: bool, c: nat)
    requires Stop(n, limit, reply, arrays, 0) == Stop(n, limit, reply, arrays, c)
    requires Start(c) < n && Completes(n, limit, reply, arrays, c)
    ensures Stop(n, limit, reply, arrays, 0) == Stop(n, limit, reply, arrays, c + 1)
    ensures Confirmed(n, limit, reply, arrays) >= End(n, c)
  {}

  /** A batch stops before the end at a chunk boundary: at a chunk that could not be sent, or
      at the one chunk that was sent without a complete answer. */
  lemma SentIsOneChunkAhead<T>(n: nat, limit: nat, reply: nat -> Reply<T>, arrays: bool)
    ensures var d, m := Confirmed(n, limit, reply, arrays), Sent(n, limit, reply, arrays);
            var c := ChunkOf(d);
            && (d == n ==> m == n)
            && (d < n ==> d == Start(c) && (m == d || m == End(n, c)))
            && (d < m ==> !Answers(reply(c), m - d, arrays))
            && (d < n && n <= limit ==> m == End(n, c))
  {
    StopIsFirst(n, limit, reply, arrays, 0, Stop(n, limit, reply, arrays, 0));
  }

  /** The answers of the first d items. */
  function Codes<T>(n: nat, limit: nat, reply: nat -> Reply<T>, arrays: bool, d: nat): (codes: seq<int32>)
    requires d <= Confirmed(n, limit, reply, arrays)
    ensures |codes| == d
  {
    if d == 0 then []
    else Codes(n, limit, reply, arrays, d - 1) + [ItemError(n, limit, reply, arrays, d - 1)]
  }

  /** The answers of all confirmed items. */
  function AllCodes<T>(n: nat, limit: nat, reply: nat -> Reply<T>, arrays: bool): (codes: seq<int32>)
    ensures |codes| <= n
  {
    Codes(n, limit, reply, arrays, Confirmed(n, limit, reply, arrays))
  }

  lemma {:induction false} CodesIndex<T>(n: nat, limit: nat, reply: nat -> Reply<T>, arrays: bool, d: nat, p: nat)
    requires p < d <= Confirmed(n, limit, reply, arrays)
    ensures Codes(n, limit, reply, arrays, d)[p] == ItemError(n, limit, reply, arrays, p)
  {
    if p < d - 1 {
      CodesIndex(n, limit, reply, arrays, d - 1, p);
    }
  }

  /** A complete reply to chunk c appends its codes to those before. */
  lemma ChunkCodes<T>(n: nat, limit: nat, reply: nat -> Reply<T>, arrays: bool, c: nat)
    requires Start(c) < n && c < Stop(n, limit, reply, arrays, 0) && Start(c) <= Confirmed(n, limit, reply, arrays)
    requires Answers(reply(c), End(n, c) - Start(c), arrays)
    requires End(n, c) <= Confirmed(n, limit, reply, arrays)
    ensures Codes(n, limit, reply, arrays, End(n, c)) == Codes(n, limit, reply, arrays, Start(c)) + reply(c).errors
  {
    var start, end := Start(c), End(n, c);
    var before, all := Codes(n, limit, reply, arrays, start), Codes(n, limit, reply, arrays, end);
    forall p | 0 <= p < end
      ensures all[p] == (before + reply(c).errors)[p]
    {
      CodesIndex(n, limit, reply, arrays, end, p);
      if p < start {
        CodesIndex(n, limit, reply, arrays, start, p);
      } else {
        assert ChunkOf(p) == c && Offset(p) == p - start;
      }
    }
  }

  /** What stopping at chunk c, or after the last chunk, leaves. */
  lemma StopsAt<T>(n: nat, limit: nat, reply: nat -> Reply<T>, arrays: bool, c: nat)
    requires Stop(n, limit, reply, arrays, 0) == Stop(n, limit, reply, arrays, c)
    requires Start(c) >= n || !Completes(n, limit, reply, arrays, c)
    ensures Stop(n, limit, reply, arrays, 0) == c
    ensures Confirmed(n, limit, reply, arrays) == Least(Start(c), n)
    ensures AllCodes(n, limit, reply, arrays) == Codes(n, limit, reply, arrays, Least(Start(c), n))
    ensures Sent(n, limit, reply, arrays) ==
              if Start(c) >= n then n else if End(n, c) <= limit then End(n, c) else Start(c)
  {}
}
