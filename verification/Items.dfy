/** The items registered in one group and the batch operations on them.

    The methods run while the caller holds the group's gate.  What the caller checked before
    (group found, gate acquired, keepalive healthy) arrives as the parameter refused. */
module Items {
  import opened Wrappers
  import opened Words
  import opened Automation
  import opened Batch
  import opened Collections

  type ItemId = Bytes

  const MAX_CLIENT := 0xffff_ffff

  datatype OpError = Refused | CallLost | CallRefused(code: int32) | MissingArrays | HandlesExhausted

  datatype Registration = Registration(handle: uint32, client: nat, rights: uint32, canonical: uint16)

  /** One entry of an AddItems reply. */
  datatype AddedItem = AddedItem(handle: uint32, rights: uint32, canonical: uint16)

  datatype RpcKind = AddRpc | ReadRpc | WriteRpc | RemoveRpc

  /** What an RPC says about one item. */
  datatype Arg = Client(client: nat) | Handle(handle: uint32) | Assign(handle: uint32, value: Variant)

  /** An RPC on the wire: the items of one chunk, with their client handles for AddItems, their
      server handles for Read and RemoveItems, and the values for Write. */
  datatype Rpc = Rpc(kind: RpcKind, ids: seq<ItemId>, args: seq<Arg>)

  /** The RPCs that carry the first m of the given items, at most 1000 in each. */
  function Calls(kind: RpcKind, ids: seq<ItemId>, args: seq<Arg>, m: nat): seq<Rpc>
    requires m <= |ids| == |args|
  {
    if m == 0 then []
    else
      var start := Start(ChunkOf(m - 1));
      Calls(kind, ids, args, start) + [Rpc(kind, ids[start..m], args[start..m])]
  }

  lemma CallsStep(kind: RpcKind, ids: seq<ItemId>, args: seq<Arg>, c: nat)
    requires |ids| == |args| && Start(c) < |ids|
    ensures var start, end := Start(c), End(|ids|, c);
            Calls(kind, ids, args, end) ==
            Calls(kind, ids, args, start) + [Rpc(kind, ids[start..end], args[start..end])]
  {
    assert Start(ChunkOf(End(|ids|, c) - 1)) == Start(c);
  }

  /** The items in a list of RPCs, in the order in which they were sent. */
  function Carried(calls: seq<Rpc>): seq<ItemId> {
    if calls == [] then [] else Carried(calls[..|calls| - 1]) + calls[|calls| - 1].ids
  }

  function CarriedArgs(calls: seq<Rpc>): seq<Arg> {
    if calls == [] then [] else CarriedArgs(calls[..|calls| - 1]) + calls[|calls| - 1].args
  }

  predicate Proper(call: Rpc) {
    1 <= |call.ids| <= 1000 && |call.args| == |call.ids|
  }

  /** No RPC is empty or has more than 1000 items, and together they carry the first m items,
      each once and with its own argument. */
  lemma {:induction false} CallsCarry(kind: RpcKind, ids: seq<ItemId>, args: seq<Arg>, m: nat)
    requires m <= |ids| == |args|
    ensures var calls := Calls(kind, ids, args, m);
            && Carried(calls) == ids[..m] && CarriedArgs(calls) == args[..m]
            && forall i :: 0 <= i < |calls| ==> calls[i].kind == kind && Proper(calls[i])
  {
    if m > 0 {
      var start := Start(ChunkOf(m - 1));
      CallsCarry(kind, ids, args, start);
      var before, last := Calls(kind, ids, args, start), Rpc(kind, ids[start..m], args[start..m]);
      var calls := before + [last];
      assert Calls(kind, ids, args, m) == calls;
      assert calls[..|calls| - 1] == before && calls[|calls| - 1] == last;
      assert Carried(calls) == ids[..start] + ids[start..m] == ids[..m];
      assert CarriedArgs(calls) == args[..start] + args[start..m] == args[..m];
      assert Proper(last);
    }
  }

  lemma {:induction false} CallsCount(kind: RpcKind, ids: seq<ItemId>, args: seq<Arg>, m: nat)
    requires m <= |ids| == |args|
    ensures |Calls(kind, ids, args, m)| == (m + 999) / 1000
  {
    if m > 0 {
      var c := ChunkOf(m - 1);
      CallsCount(kind, ids, args, Start(c));
      assert (Start(c) + 999) / 1000 == c && (m + 999) / 1000 == c + 1;
    }
  }

  /** All RPCs but the last are full: the i-th carries 1000 items from the 1000 i-th on. */
  lemma {:induction false} CallAt(kind: RpcKind, ids: seq<ItemId>, args: seq<Arg>, m: nat, i: nat)
    requires m <= |ids| == |args| && 1000 * i < m
    ensures var calls, end := Calls(kind, ids, args, m), Least(1000 * i + 1000, m);
            && i < |calls| == (m + 999) / 1000
            && calls[i] == Rpc(kind, ids[1000 * i..end], args[1000 * i..end])
  {
    var c := ChunkOf(m - 1);
    CallsCount(kind, ids, args, m);
    CallsCount(kind, ids, args, Start(c));
    assert (Start(c) + 999) / 1000 == c;
    if i < c {
      assert 1000 * i < Start(c);
      CallAt(kind, ids, args, Start(c), i);
    }
  }

  function ClientArgs(clients: seq<nat>): seq<Arg> {
    seq(|clients|, i requires 0 <= i < |clients| => Client(clients[i]))
  }

  /** The client handles that n items get when the counter stands at next. */
  function Clients(next: nat, n: nat): seq<nat> {
    seq(n, i => next + 1 + i)
  }

  /** The error of a chunk that does not complete. */
  function ChunkError<T>(n: nat, limit: nat, reply: nat -> Reply<T>, c: nat): Option<OpError> {
    if End(n, c) > limit then Some(HandlesExhausted)
    else
      match reply(c)
      case Lost => Some(CallLost)
      case Replied(h, _, _) => if h < 0 then Some(CallRefused(h)) else Some(MissingArrays)
  }

  /** The error a batch returns: that of the chunk it stopped at. */
  function StopError<T>(n: nat, limit: nat, reply: nat -> Reply<T>, arrays: bool): Option<OpError> {
    var c := Stop(n, limit, reply, arrays, 0);
    if Start(c) >= n then None else ChunkError(n, limit, reply, c)
  }

  /** A batch that returns no error has an answer for every item. */
  lemma StopErrorCases<T>(n: nat, limit: nat, reply: nat -> Reply<T>, arrays: bool)
    ensures StopError(n, limit, reply, arrays).None? <==> Confirmed(n, limit, reply, arrays) == n
  {
    StopIsFirst(n, limit, reply, arrays, 0, Stop(n, limit, reply, arrays, 0));
  }

  /** The error of a batch, from the reply to the first request without a complete answer. */
  lemma StopErrorIs<T>(n: nat, limit: nat, reply: nat -> Reply<T>, arrays: bool)
    ensures var d, e := Confirmed(n, limit, reply, arrays), StopError(n, limit, reply, arrays);
            var size := Least(n - d, 1000);
            if d == n then e == None
            else if d + size > limit then e == Some(HandlesExhausted)
            else
              var r := reply(d / 1000);
              if r.Lost? then e == Some(CallLost)
              else if r.hresult < 0 then e == Some(CallRefused(r.hresult))
              else e == Some(MissingArrays) && (|r.errors| != size || (arrays && |r.states| != size))
  {
    StopIsFirst(n, limit, reply, arrays, 0, Stop(n, limit, reply, arrays, 0));
  }

  /** The code of a confirmed item is the one at its place in the reply to its request. */
  lemma CodeIs<T>(n: nat, limit: nat, reply: nat -> Reply<T>, arrays: bool, p: nat)
    requires p < Confirmed(n, limit, reply, arrays)
    ensures var r := reply(p / 1000);
            && |AllCodes(n, limit, reply, arrays)| == Confirmed(n, limit, reply, arrays)
            && r.Replied? && r.hresult >= 0 && p % 1000 < |r.errors|
            && AllCodes(n, limit, reply, arrays)[p] == r.errors[p % 1000]
  {
    ConfirmedIsAnswered(n, limit, reply, arrays, p);
    CodesIndex(n, limit, reply, arrays, Confirmed(n, limit, reply, arrays), p);
  }

  // ---- adding ----

  predicate ValidItemId(id: ItemId) {
    id != [] && 0 !in id && ValidUtf8(id)
  }

  /** The valid unregistered ids in order of first occurrence. */
  function Pending(items: map<ItemId, Registration>, ids: seq<ItemId>): seq<ItemId> {
    if ids == [] then []
    else
      var front := Pending(items, ids[..|ids| - 1]);
      var id := ids[|ids| - 1];
      if ValidItemId(id) && id !in items && id !in front then front + [id] else front
  }

  datatype AddAnswer = Item(id: ItemId, client: nat, handle: uint32) | InvalidId | NotAdded | Rejected(code: int32)

  function PublicItem(id: ItemId, r: Registration): AddAnswer {
    Item(id, r.client, r.handle)
  }

  /** The registrations of a group.  The list order is the simple specification of the order in
      which items were registered; the program keeps only the map and the counter. */
  datatype Registry = Registry(items: map<ItemId, Registration>, next: nat, order: seq<ItemId>)

  function AddLimit(next: nat): nat {
    if next <= MAX_CLIENT then MAX_CLIENT - next else 0
  }

  /** What a confirmed answer says about one pending item. */
  datatype AddOutcome = Accepted(r: Registration) | Denied(code: int32)

  function OutcomeAt(n: nat, next: nat, reply: nat -> Reply<AddedItem>, p: nat): AddOutcome
    requires p < Confirmed(n, AddLimit(next), reply, true)
  {
    ConfirmedIsAnswered(n, AddLimit(next), reply, true, p);
    var e := ItemError(n, AddLimit(next), reply, true, p);
    var a := reply(ChunkOf(p)).states[Offset(p)];
    if e < 0 then Denied(e) else Accepted(Registration(a.handle, next + 1 + p, a.rights, a.canonical))
  }

  /** The outcomes of the first d pending items. */
  function Outcomes(n: nat, next: nat, reply: nat -> Reply<AddedItem>, d: nat): (os: seq<AddOutcome>)
    requires d <= Confirmed(n, AddLimit(next), reply, true)
    ensures |os| == d
  {
    if d == 0 then [] else Outcomes(n, next, reply, d - 1) + [OutcomeAt(n, next, reply, d - 1)]
  }

  /** The registry after the outcomes of the first pending ids. */
  function Register(r: Registry, pending: seq<ItemId>, os: seq<AddOutcome>): Registry
    requires |os| <= |pending|
  {
    if os == [] then r
    else
      var d := |os| - 1;
      var before := Register(r, pending, os[..d]);
      if os[d].Denied? then before
      else before.(items := before.items[pending[d] := os[d].r], order := before.order + [pending[d]])
  }

  /** The refusals among them. */
  function Refusals(pending: seq<ItemId>, os: seq<AddOutcome>): map<ItemId, int32>
    requires |os| <= |pending|
  {
    if os == [] then map[]
    else
      var d := |os| - 1;
      var before := Refusals(pending, os[..d]);
      if os[d].Denied? then before[pending[d] := os[d].code] else before
  }

  function NextClient(r: Registry, n: nat, reply: nat -> Reply<AddedItem>): nat {
    if StopError(n, AddLimit(r.next), reply, true) == Some(HandlesExhausted) then MAX_CLIENT
    else r.next + Sent(n, AddLimit(r.next), reply, true)
  }

  function AllOutcomes(r: Registry, n: nat, reply: nat -> Reply<AddedItem>): (os: seq<AddOutcome>)
    ensures |os| <= n
  {
    Outcomes(n, r.next, reply, Confirmed(n, AddLimit(r.next), reply, true))
  }

  function Add(r: Registry, ids: seq<ItemId>, reply: nat -> Reply<AddedItem>): Registry {
    var pending := Pending(r.items, ids);
    Register(r, pending, AllOutcomes(r, |pending|, reply)).(next := NextClient(r, |pending|, reply))
  }

  /** The answer for one requested id: it depends on the id alone, so equal ids get equal answers. */
  function AnswerFor(id: ItemId, items: map<ItemId, Registration>, refusals: map<ItemId, int32>): AddAnswer {
    if !ValidItemId(id) then InvalidId
    else if id in items then PublicItem(id, items[id])
    else if id in refusals then Rejected(refusals[id])
    else NotAdded
  }

  /** The list is strictly increasing in the client handle. */
  ghost predicate Increasing(items: map<ItemId, Registration>, order: seq<ItemId>) {
    && (forall i :: 0 <= i < |order| ==> order[i] in items)
    && (forall i, j :: 0 <= i < j < |order| ==> items[order[i]].client < items[order[j]].client)
  }

  /** Client handles are distinct and bounded, and the registration list is the map sorted by them. */
  ghost predicate Sound(r: Registry) {
    && r.next <= MAX_CLIENT
    && Increasing(r.items, r.order)
    && (forall id :: id in r.items ==> id in r.order && ValidItemId(id) && 1 <= r.items[id].client <= r.next)
  }

  lemma {:induction false} PendingFacts(items: map<ItemId, Registration>, ids: seq<ItemId>)
    ensures Distinct(Pending(items, ids))
    ensures forall id :: id in Pending(items, ids) <==> id in ids && ValidItemId(id) && id !in items
  {
    if ids != [] {
      var front := ids[..|ids| - 1];
      PendingFacts(items, front);
      assert ids == front + [ids[|ids| - 1]];
    }
  }

  /** Accepted items carry the client handles that follow the counter, in order. */
  ghost predicate Numbered(next: nat, os: seq<AddOutcome>) {
    && next + |os| <= MAX_CLIENT
    && forall p :: 0 <= p < |os| && os[p].Accepted? ==> os[p].r.client == next + 1 + p
  }

  ghost predicate Fresh(r: Registry, pending: seq<ItemId>) {
    Distinct(pending) && forall p :: 0 <= p < |pending| ==> pending[p] !in r.items && ValidItemId(pending[p])
  }

  /** What registering does to the map: it keeps every entry and adds exactly the accepted items
      with what the server answered. */
  lemma {:induction false} RegisterItems(r: Registry, pending: seq<ItemId>, os: seq<AddOutcome>)
    requires Fresh(r, pending) && |os| <= |pending|
    ensures var q := Register(r, pending, os).items;
            && (forall id :: id in r.items ==> id in q && q[id] == r.items[id])
            && (forall p :: 0 <= p < |os| ==>
                  (pending[p] in q <==> os[p].Accepted?) && (os[p].Accepted? ==> q[pending[p]] == os[p].r))
            && (forall id :: id in q && id !in r.items ==> id in pending[..|os|])
    decreases |os|
  {
    if os != [] {
      var d := |os| - 1;
      RegisterItems(r, pending, os[..d]);
      assert pending[..d + 1] == pending[..d] + [pending[d]];
    }
  }

  /** Registering keeps the registry sound and appends to the list. */
  lemma {:induction false} RegisterSound(r: Registry, pending: seq<ItemId>, os: seq<AddOutcome>)
    requires Sound(r) && Fresh(r, pending) && |os| <= |pending| && Numbered(r.next, os)
    ensures Sound(Register(r, pending, os).(next := r.next + |os|)) && r.order <= Register(r, pending, os).order
    decreases |os|
  {
    if os != [] {
      RegisterSound(r, pending, os[..|os| - 1]);
      RegisterSoundStep(r, pending, os);
    }
  }

  lemma RegisterSoundStep(r: Registry, pending: seq<ItemId>, os: seq<AddOutcome>)
    requires Fresh(r, pending) && 0 < |os| <= |pending| && Numbered(r.next, os)
    requires var before := Register(r, pending, os[..|os| - 1]);
             Sound(before.(next := r.next + |os| - 1)) && r.order <= before.order
    ensures Sound(Register(r, pending, os).(next := r.next + |os|)) && r.order <= Register(r, pending, os).order
  {
    var d := |os| - 1;
    var q := Register(r, pending, os[..d]);
    RegisterItems(r, pending, os[..d]);
    assert pending[d] !in q.items;
    if os[d].Accepted? {
      RegisterOne(q.(next := r.next + d), pending[d], os[d].r);
    } else {
      SoundAbove(q, r.next + d, r.next + |os|);
    }
  }

  lemma RegisterOne(q: Registry, id: ItemId, e: Registration)
    requires Sound(q) && id !in q.items && ValidItemId(id) && q.next < MAX_CLIENT && e.client == q.next + 1
    ensures Sound(Registry(q.items[id := e], q.next + 1, q.order + [id]))
  {
    var items, order := q.items[id := e], q.order + [id];
    forall i | 0 <= i < |q.order|
      ensures order[i] == q.order[i] && order[i] in items && items[order[i]] == q.items[q.order[i]]
    {}
    forall i, j | 0 <= i < j < |order|
      ensures items[order[i]].client < items[order[j]].client
    {
      if j == |q.order| {
        assert q.items[q.order[i]].client <= q.next;
      }
    }
    assert Increasing(items, order);
    assert id in order;
  }

  lemma {:induction false} OutcomesIndex(n: nat, next: nat, reply: nat -> Reply<AddedItem>, d: nat, p: nat)
    requires p < d <= Confirmed(n, AddLimit(next), reply, true)
    ensures Outcomes(n, next, reply, d)[p] == OutcomeAt(n, next, reply, p)
  {
    if p < d - 1 {
      OutcomesIndex(n, next, reply, d - 1, p);
    }
  }

  lemma OutcomesNumbered(r: Registry, n: nat, reply: nat -> Reply<AddedItem>)
    requires r.next <= MAX_CLIENT
    ensures Numbered(r.next, AllOutcomes(r, n, reply))
  {
    var d := Confirmed(n, AddLimit(r.next), reply, true);
    if d > 0 {
      ConfirmedIsAnswered(n, AddLimit(r.next), reply, true, d - 1);
    }
    forall p | 0 <= p < d && AllOutcomes(r, n, reply)[p].Accepted?
      ensures AllOutcomes(r, n, reply)[p].r.client == r.next + 1 + p
    {
      OutcomesIndex(n, r.next, reply, d, p);
    }
  }

  lemma RegisteredAbove(r: Registry, pending: seq<ItemId>, os: seq<AddOutcome>, id: ItemId)
    requires Fresh(r, pending) && |os| <= |pending| && Numbered(r.next, os)
    requires id in Register(r, pending, os).items && id !in r.items
    ensures id in pending && r.next < Register(r, pending, os).items[id].client
  {
    RegisterItems(r, pending, os);
    var p :| 0 <= p < |os| && pending[p] == id;
  }

  lemma SoundAbove(q: Registry, low: nat, high: nat)
    requires Sound(q.(next := low)) && low <= high <= MAX_CLIENT
    ensures Sound(q.(next := high))
  {}

  /** Adding keeps every registration, gives new ones client handles above the old counter, and
      keeps the registration list the map sorted by client handle. */
  lemma AddKeepsSound(r: Registry, ids: seq<ItemId>, reply: nat -> Reply<AddedItem>)
    requires Sound(r)
    ensures Sound(Add(r, ids, reply)) && r.next <= Add(r, ids, reply).next
    ensures forall id :: id in r.items ==> id in Add(r, ids, reply).items && Add(r, ids, reply).items[id] == r.items[id]
    ensures forall id :: id in Add(r, ids, reply).items && id !in r.items ==>
              id in ids && r.next < Add(r, ids, reply).items[id].client
    ensures r.order <= Add(r, ids, reply).order
  {
    var pending := Pending(r.items, ids);
    var os := AllOutcomes(r, |pending|, reply);
    PendingFacts(r.items, ids);
    OutcomesNumbered(r, |pending|, reply);
    RegisterSound(r, pending, os);
    RegisterItems(r, pending, os);
    NextClientCovers(r, |pending|, reply);
    var q := Register(r, pending, os);
    SoundAbove(q, r.next + |os|, NextClient(r, |pending|, reply));
    forall id | id in q.items && id !in r.items
      ensures id in ids && r.next < q.items[id].client
    {
      RegisteredAbove(r, pending, os, id);
    }
  }

  /** Every client handle that was put in some request is used up, whatever came back. */
  lemma SentIsCovered(r: Registry, n: nat, reply: nat -> Reply<AddedItem>)
    requires r.next <= MAX_CLIENT
    ensures r.next + Sent(n, AddLimit(r.next), reply, true) <= NextClient(r, n, reply) <= MAX_CLIENT
  {
    var l := AddLimit(r.next);
    var d := Confirmed(n, l, reply, true);
    if d > 0 {
      ConfirmedIsAnswered(n, l, reply, true, d - 1);
    }
    StopIsFirst(n, l, reply, true, 0, Stop(n, l, reply, true, 0));
  }

  lemma NextClientCovers(r: Registry, n: nat, reply: nat -> Reply<AddedItem>)
    requires r.next <= MAX_CLIENT
    ensures r.next + Confirmed(n, AddLimit(r.next), reply, true) <= NextClient(r, n, reply) <= MAX_CLIENT
  {
    SentIsCovered(r, n, reply);
  }

  /** The p-th pending item got a complete answer with this entry and code. */
  ghost predicate AnsweredWith(n: nat, next: nat, reply: nat -> Reply<AddedItem>, p: nat, s: AddedItem, code: int32) {
    var r := reply(p / 1000);
    && p < Confirmed(n, AddLimit(next), reply, true)
    && r.Replied? && r.hresult >= 0 && p % 1000 < |r.states| == |r.errors|
    && r.states[p % 1000] == s && r.errors[p % 1000] == code
  }

  /** What an accepted item is registered with: the handle, rights and type of its own entry of the
      reply, and the client handle that was sent for it. */
  predicate RegisteredAs(e: Registration, s: AddedItem, client: nat) {
    && e.handle == s.handle && e.rights == s.rights && e.canonical == s.canonical
    && e.client == client
  }

  /** The p-th pending item is registered exactly if it was answered without an error. */
  ghost predicate Settled(next: nat, pending: seq<ItemId>, reply: nat -> Reply<AddedItem>,
                          items: map<ItemId, Registration>, refusals: map<ItemId, int32>, p: nat)
    requires p < |pending|
  {
    var n, id := |pending|, pending[p];
    if p < Confirmed(n, AddLimit(next), reply, true) then
      exists s, code ::
        && AnsweredWith(n, next, reply, p, s, code)
        && (id in items <==> code >= 0)
        && (code >= 0 ==> RegisteredAs(items[id], s, next + 1 + p))
        && (id in refusals <==> code < 0)
        && (code < 0 ==> refusals[id] == code)
    else id !in items && id !in refusals
  }

  /** The refusals are those of the refused items. */
  lemma {:induction false} RefusalsFacts(pending: seq<ItemId>, os: seq<AddOutcome>)
    requires Distinct(pending) && |os| <= |pending|
    ensures var f := Refusals(pending, os);
            && (forall p :: 0 <= p < |os| ==>
                  (pending[p] in f <==> os[p].Denied?) && (os[p].Denied? ==> f[pending[p]] == os[p].code))
            && (forall id :: id in f ==> id in pending[..|os|])
    decreases |os|
  {
    if os != [] {
      var d := |os| - 1;
      RefusalsFacts(pending, os[..d]);
      assert pending[..d + 1] == pending[..d] + [pending[d]];
    }
  }

  lemma OutcomeIsAnswered(n: nat, next: nat, reply: nat -> Reply<AddedItem>, p: nat)
    returns (s: AddedItem, code: int32)
    requires p < Confirmed(n, AddLimit(next), reply, true)
    ensures AnsweredWith(n, next, reply, p, s, code)
    ensures var o := OutcomeAt(n, next, reply, p);
            && (o.Denied? <==> code < 0) && (o.Denied? ==> o.code == code)
            && (o.Accepted? ==> RegisteredAs(o.r, s, next + 1 + p))
  {
    ConfirmedIsAnswered(n, AddLimit(next), reply, true, p);
    s, code := reply(p / 1000).states[p % 1000], reply(p / 1000).errors[p % 1000];
  }

  lemma UnansweredIsNotSettled(pending: seq<ItemId>, d: nat, p: nat)
    requires Distinct(pending) && d <= p < |pending|
    ensures pending[p] !in pending[..d]
  {}

  /** After an add each pending item is settled by its own answer. */
  lemma AddSettles(r: Registry, pending: seq<ItemId>, reply: nat -> Reply<AddedItem>, os: seq<AddOutcome>, p: nat)
    requires Fresh(r, pending) && p < |pending| && os == AllOutcomes(r, |pending|, reply)
    ensures Settled(r.next, pending, reply, Register(r, pending, os).items, Refusals(pending, os), p)
  {
    RegisterItems(r, pending, os);
    RefusalsFacts(pending, os);
    if p < |os| {
      OutcomesIndex(|pending|, r.next, reply, |os|, p);
      var s, code := OutcomeIsAnswered(|pending|, r.next, reply, p);
      assert os[p] == OutcomeAt(|pending|, r.next, reply, p);
    } else {
      UnansweredIsNotSettled(pending, |os|, p);
    }
  }

  /** The answers of an add, position by position: an id that cannot be an item id is invalid, a
      registered one is answered with its registration, a refused one with its code, and only the
      others are left open. */
  ghost predicate AnswersAdd(out: seq<AddAnswer>, ids: seq<ItemId>, items: map<ItemId, Registration>,
                             refusals: map<ItemId, int32>)
  {
    |out| == |ids| && forall k :: 0 <= k < |ids| ==> AnswersOne(out[k], ids[k], items, refusals)
  }

  predicate AnswersOne(a: AddAnswer, id: ItemId, items: map<ItemId, Registration>, refusals: map<ItemId, int32>) {
    var valid := id != [] && 0 !in id && ValidUtf8(id);
    && (a.InvalidId? <==> !valid)
    && (a.Item? <==> valid && id in items)
    && (a.Item? ==> a.id == id && a.client == items[id].client && a.handle == items[id].handle)
    && (a.Rejected? <==> valid && id !in items && id in refusals)
    && (a.Rejected? ==> a.code == refusals[id])
  }

  // ---- removing ----

  datatype RemoveError = Preflight(e: OpError) | NotConfirmed(e: OpError) | RemoveRefused(code: int32)

  /** The registered ids in order of first occurrence. */
  function Registered(items: map<ItemId, Registration>, ids: seq<ItemId>): seq<ItemId> {
    if ids == [] then []
    else
      var front := Registered(items, ids[..|ids| - 1]);
      var id := ids[|ids| - 1];
      if id in items && id !in front then front + [id] else front
  }

  function Erase(order: seq<ItemId>, id: ItemId): seq<ItemId> {
    if order == [] then []
    else if order[0] == id then order[1..]
    else [order[0]] + Erase(order[1..], id)
  }

  /** The registry after the codes answered for the first known ids. */
  function Unregister(r: Registry, known: seq<ItemId>, codes: seq<int32>): Registry
    requires |codes| <= |known|
  {
    if codes == [] then r
    else
      var d := |codes| - 1;
      var before := Unregister(r, known, codes[..d]);
      if codes[d] < 0 then before
      else before.(items := before.items - {known[d]}, order := Erase(before.order, known[d]))
  }

  function Remove(r: Registry, ids: seq<ItemId>, reply: nat -> Reply<()>): Registry {
    var known := Registered(r.items, ids);
    Unregister(r, known, AllCodes(|known|, |known|, reply, false))
  }

  lemma {:induction false} RegisteredFacts(items: map<ItemId, Registration>, ids: seq<ItemId>)
    ensures Distinct(Registered(items, ids))
    ensures forall id :: id in Registered(items, ids) <==> id in ids && id in items
  {
    if ids != [] {
      var front := ids[..|ids| - 1];
      RegisteredFacts(items, front);
      assert ids == front + [ids[|ids| - 1]];
    }
  }

  lemma {:induction false} EraseMembers(order: seq<ItemId>, id: ItemId)
    requires Distinct(order)
    ensures forall x :: x in Erase(order, id) <==> x in order && x != id
  {
    if order != [] {
      assert order == [order[0]] + order[1..];
      EraseMembers(order[1..], id);
    }
  }

  /** Deleting from the list keeps the order of the rest. */
  lemma {:induction false} EraseIncreasing(items: map<ItemId, Registration>, order: seq<ItemId>, id: ItemId)
    requires Increasing(items, order)
    ensures Increasing(items, Erase(order, id))
  {
    if order != [] && order[0] != id {
      var rest := order[1..];
      assert forall i :: 0 <= i < |rest| ==> rest[i] == order[i + 1];
      EraseIncreasing(items, rest, id);
      IncreasingDistinct(items, rest);
      EraseMembers(rest, id);
      var w := Erase(rest, id);
      forall j | 0 <= j < |w|
        ensures w[j] in items && items[order[0]].client < items[w[j]].client
      {
        assert w[j] in w;
        var k :| 0 <= k < |rest| && rest[k] == w[j];
      }
    }
  }

  lemma IncreasingDistinct(items: map<ItemId, Registration>, order: seq<ItemId>)
    requires Increasing(items, order)
    ensures Distinct(order)
  {}

  lemma RemoveOne(r: Registry, id: ItemId)
    requires Sound(r)
    ensures Sound(Registry(r.items - {id}, r.next, Erase(r.order, id)))
  {
    var items, order := r.items - {id}, Erase(r.order, id);
    IncreasingDistinct(r.items, r.order);
    EraseMembers(r.order, id);
    EraseIncreasing(r.items, r.order, id);
    forall i | 0 <= i < |order|
      ensures order[i] in items && items[order[i]] == r.items[order[i]]
    {
      assert order[i] in order;
    }
    assert Increasing(items, order);
  }

  /** Removing deletes exactly the confirmed items and changes no other registration. */
  lemma {:induction false} UnregisterItems(r: Registry, known: seq<ItemId>, codes: seq<int32>)
    requires Distinct(known) && |codes| <= |known|
    requires forall p :: 0 <= p < |known| ==> known[p] in r.items
    ensures var q := Unregister(r, known, codes);
            && q.next == r.next
            && (forall p :: 0 <= p < |codes| ==> (known[p] in q.items <==> codes[p] < 0))
            && (forall p :: |codes| <= p < |known| ==> known[p] in q.items)
            && (forall id :: id in q.items ==> id in r.items && q.items[id] == r.items[id])
            && (forall id :: id in r.items && id !in known ==> id in q.items)
    decreases |codes|
  {
    if codes != [] {
      UnregisterItems(r, known, codes[..|codes| - 1]);
    }
  }

  /** Removing keeps the registry sound. */
  lemma {:induction false} UnregisterSound(r: Registry, known: seq<ItemId>, codes: seq<int32>)
    requires Sound(r) && |codes| <= |known|
    ensures Sound(Unregister(r, known, codes))
    decreases |codes|
  {
    if codes != [] {
      var d := |codes| - 1;
      UnregisterSound(r, known, codes[..d]);
      RemoveOne(Unregister(r, known, codes[..d]), known[d]);
    }
  }
}
