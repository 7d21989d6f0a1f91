/** Any sequence of adds and removes on one group, whatever the server answers. */
module ItemRuns {
  import opened Batch
  import opened Items
  import opened Collections
  import opened ListSort

  datatype ItemOp =
    | AddOp(ids: seq<ItemId>, added: nat -> Reply<AddedItem>)
    | RemoveOp(ids: seq<ItemId>, removed: nat -> Reply<()>)

  function Step(r: Registry, op: ItemOp): Registry {
    match op
    case AddOp(ids, reply) => Add(r, ids, reply)
    case RemoveOp(ids, reply) => Remove(r, ids, reply)
  }

  function Run(r: Registry, ops: seq<ItemOp>): Registry {
    if ops == [] then r else Step(Run(r, ops[..|ops| - 1]), ops[|ops| - 1])
  }

  const NEW_GROUP := Registry(map[], 0, [])

  lemma RemoveFacts(r: Registry, ids: seq<ItemId>, reply: nat -> Reply<()>)
    requires Sound(r)
    ensures var q := Remove(r, ids, reply);
            && Sound(q) && q.next == r.next
            && (forall id :: id in q.items ==> id in r.items && q.items[id] == r.items[id])
            && (forall id :: id in r.items && id !in ids ==> id in q.items)
  {
    var known := Registered(r.items, ids);
    RegisteredFacts(r.items, ids);
    UnregisterItems(r, known, AllCodes(|known|, |known|, reply, false));
    UnregisterSound(r, known, AllCodes(|known|, |known|, reply, false));
  }

  lemma StepSound(r: Registry, op: ItemOp)
    requires Sound(r)
    ensures Sound(Step(r, op)) && r.next <= Step(r, op).next
  {
    match op
    case AddOp(ids, reply) => AddKeepsSound(r, ids, reply);
    case RemoveOp(ids, reply) => RemoveFacts(r, ids, reply);
  }

  /** Client handles stay distinct and bounded, and the registration list stays the map sorted by
      client handle, over every run. */
  lemma {:induction false} RunSound(r: Registry, ops: seq<ItemOp>)
    requires Sound(r)
    ensures Sound(Run(r, ops)) && r.next <= Run(r, ops).next
    decreases |ops|
  {
    if ops != [] {
      RunSound(r, ops[..|ops| - 1]);
      StepSound(Run(r, ops[..|ops| - 1]), ops[|ops| - 1]);
    }
  }

  /** A client handle is never given out again: whatever is registered later under a handle up
      to the current counter is the same item with the same registration as now. */
  lemma {:induction false} HandlesNeverReused(r: Registry, ops: seq<ItemOp>, id: ItemId)
    requires Sound(r) && id in Run(r, ops).items && Run(r, ops).items[id].client <= r.next
    ensures id in r.items && Run(r, ops).items[id] == r.items[id]
    decreases |ops|
  {
    if ops != [] {
      var front := ops[..|ops| - 1];
      var before := Run(r, front);
      RunSound(r, front);
      HandlesKept(before, ops[|ops| - 1], id);
      HandlesNeverReused(r, front, id);
    }
  }

  lemma HandlesKept(r: Registry, op: ItemOp, id: ItemId)
    requires Sound(r) && id in Step(r, op).items && Step(r, op).items[id].client <= r.next
    ensures id in r.items && Step(r, op).items[id] == r.items[id]
  {
    match op
    case AddOp(ids, reply) => AddKeepsSound(r, ids, reply);
    case RemoveOp(ids, reply) => RemoveFacts(r, ids, reply);
  }

  /** Two items never share a client handle. */
  lemma HandlesDistinct(ops: seq<ItemOp>, a: ItemId, b: ItemId)
    requires a in Run(NEW_GROUP, ops).items && b in Run(NEW_GROUP, ops).items && a != b
    ensures Run(NEW_GROUP, ops).items[a].client != Run(NEW_GROUP, ops).items[b].client
    ensures 1 <= Run(NEW_GROUP, ops).items[a].client <= MAX_CLIENT
  {
    RunSound(NEW_GROUP, ops);
    var r := Run(NEW_GROUP, ops);
    var i :| 0 <= i < |r.order| && r.order[i] == a;
    var j :| 0 <= j < |r.order| && r.order[j] == b;
  }

  /** Items registered before an add keep their place: new items are appended. */
  lemma AddAppends(r: Registry, ids: seq<ItemId>, reply: nat -> Reply<AddedItem>)
    requires Sound(r)
    ensures r.order <= Add(r, ids, reply).order
    ensures forall i :: |r.order| <= i < |Add(r, ids, reply).order| ==> Add(r, ids, reply).order[i] !in r.items
  {
    AddKeepsSound(r, ids, reply);
    var q := Add(r, ids, reply);
    IncreasingDistinct(q.items, q.order);
    forall i | |r.order| <= i < |q.order|
      ensures q.order[i] !in r.order && q.order[i] !in r.items
    {
      assert forall j :: 0 <= j < |r.order| ==> r.order[j] == q.order[j] != q.order[i];
    }
  }

  /** The list of what is left, in the order in which it was registered. */
  function Remaining(order: seq<ItemId>, items: map<ItemId, Registration>): seq<ItemId> {
    if order == [] then []
    else (if order[0] in items then [order[0]] else []) + Remaining(order[1..], items)
  }

  /** Removing keeps the others in order. */
  lemma RemoveKeepsOrder(r: Registry, ids: seq<ItemId>, reply: nat -> Reply<()>)
    requires Sound(r)
    ensures Remove(r, ids, reply).order == Remaining(r.order, Remove(r, ids, reply).items)
  {
    RemoveFacts(r, ids, reply);
    var q := Remove(r, ids, reply);
    RemainingIncreasing(r.items, r.order, q.items);
    SameOrder(r.items, q.order, Remaining(r.order, q.items));
  }

  lemma {:induction false} RemainingIncreasing(items: map<ItemId, Registration>, order: seq<ItemId>,
                                               left: map<ItemId, Registration>)
    requires Increasing(items, order)
    ensures Increasing(items, Remaining(order, left))
    ensures forall id :: id in Remaining(order, left) <==> id in order && id in left
  {
    if order != [] {
      var rest := order[1..];
      assert order == [order[0]] + rest;
      assert forall i :: 0 <= i < |rest| ==> rest[i] == order[i + 1];
      RemainingIncreasing(items, rest, left);
      var q := Remaining(rest, left);
      forall j | 0 <= j < |q|
        ensures items[order[0]].client < items[q[j]].client
      {
        assert q[j] in q;
        var k :| 0 <= k < |rest| && rest[k] == q[j];
      }
    }
  }

  lemma SameOrder(items: map<ItemId, Registration>, xs: seq<ItemId>, ys: seq<ItemId>)
    requires Increasing(items, xs) && Increasing(items, ys) && forall id :: id in xs <==> id in ys
    ensures xs == ys
  {
    var less := (a, b) => a in items && b in items && items[a].client < items[b].client;
    assert Elements(xs) == Elements(ys);
    forall x, y | x in Elements(xs) && y in Elements(xs) && x != y
      ensures less(x, y) || less(y, x)
    {
      var i :| 0 <= i < |xs| && xs[i] == x;
      var j :| 0 <= j < |xs| && xs[j] == y;
    }
    OrderedUnique(less, xs, ys);
  }

  /** Only unregistered ids are sent to AddItems, each once. */
  lemma NothingResent(r: Registry, ids: seq<ItemId>, reply: nat -> Reply<AddedItem>)
    ensures var sent := Carried(AddRequests(r, ids, reply));
            && Distinct(sent)
            && forall id :: id in sent ==> id in ids && id !in r.items
  {
    var pending := Pending(r.items, ids);
    var n := |pending|;
    PendingFacts(r.items, ids);
    CallsCarry(AddRpc, pending, ClientArgs(Clients(r.next, n)), Sent(n, AddLimit(r.next), reply, true));
  }

  /** The requests of one add. */
  function AddRequests(r: Registry, ids: seq<ItemId>, reply: nat -> Reply<AddedItem>): seq<Rpc> {
    var pending := Pending(r.items, ids);
    var n := |pending|;
    Calls(AddRpc, pending, ClientArgs(Clients(r.next, n)), Sent(n, AddLimit(r.next), reply, true))
  }

  /** Every client handle that an add sends is new, and used up whatever becomes of the request. */
  lemma SentHandles(r: Registry, ids: seq<ItemId>, reply: nat -> Reply<AddedItem>)
    requires r.next <= MAX_CLIENT
    ensures Distinct(CarriedArgs(AddRequests(r, ids, reply)))
    ensures forall h: nat :: Client(h) in CarriedArgs(AddRequests(r, ids, reply)) ==>
              r.next < h <= Add(r, ids, reply).next
  {
    var pending := Pending(r.items, ids);
    var n := |pending|;
    var m := Sent(n, AddLimit(r.next), reply, true);
    CallsCarry(AddRpc, pending, ClientArgs(Clients(r.next, n)), m);
    SentIsCovered(r, n, reply);
    var sent := CarriedArgs(AddRequests(r, ids, reply));
    assert |sent| == m && forall p :: 0 <= p < m ==> sent[p] == Client(r.next + 1 + p);
  }

  /** A sound registry whose counter has not fallen below low. */
  ghost predicate Above(low: nat, r: Registry) {
    Sound(r) && low <= r.next <= MAX_CLIENT
  }

  lemma AboveStep(low: nat, r: Registry, op: ItemOp, q: Registry)
    requires Above(low, r) && q == Step(r, op)
    ensures Above(low, q)
  {
    StepSound(r, op);
  }

  lemma {:induction false} StaysAbove(low: nat, r: Registry, ops: seq<ItemOp>, i: nat, j: nat)
    requires i <= j <= |ops| && Above(low, Run(r, ops[..i]))
    ensures Above(low, Run(r, ops[..j]))
    decreases j
  {
    if i < j {
      StaysAbove(low, r, ops, i, j - 1);
      RunStep(r, ops, j - 1);
      AboveStep(low, Run(r, ops[..j - 1]), ops[j - 1], Run(r, ops[..j]));
    }
  }

  /** The counter never falls. */
  lemma CounterGrows(r: Registry, ops: seq<ItemOp>, i: nat, j: nat)
    requires Sound(r) && i <= j <= |ops|
    ensures Above(Run(r, ops[..i]).next, Run(r, ops[..j]))
  {
    RunSound(r, ops[..i]);
    StaysAbove(Run(r, ops[..i]).next, r, ops, i, j);
  }

  lemma RunStep(r: Registry, ops: seq<ItemOp>, k: nat)
    requires k < |ops|
    ensures Run(r, ops[..k + 1]) == Step(Run(r, ops[..k]), ops[k])
  {
    assert ops[..k + 1][..k] == ops[..k];
  }

  /** Over a run no client handle is sent in two adds, even when a request was lost or refused. */
  lemma NoHandleSentTwice(r: Registry, ops: seq<ItemOp>, i: nat, j: nat, h: nat)
    requires Sound(r) && i < j < |ops| && ops[i].AddOp? && ops[j].AddOp?
    requires Client(h) in CarriedArgs(AddRequests(Run(r, ops[..i]), ops[i].ids, ops[i].added))
    ensures Client(h) !in CarriedArgs(AddRequests(Run(r, ops[..j]), ops[j].ids, ops[j].added))
  {
    CounterGrows(r, ops, 0, i);
    CounterGrows(r, ops, i + 1, j);
    RunStep(r, ops, i);
    SentHandles(Run(r, ops[..i]), ops[i].ids, ops[i].added);
    SentHandles(Run(r, ops[..j]), ops[j].ids, ops[j].added);
  }
}
