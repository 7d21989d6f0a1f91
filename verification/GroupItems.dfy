/** A registered group: the item map and client handle counter that its batch operations update.

    Every method runs while its caller holds the group's gate.  What was checked before that
    (group found, gate acquired, keepalive healthy) arrives as the parameter refused.  The
    server is the parameter reply, which answers the RPC with a given chunk number. */
module GroupItems {
  import opened Wrappers
  import opened Words
  import opened Automation
  import opened Batch
  import opened Items
  import opened Collections
  import opened ListSort
  import opened ItemReads
  import opened ItemWrites
  import opened Encode

  /** The positions of one id in the request. */
  ghost predicate Occurrences(at: seq<nat>, ids: seq<ItemId>, id: ItemId) {
    && (forall i :: 0 <= i < |at| ==> at[i] < |ids| && ids[at[i]] == id)
    && (forall k :: 0 <= k < |ids| && ids[k] == id ==> k in at)
  }

  /** Where in the request each pending id stands. */
  ghost predicate Located(positions: map<ItemId, seq<nat>>, pending: seq<ItemId>, ids: seq<ItemId>) {
    && (forall id :: id in positions <==> id in pending)
    && (forall id :: id in positions ==> Occurrences(positions[id], ids, id))
  }

  ghost predicate Answered(out: seq<AddAnswer>, ids: seq<ItemId>, items: map<ItemId, Registration>,
                           refusals: map<ItemId, int32>)
  {
    |out| == |ids| && forall k :: 0 <= k < |out| ==> out[k] == AnswerFor(ids[k], items, refusals)
  }

  /** The group and the answers so far are what the outcomes os say. */
  ghost predicate Recorded(r: Registry, pending: seq<ItemId>, ids: seq<ItemId>, os: seq<AddOutcome>,
                           items: map<ItemId, Registration>, order: seq<ItemId>, out: seq<AddAnswer>)
    requires |os| <= |pending|
  {
    var q := Register(r, pending, os);
    items == q.items && order == q.order && Answered(out, ids, items, Refusals(pending, os))
  }

  lemma AnsweredMeans(out: seq<AddAnswer>, ids: seq<ItemId>, items: map<ItemId, Registration>,
                      refusals: map<ItemId, int32>)
    requires Answered(out, ids, items, refusals)
    ensures AnswersAdd(out, ids, items, refusals)
  {}

  /** The RPCs carry the first pending ids in order, each with its own new client handle. */
  ghost predicate Numbers(calls: seq<Rpc>, pending: seq<ItemId>, next: nat) {
    && |Carried(calls)| == |CarriedArgs(calls)| <= |pending|
    && forall p :: 0 <= p < |Carried(calls)| ==>
         Carried(calls)[p] == pending[p] && CarriedArgs(calls)[p] == Client(next + 1 + p)
  }

  lemma CallsNumber(pending: seq<ItemId>, next: nat, m: nat)
    requires m <= |pending|
    ensures Numbers(Calls(AddRpc, pending, ClientArgs(Clients(next, |pending|)), m), pending, next)
    ensures |Carried(Calls(AddRpc, pending, ClientArgs(Clients(next, |pending|)), m))| == m
  {
    CallsCarry(AddRpc, pending, ClientArgs(Clients(next, |pending|)), m);
  }

  ghost predicate AllSettled(next: nat, pending: seq<ItemId>, reply: nat -> Reply<AddedItem>,
                             items: map<ItemId, Registration>, refusals: map<ItemId, int32>)
  {
    forall p :: 0 <= p < |pending| ==> Settled(next, pending, reply, items, refusals, p)
  }

  /** What an add leaves behind: the ids that were sent, in order and with consecutive client
      handles above the old counter, and for each of them what its own entry of the reply says. */
  ghost predicate AddsUp(was: Registry, ids: seq<ItemId>, reply: nat -> Reply<AddedItem>, calls: seq<Rpc>,
                         items: map<ItemId, Registration>, out: seq<AddAnswer>)
  {
    && Numbers(calls, Pending(was.items, ids), was.next)
    && exists refusals ::
         && AllSettled(was.next, Pending(was.items, ids), reply, items, refusals)
         && AnswersAdd(out, ids, items, refusals)
  }

  lemma AddIsSettled(was: Registry, pending: seq<ItemId>, reply: nat -> Reply<AddedItem>, os: seq<AddOutcome>)
    requires Fresh(was, pending) && os == AllOutcomes(was, |pending|, reply)
    ensures AllSettled(was.next, pending, reply, Register(was, pending, os).items, Refusals(pending, os))
  {
    forall p | 0 <= p < |pending|
      ensures Settled(was.next, pending, reply, Register(was, pending, os).items, Refusals(pending, os), p)
    {
      AddSettles(was, pending, reply, os, p);
    }
  }

  lemma AddAddsUp(was: Registry, ids: seq<ItemId>, pending: seq<ItemId>, reply: nat -> Reply<AddedItem>, m: nat,
                  os: seq<AddOutcome>, calls: seq<Rpc>, out: seq<AddAnswer>)
    requires pending == Pending(was.items, ids) && os == AllOutcomes(was, |pending|, reply)
    requires m <= |pending| && calls == Calls(AddRpc, pending, ClientArgs(Clients(was.next, |pending|)), m)
    requires Answered(out, ids, Register(was, pending, os).items, Refusals(pending, os))
    ensures AddsUp(was, ids, reply, calls, Register(was, pending, os).items, out)
  {
    CallsNumber(pending, was.next, m);
    PendingFacts(was.items, ids);
    AddIsSettled(was, pending, reply, os);
    AnsweredMeans(out, ids, Register(was, pending, os).items, Refusals(pending, os));
  }

  function OutcomeOf(a: AddedItem, client: nat, error: int32): AddOutcome {
    if error < 0 then Denied(error) else Accepted(Registration(a.handle, client, a.rights, a.canonical))
  }

  /** The outcomes from start on are what the arrays of a reply say. */
  ghost predicate Decided(os: seq<AddOutcome>, start: nat, clients: seq<nat>, states: seq<AddedItem>,
                          errors: seq<int32>)
  {
    && start <= |os| && |clients| == |states| == |errors| == |os| - start
    && forall p :: start <= p < |os| ==> os[p] == OutcomeOf(states[p - start], clients[p - start], errors[p - start])
  }

  lemma OutcomesPrefix(n: nat, next: nat, reply: nat -> Reply<AddedItem>, d: nat, e: nat)
    requires d <= e <= Confirmed(n, AddLimit(next), reply, true)
    ensures Outcomes(n, next, reply, e)[..d] == Outcomes(n, next, reply, d)
  {
    forall p | 0 <= p < d
      ensures Outcomes(n, next, reply, e)[p] == Outcomes(n, next, reply, d)[p]
    {
      OutcomesIndex(n, next, reply, e, p);
      OutcomesIndex(n, next, reply, d, p);
    }
  }

  /** The outcome of one item of a chunk with a complete reply. */
  lemma ChunkOutcome(n: nat, next: nat, reply: nat -> Reply<AddedItem>, c: nat, p: nat)
    requires Start(c) <= p < End(n, c) <= Confirmed(n, AddLimit(next), reply, true)
    requires c < Stop(n, AddLimit(next), reply, true, 0) && Answers(reply(c), End(n, c) - Start(c), true)
    ensures Outcomes(n, next, reply, End(n, c))[p] ==
              OutcomeOf(reply(c).states[p - Start(c)], next + 1 + p, reply(c).errors[p - Start(c)])
  {
    OutcomesIndex(n, next, reply, End(n, c), p);
    assert ChunkOf(p) == c && Offset(p) == p - Start(c);
  }

  /** A complete reply to chunk c decides its items. */
  lemma ChunkOutcomes(n: nat, next: nat, reply: nat -> Reply<AddedItem>, c: nat)
    requires Start(c) < n && c < Stop(n, AddLimit(next), reply, true, 0)
    requires Answers(reply(c), End(n, c) - Start(c), true)
    requires End(n, c) <= Confirmed(n, AddLimit(next), reply, true)
    ensures var os := Outcomes(n, next, reply, End(n, c));
            && os[..Start(c)] == Outcomes(n, next, reply, Start(c))
            && Decided(os, Start(c), Clients(next, n)[Start(c)..End(n, c)], reply(c).states, reply(c).errors)
  {
    OutcomesPrefix(n, next, reply, Start(c), End(n, c));
    forall p | Start(c) <= p < End(n, c)
      ensures Outcomes(n, next, reply, End(n, c))[p] ==
                OutcomeOf(reply(c).states[p - Start(c)], next + 1 + p, reply(c).errors[p - Start(c)])
    {
      ChunkOutcome(n, next, reply, c, p);
    }
  }

  /** What stopping at chunk c, or after the last chunk, leaves. */
  lemma AddStops(r: Registry, n: nat, reply: nat -> Reply<AddedItem>, c: nat)
    requires Stop(n, AddLimit(r.next), reply, true, 0) == Stop(n, AddLimit(r.next), reply, true, c)
    requires Start(c) >= n || !Completes(n, AddLimit(r.next), reply, true, c)
    ensures AllOutcomes(r, n, reply) == Outcomes(n, r.next, reply, Least(Start(c), n))
    ensures StopError(n, AddLimit(r.next), reply, true) ==
              if Start(c) < n then ChunkError(n, AddLimit(r.next), reply, c) else None
    ensures var sent := Sent(n, AddLimit(r.next), reply, true);
            && sent == (if Start(c) >= n then n
                        else if End(n, c) <= AddLimit(r.next) then End(n, c) else Start(c))
            && NextClient(r, n, reply) ==
               if Start(c) < n && End(n, c) > AddLimit(r.next) then MAX_CLIENT else r.next + sent
  {}

  lemma LocatedElsewhere(positions: map<ItemId, seq<nat>>, pending: seq<ItemId>, ids: seq<ItemId>, id: ItemId)
    requires Located(positions, pending, ids) && id !in pending
    ensures Located(positions, pending, ids + [id])
  {
    forall x | x in positions
      ensures Occurrences(positions[x], ids + [id], x)
    {
      assert Occurrences(positions[x], ids, x);
    }
  }

  function Enlist(positions: map<ItemId, seq<nat>>, id: ItemId, i: nat): map<ItemId, seq<nat>> {
    positions[id := (if id in positions then positions[id] else []) + [i]]
  }

  /** One more occurrence of id, and none of any other id. */
  lemma OccurrencesStep(at: seq<nat>, ids: seq<ItemId>, x: ItemId, id: ItemId)
    requires Occurrences(at, ids, x)
    ensures Occurrences(if x == id then at + [|ids|] else at, ids + [id], x)
  {
    if x == id {
      var more := at + [|ids|];
      assert more[|at|] == |ids|;
      forall k | 0 <= k < |ids| + 1 && (ids + [id])[k] == x
        ensures k in more
      {
        assert k < |ids| ==> ids[k] == x && k in at;
      }
    }
  }

  lemma NoOccurrence(ids: seq<ItemId>, id: ItemId)
    requires id !in ids
    ensures Occurrences([], ids, id)
  {}

  lemma LocatedHere(positions: map<ItemId, seq<nat>>, pending: seq<ItemId>, ids: seq<ItemId>, id: ItemId)
    requires Located(positions, pending, ids) && (id in pending || id !in ids)
    ensures Located(Enlist(positions, id, |ids|), if id in positions then pending else pending + [id], ids + [id])
  {
    var q := Enlist(positions, id, |ids|);
    if id !in positions {
      NoOccurrence(ids, id);
    }
    forall x | x in q
      ensures Occurrences(q[x], ids + [id], x)
    {
      OccurrencesStep(if x in positions then positions[x] else [], ids, x, id);
    }
  }

  /** Registering one more item changes the answer of that id alone. */
  lemma AnswerStep(r: Registry, pending: seq<ItemId>, os: seq<AddOutcome>, id: ItemId)
    requires Fresh(r, pending) && 0 < |os| <= |pending|
    ensures var d := |os| - 1;
            var before := AnswerFor(id, Register(r, pending, os[..d]).items, Refusals(pending, os[..d]));
            AnswerFor(id, Register(r, pending, os).items, Refusals(pending, os)) ==
            if id != pending[d] then before
            else if os[d].Denied? then Rejected(os[d].code)
            else PublicItem(id, os[d].r)
  {
    RegisterItems(r, pending, os[..|os| - 1]);
  }

  /** The first i positions have the answers that need no RPC. */
  ghost predicate AnsweredTo(out: array<AddAnswer>, ids: seq<ItemId>, items: map<ItemId, Registration>, i: nat)
    reads out
  {
    out.Length == |ids| && forall k :: 0 <= k < i && k < |ids| ==> out[k] == AnswerFor(ids[k], items, map[])
  }

  method AnswerLocally(out: array<AddAnswer>, ids: seq<ItemId>, items: map<ItemId, Registration>, i: nat)
    returns (answer: AddAnswer)
    requires i < |ids| && AnsweredTo(out, ids, items, i)
    modifies out
    ensures answer == AnswerFor(ids[i], items, map[]) && AnsweredTo(out, ids, items, i + 1)
  {
    var id := ids[i];
    answer := NotAdded;
    if !ValidItemId(id) {
      answer := InvalidId;
    } else if id in items {
      answer := PublicItem(id, items[id]);
    }
    out[i] := answer;
  }

  lemma PendingStep(items: map<ItemId, Registration>, ids: seq<ItemId>, id: ItemId)
    ensures var front := Pending(items, ids);
            && Pending(items, ids + [id]) ==
               (if ValidItemId(id) && id !in items && id !in front then front + [id] else front)
            && (ValidItemId(id) && id !in items ==> id in front || id !in ids)
            && (!ValidItemId(id) || id in items ==> id !in front)
  {
    assert (ids + [id])[..|ids|] == ids;
    PendingFacts(items, ids);
  }

  /** The same answer at every given position. */
  method Scatter(out: array<AddAnswer>, at: seq<nat>, answer: AddAnswer)
    requires forall i :: 0 <= i < |at| ==> at[i] < out.Length
    modifies out
    ensures forall k :: 0 <= k < out.Length ==> out[k] == if k in at then answer else old(out[k])
  {
    for i := 0 to |at|
      invariant forall k :: 0 <= k < out.Length ==> out[k] == if k in at[..i] then answer else old(out[k])
    {
      out[at[i]] := answer;
      assert at[..i + 1] == at[..i] + [at[i]];
    }
    assert at[..|at|] == at;
  }

  /** The AddItems request for chunk c. */
  function Sending(next: nat, pending: seq<ItemId>, c: nat): Rpc
    requires Start(c) < |pending|
  {
    var n := |pending|;
    Rpc(AddRpc, pending[Start(c)..End(n, c)], ClientArgs(Clients(next, n))[Start(c)..End(n, c)])
  }

  // ---- removing ----

  /** What is known about each requested id once the first |codes| known ids are answered. */
  ghost predicate Removals(out: map<ItemId, Option<RemoveError>>, ids: seq<ItemId>, known: seq<ItemId>,
                           codes: seq<int32>, err: Option<OpError>)
  {
    && (forall id :: id in out <==> id in ids)
    && (forall id :: id in out && id !in known ==> out[id] == None)
    && (forall p :: 0 <= p < |known| ==> known[p] in out && out[known[p]] == RemovalAnswer(codes, err, p))
  }

  /** The first loop of removeItems has looked at ids; nothing is wrong so far. */
  ghost predicate Seen(out: map<ItemId, Option<RemoveError>>, ids: seq<ItemId>) {
    (forall id :: id in out <==> id in ids) && forall id :: id in out ==> out[id] == None
  }

  lemma RegisteredStep(items: map<ItemId, Registration>, ids: seq<ItemId>, id: ItemId)
    ensures Registered(items, ids + [id]) ==
              if id in items && id !in ids then Registered(items, ids) + [id] else Registered(items, ids)
  {
    assert (ids + [id])[..|ids|] == ids;
    RegisteredFacts(items, ids);
  }

  ghost predicate KnownIn(r: Registry, known: seq<ItemId>) {
    Distinct(known) && forall p :: 0 <= p < |known| ==> known[p] in r.items
  }

  function RemovalAnswer(codes: seq<int32>, err: Option<OpError>, p: nat): Option<RemoveError> {
    if p >= |codes| then (if err.Some? then Some(NotConfirmed(err.value)) else None)
    else if codes[p] < 0 then Some(RemoveRefused(codes[p]))
    else None
  }

  /** The server handles under which the given items are registered. */
  function HandlesOf(items: map<ItemId, Registration>, ids: seq<ItemId>): seq<Arg> {
    seq(|ids|, i requires 0 <= i < |ids| => Handle(if ids[i] in items then items[ids[i]].handle else 0))
  }

  /** A result is nil exactly when its id is not registered any more. */
  lemma NilIffNotRegistered(r: Registry, ids: seq<ItemId>, codes: seq<int32>, err: Option<OpError>,
                            out: map<ItemId, Option<RemoveError>>, id: ItemId)
    requires id in ids && |codes| <= |Registered(r.items, ids)|
    requires err.Some? || |codes| == |Registered(r.items, ids)|
    requires Removals(out, ids, Registered(r.items, ids), codes, err)
    ensures id in out && (out[id].None? <==> id !in Unregister(r, Registered(r.items, ids), codes).items)
  {
    var known := Registered(r.items, ids);
    RegisteredFacts(r.items, ids);
    UnregisterItems(r, known, codes);
    if id in known {
      var p :| 0 <= p < |known| && known[p] == id;
    }
  }

  /** The result for each known item: nil or the refusal, by its own code in the reply, or the error
      that stopped the removal. */
  ghost predicate RemovalsSay(out: map<ItemId, Option<RemoveError>>, known: seq<ItemId>, reply: nat -> Reply<()>,
                              err: Option<OpError>)
  {
    forall p :: 0 <= p < |known| ==>
      && known[p] in out
      && RemovalSays(out[known[p]], p, Confirmed(|known|, |known|, reply, false), reply, err)
  }

  predicate RemovalSays(a: Option<RemoveError>, p: nat, d: nat, reply: nat -> Reply<()>, err: Option<OpError>) {
    var r := reply(p / 1000);
    if p >= d then err.Some? && a == Some(NotConfirmed(err.value))
    else
      && r.Replied? && r.hresult >= 0 && p % 1000 < |r.errors|
      && a == if r.errors[p % 1000] < 0 then Some(RemoveRefused(r.errors[p % 1000])) else None
  }

  lemma RemovalsMean(out: map<ItemId, Option<RemoveError>>, ids: seq<ItemId>, known: seq<ItemId>,
                     reply: nat -> Reply<()>, err: Option<OpError>)
    requires err == StopError(|known|, |known|, reply, false)
    requires Removals(out, ids, known, AllCodes(|known|, |known|, reply, false), err)
    ensures RemovalsSay(out, known, reply, err)
  {
    var n := |known|;
    StopErrorIs(n, n, reply, false);
    forall p | 0 <= p < n
      ensures RemovalSays(out[known[p]], p, Confirmed(n, n, reply, false), reply, err)
    {
      if p < Confirmed(n, n, reply, false) {
        CodeIs(n, n, reply, false, p);
      }
    }
  }

  lemma RemovalStep(out: map<ItemId, Option<RemoveError>>, ids: seq<ItemId>, known: seq<ItemId>, codes: seq<int32>)
    requires Distinct(known) && 0 < |codes| <= |known|
    requires Removals(out, ids, known, codes[..|codes| - 1], None)
    ensures Removals(out[known[|codes| - 1] := RemovalAnswer(codes, None, |codes| - 1)], ids, known, codes, None)
  {
    var d := |codes| - 1;
    forall p | 0 <= p < |known| && p != d
      ensures known[p] != known[d] && RemovalAnswer(codes, None, p) == RemovalAnswer(codes[..d], None, p)
    {}
  }

  /** Every item from start on gets the error that stopped the removal. */
  method Unconfirmed(ghost ids: seq<ItemId>, known: seq<ItemId>, ghost codes: seq<int32>, err: Option<OpError>,
                     start: nat, was: map<ItemId, Option<RemoveError>>)
    returns (out: map<ItemId, Option<RemoveError>>)
    requires Distinct(known) && |codes| == start <= |known| && err.Some?
    requires Removals(was, ids, known, codes, None)
    ensures Removals(out, ids, known, codes, err)
  {
    out := was;
    for i := start to |known|
      invariant forall id :: id in out <==> id in ids
      invariant forall id :: id in out && id !in known ==> out[id] == None
      invariant forall p :: 0 <= p < |known| ==>
                  && known[p] in out
                  && out[known[p]] == RemovalAnswer(codes, if p < i then err else None, p)
    {
      out := out[known[i] := Some(NotConfirmed(err.value))];
    }
  }

  // ---- reading ----

  /** The registered ids of a request, with their positions and server handles. */
  ghost predicate Placed(items: map<ItemId, Registration>, ids: seq<ItemId>,
                         positions: seq<nat>, known: seq<ItemId>, handles: seq<Arg>)
  {
    positions == Positions(items, ids) && known == KnownIds(items, ids) && handles == HandlesOf(items, known)
  }

  lemma PlacedStep(items: map<ItemId, Registration>, ids: seq<ItemId>,
                   positions: seq<nat>, known: seq<ItemId>, handles: seq<Arg>, id: ItemId)
    requires Placed(items, ids, positions, known, handles)
    ensures if id in items
            then Placed(items, ids + [id], positions + [|ids|], known + [id], handles + [Handle(items[id].handle)])
            else Placed(items, ids + [id], positions, known, handles)
  {
    KnownStep(items, ids, id);
    HandlesStep(items, known, id);
  }

  lemma KnownStep(items: map<ItemId, Registration>, ids: seq<ItemId>, id: ItemId)
    ensures Positions(items, ids + [id]) == Positions(items, ids) + if id in items then [|ids|] else []
    ensures KnownIds(items, ids + [id]) == KnownIds(items, ids) + if id in items then [id] else []
  {
    assert (ids + [id])[..|ids|] == ids;
  }

  lemma HandlesStep(items: map<ItemId, Registration>, known: seq<ItemId>, id: ItemId)
    ensures id in items ==> HandlesOf(items, known + [id]) == HandlesOf(items, known) + [Handle(items[id].handle)]
  {}

  function ByClient(items: map<ItemId, Registration>): (ItemId, ItemId) -> bool {
    (a, b) => a in items && b in items && items[a].client < items[b].client
  }

  lemma ClientOrder(r: Registry)
    requires Sound(r)
    ensures StrictOrder(ByClient(r.items), Elements(r.order))
  {
    var less := ByClient(r.items);
    forall x, y | x in Elements(r.order) && y in Elements(r.order) && x != y
      ensures less(x, y) || less(y, x)
    {
      var i :| 0 <= i < |r.order| && r.order[i] == x;
      var j :| 0 <= j < |r.order| && r.order[j] == y;
    }
  }

  /** Sorting the map by client handle gives the registration list. */
  lemma SortedByClient(r: Registry, keys: seq<ItemId>)
    requires Sound(r) && Distinct(keys) && Elements(keys) == r.items.Keys
    ensures Sort(ByClient(r.items), keys) == r.order
  {
    var less := ByClient(r.items);
    assert Elements(keys) == Elements(r.order);
    ClientOrder(r);
    SortOrdered(less, keys);
    assert Ordered(less, r.order);
    OrderedUnique(less, Sort(less, keys), r.order);
  }

  lemma {:induction false} AllKnown(items: map<ItemId, Registration>, ids: seq<ItemId>)
    requires forall i :: 0 <= i < |ids| ==> ids[i] in items
    ensures KnownIds(items, ids) == ids
  {
    if ids != [] {
      var front := ids[..|ids| - 1];
      AllKnown(items, front);
    }
  }

  /** The first i positions are reported as not registered, and observed where that is final. */
  ghost predicate Marked(out: array<ReadResult>, observed: array<bool>, items: map<ItemId, Registration>,
                         ids: seq<ItemId>, i: nat)
    reads out, observed
  {
    && out.Length == observed.Length == |ids|
    && (forall k :: 0 <= k < i && k < |ids| ==> out[k] == ReadResult(ids[k], NotRegistered))
    && (forall k :: 0 <= k < |ids| ==> observed[k] == (k < i && ids[k] !in items))
  }

  method Mark(out: array<ReadResult>, observed: array<bool>, items: map<ItemId, Registration>, ids: seq<ItemId>, i: nat)
    requires i < |ids| && Marked(out, observed, items, ids, i)
    modifies out, observed
    ensures Marked(out, observed, items, ids, i + 1)
  {
    out[i] := ReadResult(ids[i], NotRegistered);
    if ids[i] !in items {
      observed[i] := true;
    }
  }

  lemma MarkedIsFull(out: array<ReadResult>, observed: array<bool>, items: map<ItemId, Registration>, ids: seq<ItemId>)
    requires Marked(out, observed, items, ids, |ids|)
    ensures out[..] == Full(items, ids, []) && observed[..] == Observed(items, ids, 0)
  {}

  lemma OwnIds(out: array<ReadResult>, items: map<ItemId, Registration>, ids: seq<ItemId>, answers: seq<ReadAnswer>)
    requires out[..] == Full(items, ids, answers)
    ensures out.Length == |ids| && forall j :: 0 <= j < |ids| ==> out[j].id == ids[j]
  {
    forall j | 0 <= j < |ids|
      ensures out[j].id == ids[j]
    {
      assert out[j] == out[..][j];
    }
  }

  lemma SelectedStep<T>(xs: seq<T>, marks: seq<bool>, x: T, mark: bool)
    requires |xs| == |marks|
    ensures Selected(xs + [x], marks + [mark]) == Selected(xs, marks) + if mark then [x] else []
  {
    assert (xs + [x])[..|xs|] == xs && (marks + [mark])[..|xs|] == marks;
  }

  /** Keeps the marked elements, in the front of the array they are read from. */
  method Compact(out: array<ReadResult>, marks: array<bool>) returns (n: nat)
    requires out.Length == marks.Length
    modifies out
    ensures n <= out.Length && out[..n] == Selected(old(out[..]), marks[..])
  {
    n := 0;
    ghost var was := out[..];
    for i := 0 to out.Length
      invariant n <= i && out[..n] == Selected(was[..i], marks[..i])
      invariant forall k :: i <= k < out.Length ==> out[k] == was[k]
    {
      assert was[..i + 1] == was[..i] + [was[i]] && marks[..i + 1] == marks[..i] + [marks[i]];
      SelectedStep(was[..i], marks[..i], was[i], marks[i]);
      if marks[i] {
        ghost var kept := out[..n];
        out[n] := out[i];
        assert out[..n + 1] == kept + [was[i]];
        n := n + 1;
      }
    }
    assert was[..out.Length] == was && marks[..out.Length] == marks[..];
  }

  class PersistentGroup {
    var items: map<ItemId, Registration>
    var nextClientHandle: nat
    ghost var order: seq<ItemId>
    ghost var wire: seq<Rpc>

    constructor ()
      ensures View() == Registry(map[], 0, []) && Sound(View()) && wire == []
    {
      items, nextClientHandle, order, wire := map[], 0, [], [];
    }

    ghost function View(): Registry
      reads this
    {
      Registry(items, nextClientHandle, order)
    }

    /** One client handle for each item of a chunk.  The counter stays where it ran out. */
    method TakeClients(count: nat) returns (clients: seq<nat>, exhausted: bool)
      requires nextClientHandle <= MAX_CLIENT
      modifies this`nextClientHandle
      ensures exhausted <==> old(nextClientHandle) + count > MAX_CLIENT
      ensures !exhausted ==> clients == Clients(old(nextClientHandle), count)
      ensures nextClientHandle == if exhausted then MAX_CLIENT else old(nextClientHandle) + count
    {
      clients := [];
      for i := 0 to count
        invariant clients == Clients(old(nextClientHandle), i)
        invariant nextClientHandle == old(nextClientHandle) + i <= MAX_CLIENT
      {
        if nextClientHandle == MAX_CLIENT {
          return clients, true;
        }
        nextClientHandle := nextClientHandle + 1;
        clients := clients + [nextClientHandle];
      }
      exhausted := false;
    }

    /** What the last outcome of os does to the group and to the answers for its item. */
    method RecordItem(ghost r: Registry, ghost pending: seq<ItemId>, ghost os: seq<AddOutcome>,
                      ids: seq<ItemId>, positions: map<ItemId, seq<nat>>, out: array<AddAnswer>,
                      id: ItemId, client: nat, state: AddedItem, error: int32)
      requires Fresh(r, pending) && Located(positions, pending, ids)
      requires 0 < |os| <= |pending| && id == pending[|os| - 1] && os[|os| - 1] == OutcomeOf(state, client, error)
      requires Recorded(r, pending, ids, os[..|os| - 1], items, order, out[..])
      modifies this`items, this`order, out
      ensures Recorded(r, pending, ids, os, items, order, out[..])
    {
      forall x { AnswerStep(r, pending, os, x); }
      assert id in positions && Occurrences(positions[id], ids, id);
      if error < 0 {
        Scatter(out, positions[id], Rejected(error));
      } else {
        var v := Registration(state.handle, client, state.rights, state.canonical);
        items := items[id := v];
        order := order + [id];
        Scatter(out, positions[id], PublicItem(id, v));
      }
    }

    /** The loop over the results of the chunk that starts at the given pending item. */
    method RecordChunk(ghost r: Registry, pending: seq<ItemId>, ghost os: seq<AddOutcome>, start: nat,
                       ids: seq<ItemId>, positions: map<ItemId, seq<nat>>, out: array<AddAnswer>,
                       clients: seq<nat>, states: seq<AddedItem>, errors: seq<int32>)
      requires Fresh(r, pending) && Located(positions, pending, ids)
      requires |os| <= |pending| && Decided(os, start, clients, states, errors)
      requires Recorded(r, pending, ids, os[..start], items, order, out[..])
      modifies this`items, this`order, out
      ensures Recorded(r, pending, ids, os, items, order, out[..])
    {
      for i := 0 to |errors|
        invariant Recorded(r, pending, ids, os[..start + i], items, order, out[..])
      {
        ghost var next := os[..start + i + 1];
        assert next[..|next| - 1] == os[..start + i];
        RecordItem(r, pending, next, ids, positions, out, pending[start + i], clients[i], states[i], errors[i]);
      }
      assert os[..start + |errors|] == os;
    }

    /** Numbers the items of chunk c, sends them and looks at the reply as a whole. */
    method Exchange(ghost next: nat, pending: seq<ItemId>, reply: nat -> Reply<AddedItem>, c: nat)
      returns (err: Option<OpError>, clients: seq<nat>, states: seq<AddedItem>, errors: seq<int32>)
      requires Start(c) < |pending| && next + Start(c) == nextClientHandle <= MAX_CLIENT
      modifies this`nextClientHandle, this`wire
      ensures err.None? <==> Completes(|pending|, AddLimit(next), reply, true, c)
      ensures err.Some? ==> err == ChunkError(|pending|, AddLimit(next), reply, c)
      ensures err.None? ==>
                && clients == Clients(next, |pending|)[Start(c)..End(|pending|, c)]
                && reply(c).states == states && reply(c).errors == errors
      ensures var sent := End(|pending|, c) <= AddLimit(next);
              && nextClientHandle == (if sent then next + End(|pending|, c) else MAX_CLIENT)
              && wire == if sent then old(wire) + [Sending(next, pending, c)] else old(wire)
    {
      states, errors := [], [];
      var chunk := pending[Start(c)..End(|pending|, c)];
      var exhausted;
      clients, exhausted := TakeClients(|chunk|);
      if exhausted {
        err := Some(HandlesExhausted);
        return;
      }
      assert clients == Clients(next, |pending|)[Start(c)..End(|pending|, c)];
      assert ClientArgs(clients) == ClientArgs(Clients(next, |pending|))[Start(c)..End(|pending|, c)];
      wire := wire + [Rpc(AddRpc, chunk, ClientArgs(clients))];
      match reply(c)
      case Lost =>
        err := Some(CallLost);
      case Replied(hresult, items, codes) =>
        states, errors := items, codes;
        if hresult < 0 {
          err := Some(CallRefused(hresult));
        } else if |states| != |chunk| || |errors| != |chunk| {
          err := Some(MissingArrays);
        } else {
          err := None;
        }
    }

    /** Everything before chunk c is registered and answered, and nothing else was sent. */
    ghost predicate AddedUpTo(r: Registry, w: seq<Rpc>, ids: seq<ItemId>, pending: seq<ItemId>,
                              reply: nat -> Reply<AddedItem>, c: nat, out: array<AddAnswer>)
      reads this, out
    {
      var n, limit := |pending|, AddLimit(r.next);
      var done := Least(Start(c), n);
      && Stop(n, limit, reply, true, 0) == Stop(n, limit, reply, true, c)
      && done <= Confirmed(n, limit, reply, true)
      && Recorded(r, pending, ids, Outcomes(n, r.next, reply, done), items, order, out[..])
      && nextClientHandle == r.next + done <= MAX_CLIENT
      && wire == w + Calls(AddRpc, pending, ClientArgs(Clients(r.next, n)), done)
    }

    /** The loop is over: the group, the answers and the error are those of the specification. */
    ghost predicate AddedAll(r: Registry, w: seq<Rpc>, ids: seq<ItemId>, pending: seq<ItemId>,
                             reply: nat -> Reply<AddedItem>, out: array<AddAnswer>, err: Option<OpError>)
      reads this, out
    {
      var n, limit := |pending|, AddLimit(r.next);
      && Recorded(r, pending, ids, AllOutcomes(r, n, reply), items, order, out[..])
      && nextClientHandle == NextClient(r, n, reply)
      && wire == w + Calls(AddRpc, pending, ClientArgs(Clients(r.next, n)), Sent(n, limit, reply, true))
      && err == StopError(n, limit, reply, true)
    }

    /** One round of the loop of addItems. */
    method SendChunk(ghost r: Registry, ghost w: seq<Rpc>, ids: seq<ItemId>, pending: seq<ItemId>,
                     positions: map<ItemId, seq<nat>>, out: array<AddAnswer>, reply: nat -> Reply<AddedItem>, c: nat)
      returns (err: Option<OpError>)
      requires Fresh(r, pending) && Located(positions, pending, ids)
      requires Start(c) < |pending| && AddedUpTo(r, w, ids, pending, reply, c, out)
      modifies this, out
      ensures err.None? ==> AddedUpTo(r, w, ids, pending, reply, c + 1, out)
      ensures err.Some? ==> AddedAll(r, w, ids, pending, reply, out, err)
    {
      ghost var n, limit := |pending|, AddLimit(r.next);
      ghost var os := Outcomes(n, r.next, reply, Start(c));
      ghost var before := Calls(AddRpc, pending, ClientArgs(Clients(r.next, n)), Start(c));
      CallsStep(AddRpc, pending, ClientArgs(Clients(r.next, n)), c);
      var clients, states, errors;
      err, clients, states, errors := Exchange(r.next, pending, reply, c);
      assert Recorded(r, pending, ids, os, items, order, out[..]);
      assert End(n, c) <= limit ==> wire == w + (before + [Sending(r.next, pending, c)]);
      if err.Some? {
        AddStops(r, n, reply, c);
        assert AllOutcomes(r, n, reply) == os;
        assert Recorded(r, pending, ids, AllOutcomes(r, n, reply), items, order, out[..]);
        assert err == StopError(n, limit, reply, true);
        assert nextClientHandle == NextClient(r, n, reply);
        assert wire == w + Calls(AddRpc, pending, ClientArgs(Clients(r.next, n)), Sent(n, limit, reply, true));
        return;
      }
      StopAfter(n, limit, reply, true, c);
      ChunkOutcomes(n, r.next, reply, c);
      ghost var all := Outcomes(n, r.next, reply, End(n, c));
      RecordChunk(r, pending, all, Start(c), ids, positions, out, clients, states, errors);
    }

    lemma AddStarts(ids: seq<ItemId>, pending: seq<ItemId>, reply: nat -> Reply<AddedItem>, out: array<AddAnswer>)
      requires nextClientHandle <= MAX_CLIENT && Answered(out[..], ids, items, map[])
      ensures AddedUpTo(View(), wire, ids, pending, reply, 0, out)
    {}

    lemma AddEnds(r: Registry, w: seq<Rpc>, ids: seq<ItemId>, pending: seq<ItemId>, reply: nat -> Reply<AddedItem>,
                  c: nat, out: array<AddAnswer>)
      requires AddedUpTo(r, w, ids, pending, reply, c, out) && Start(c) >= |pending|
      ensures AddedAll(r, w, ids, pending, reply, out, None)
    {
      AddStops(r, |pending|, reply, c);
    }

    /** The RPC loop of addItems.  A request that fails stops the loop; nothing after it is sent. */
    method SendChunks(ids: seq<ItemId>, pending: seq<ItemId>, positions: map<ItemId, seq<nat>>,
                      out: array<AddAnswer>, reply: nat -> Reply<AddedItem>)
      returns (err: Option<OpError>)
      requires nextClientHandle <= MAX_CLIENT
      requires Fresh(View(), pending) && Located(positions, pending, ids)
      requires Answered(out[..], ids, items, map[])
      modifies this, out
      ensures AddedAll(old(View()), old(wire), ids, pending, reply, out, err)
    {
      ghost var r, w := View(), wire;
      AddStarts(ids, pending, reply, out);
      var c := 0;
      while Start(c) < |pending|
        invariant AddedUpTo(r, w, ids, pending, reply, c, out)
        decreases |pending| - Start(c)
      {
        err := SendChunk(r, w, ids, pending, positions, out, reply, c);
        if err.Some? {
          return;
        }
        c := c + 1;
      }
      AddEnds(r, w, ids, pending, reply, c, out);
      return None;
    }

    /** The first loop of addItems, which answers what needs no RPC. */
    method Classify(ids: seq<ItemId>)
      returns (out: array<AddAnswer>, pending: seq<ItemId>, positions: map<ItemId, seq<nat>>)
      ensures fresh(out) && Answered(out[..], ids, items, map[]) && AnswersAdd(out[..], ids, items, map[])
      ensures pending == Pending(items, ids) && Located(positions, pending, ids)
    {
      out := new AddAnswer[|ids|](_ => NotAdded);
      pending, positions := [], map[];
      for i := 0 to |ids|
        invariant pending == Pending(items, ids[..i]) && Located(positions, pending, ids[..i])
        invariant AnsweredTo(out, ids, items, i)
      {
        var id := ids[i];
        assert ids[..i + 1] == ids[..i] + [id] && |ids[..i]| == i;
        PendingStep(items, ids[..i], id);
        var answer := AnswerLocally(out, ids, items, i);
        if answer.NotAdded? {
          LocatedHere(positions, pending, ids[..i], id);
          if id !in positions {
            pending := pending + [id];
          }
          positions := Enlist(positions, id, i);
        } else {
          LocatedElsewhere(positions, pending, ids[..i], id);
        }
      }
      assert ids[..|ids|] == ids;
      AnsweredMeans(out[..], ids, items, map[]);
    }

    method AddItems(ids: seq<ItemId>, refused: Option<OpError>, reply: nat -> Reply<AddedItem>)
      returns (out: array<AddAnswer>, err: Option<OpError>)
      requires Sound(View())
      modifies this
      ensures fresh(out)
      ensures refused.Some? ==>
                View() == old(View()) && wire == old(wire) && out.Length == 0 && err == refused
      ensures refused.None? ==>
                var r := old(View());
                var pending := Pending(r.items, ids);
                var n := |pending|;
                && View() == Add(r, ids, reply)
                && err == StopError(n, AddLimit(r.next), reply, true)
                && Answered(out[..], ids, items, Refusals(pending, AllOutcomes(r, n, reply)))
                && wire == old(wire) +
                     Calls(AddRpc, pending, ClientArgs(Clients(r.next, n)), Sent(n, AddLimit(r.next), reply, true))
      ensures refused.None? ==>
                && old(wire) <= wire
                && AddsUp(old(View()), ids, reply, wire[|old(wire)|..], items, out[..])
    {
      if refused.Some? {
        out := new AddAnswer[0];
        return out, refused;
      }
      ghost var r := View();
      var pending, positions;
      out, pending, positions := Classify(ids);
      PendingFacts(items, ids);
      err := SendChunks(ids, pending, positions, out, reply);
      AddAddsUp(r, ids, pending, reply, Sent(|pending|, AddLimit(r.next), reply, true),
                AllOutcomes(r, |pending|, reply), wire[|old(wire)|..], out[..]);
    }

    /** Every known item before chunk c is answered, and nothing else was sent. */
    ghost predicate RemovedUpTo(r: Registry, w: seq<Rpc>, ids: seq<ItemId>, known: seq<ItemId>,
                                reply: nat -> Reply<()>, c: nat, out: map<ItemId, Option<RemoveError>>)
      reads this
    {
      var n := |known|;
      var done := Least(Start(c), n);
      && Stop(n, n, reply, false, 0) == Stop(n, n, reply, false, c)
      && done <= Confirmed(n, n, reply, false)
      && View() == Unregister(r, known, Codes(n, n, reply, false, done))
      && Removals(out, ids, known, Codes(n, n, reply, false, done), None)
      && wire == w + Calls(RemoveRpc, known, HandlesOf(r.items, known), done)
    }

    ghost predicate RemovedAll(r: Registry, w: seq<Rpc>, ids: seq<ItemId>, known: seq<ItemId>,
                               reply: nat -> Reply<()>, out: map<ItemId, Option<RemoveError>>, err: Option<OpError>)
      reads this
    {
      var n := |known|;
      && View() == Unregister(r, known, AllCodes(n, n, reply, false))
      && Removals(out, ids, known, AllCodes(n, n, reply, false), err)
      && wire == w + Calls(RemoveRpc, known, HandlesOf(r.items, known), Sent(n, n, reply, false))
      && err == StopError(n, n, reply, false)
    }

    /** The handles that the loop over a chunk looks up are those registered at the start. */
    method LookUp(ghost r: Registry, known: seq<ItemId>, ghost codes: seq<int32>, start: nat, end: nat)
      returns (handles: seq<Arg>)
      requires KnownIn(r, known) && |codes| == start <= end <= |known|
      requires View() == Unregister(r, known, codes)
      ensures handles == HandlesOf(r.items, known)[start..end]
    {
      handles := [];
      UnregisterItems(r, known, codes);
      for i := start to end
        invariant handles == HandlesOf(r.items, known)[start..i]
      {
        handles := handles + [Handle(items[known[i]].handle)];
      }
    }

    /** What the last of the codes does to its item. */
    method RecordRemoval(ghost r: Registry, ghost ids: seq<ItemId>, ghost known: seq<ItemId>, ghost codes: seq<int32>,
                         id: ItemId, error: int32, was: map<ItemId, Option<RemoveError>>)
      returns (out: map<ItemId, Option<RemoveError>>)
      requires Distinct(known) && 0 < |codes| <= |known| && id == known[|codes| - 1] && error == codes[|codes| - 1]
      requires View() == Unregister(r, known, codes[..|codes| - 1])
      requires Removals(was, ids, known, codes[..|codes| - 1], None)
      modifies this`items, this`order
      ensures View() == Unregister(r, known, codes) && Removals(out, ids, known, codes, None)
    {
      RemovalStep(was, ids, known, codes);
      if error < 0 {
        out := was[id := Some(RemoveRefused(error))];
      } else {
        out := was[id := None];
        items := items - {id};
        order := Erase(order, id);
      }
    }

    /** The loop over the results of one chunk. */
    method RecordRemovals(ghost r: Registry, ids: seq<ItemId>, known: seq<ItemId>, ghost before: seq<int32>,
                          start: nat, errors: seq<int32>, was: map<ItemId, Option<RemoveError>>)
      returns (out: map<ItemId, Option<RemoveError>>)
      requires Distinct(known) && |before| == start && |before + errors| <= |known|
      requires View() == Unregister(r, known, before) && Removals(was, ids, known, before, None)
      modifies this`items, this`order
      ensures View() == Unregister(r, known, before + errors) && Removals(out, ids, known, before + errors, None)
    {
      out := was;
      ghost var codes := before + errors;
      assert codes[..start] == before;
      for i := 0 to |errors|
        invariant View() == Unregister(r, known, codes[..start + i])
        invariant Removals(out, ids, known, codes[..start + i], None)
      {
        ghost var next := codes[..start + i + 1];
        assert next[..|next| - 1] == codes[..start + i] && next[|next| - 1] == errors[i];
        out := RecordRemoval(r, ids, known, next, known[start + i], errors[i], out);
      }
      assert codes[..start + |errors|] == codes;
    }

    /** Sends the request for chunk c and looks at the reply as a whole. */
    method RequestRemoval(ghost r: Registry, ghost w: seq<Rpc>, known: seq<ItemId>, ghost codes: seq<int32>,
                          reply: nat -> Reply<()>, c: nat)
      returns (err: Option<OpError>, errors: seq<int32>)
      requires Start(c) < |known| && KnownIn(r, known) && |codes| == Start(c)
      requires View() == Unregister(r, known, codes)
      requires wire == w + Calls(RemoveRpc, known, HandlesOf(r.items, known), Start(c))
      modifies this`wire
      ensures err.None? <==> Completes(|known|, |known|, reply, false, c)
      ensures err.Some? ==> err == ChunkError(|known|, |known|, reply, c)
      ensures err.None? ==> errors == reply(c).errors
      ensures wire == w + Calls(RemoveRpc, known, HandlesOf(r.items, known), End(|known|, c))
    {
      var start, end := Start(c), End(|known|, c);
      CallsStep(RemoveRpc, known, HandlesOf(r.items, known), c);
      var handles := LookUp(r, known, codes, start, end);
      wire := wire + [Rpc(RemoveRpc, known[start..end], handles)];
      match reply(c)
      case Lost =>
        err, errors := Some(CallLost), [];
      case Replied(hresult, _, answers) =>
        errors := answers;
        err := if hresult < 0 then Some(CallRefused(hresult))
               else if |errors| != end - start then Some(MissingArrays)
               else None;
    }

    /** One round of the loop of removeItems. */
    method RemoveChunk(ghost r: Registry, ghost w: seq<Rpc>, ids: seq<ItemId>, known: seq<ItemId>,
                       reply: nat -> Reply<()>, c: nat, was: map<ItemId, Option<RemoveError>>)
      returns (out: map<ItemId, Option<RemoveError>>, err: Option<OpError>)
      requires KnownIn(r, known)
      requires Start(c) < |known| && RemovedUpTo(r, w, ids, known, reply, c, was)
      modifies this
      ensures err.None? ==> RemovedUpTo(r, w, ids, known, reply, c + 1, out)
      ensures err.Some? ==> RemovedAll(r, w, ids, known, reply, out, err)
    {
      ghost var n := |known|;
      ghost var codes := Codes(n, n, reply, false, Start(c));
      var errors;
      err, errors := RequestRemoval(r, w, known, codes, reply, c);
      if err.Some? {
        StopsAt(n, n, reply, false, c);
        out := Unconfirmed(ids, known, codes, err, Start(c), was);
        return;
      }
      StopAfter(n, n, reply, false, c);
      ChunkCodes(n, n, reply, false, c);
      out := RecordRemovals(r, ids, known, codes, Start(c), errors, was);
    }

    lemma RemoveStarts(ids: seq<ItemId>, known: seq<ItemId>, reply: nat -> Reply<()>, out: map<ItemId,
                       Option<RemoveError>>)
      requires Removals(out, ids, known, [], None)
      ensures RemovedUpTo(View(), wire, ids, known, reply, 0, out)
    {}

    lemma RemoveEnds(r: Registry, w: seq<Rpc>, ids: seq<ItemId>, known: seq<ItemId>, reply: nat -> Reply<()>, c: nat,
                     out: map<ItemId, Option<RemoveError>>)
      requires RemovedUpTo(r, w, ids, known, reply, c, out) && Start(c) >= |known|
      ensures RemovedAll(r, w, ids, known, reply, out, None)
    {
      StopsAt(|known|, |known|, reply, false, c);
    }

    /** The RPC loop of removeItems. */
    method SendRemovals(ids: seq<ItemId>, known: seq<ItemId>, reply: nat -> Reply<()>, was: map<ItemId,
                        Option<RemoveError>>)
      returns (out: map<ItemId, Option<RemoveError>>, err: Option<OpError>)
      requires KnownIn(View(), known) && Removals(was, ids, known, [], None)
      modifies this
      ensures RemovedAll(old(View()), old(wire), ids, known, reply, out, err)
    {
      ghost var r, w := View(), wire;
      out := was;
      RemoveStarts(ids, known, reply, out);
      var c := 0;
      while Start(c) < |known|
        invariant RemovedUpTo(r, w, ids, known, reply, c, out)
        decreases |known| - Start(c)
      {
        out, err := RemoveChunk(r, w, ids, known, reply, c, out);
        if err.Some? {
          return;
        }
        c := c + 1;
      }
      RemoveEnds(r, w, ids, known, reply, c, out);
      err := None;
    }

    /** The first loop of removeItems. */
    method CollectKnown(ids: seq<ItemId>) returns (known: seq<ItemId>, out: map<ItemId, Option<RemoveError>>)
      ensures known == Registered(items, ids) && Removals(out, ids, known, [], None)
    {
      out, known := map[], [];
      for i := 0 to |ids|
        invariant known == Registered(items, ids[..i]) && Seen(out, ids[..i])
      {
        var id := ids[i];
        RegisteredStep(items, ids[..i], id);
        assert ids[..i + 1] == ids[..i] + [id];
        if id in out {
          continue;
        }
        out := out[id := None];
        if id in items {
          known := known + [id];
        }
      }
      assert ids[..|ids|] == ids;
      RegisteredFacts(items, ids);
    }

    method RemoveItems(ids: seq<ItemId>, refused: Option<OpError>, reply: nat -> Reply<()>)
      returns (out: map<ItemId, Option<RemoveError>>, err: Option<OpError>)
      modifies this
      ensures refused.Some? ==>
                && View() == old(View()) && wire == old(wire) && err == refused
                && out == map id | id in ids :: Some(Preflight(refused.value))
      ensures refused.None? ==>
                var r := old(View());
                var known := Registered(r.items, ids);
                var n := |known|;
                && View() == Remove(r, ids, reply)
                && err == StopError(n, n, reply, false)
                && Removals(out, ids, known, AllCodes(n, n, reply, false), err)
                && wire == old(wire) + Calls(RemoveRpc, known, HandlesOf(r.items, known), Sent(n, n, reply, false))
      ensures refused.None? ==> RemovalsSay(out, Registered(old(items), ids), reply, err)
      ensures refused.None? ==> forall id :: id in ids ==> id in out && (out[id].None? <==> id !in items)
    {
      if refused.Some? {
        return map id | id in ids :: Some(Preflight(refused.value)), refused;
      }
      ghost var r := View();
      var known;
      known, out := CollectKnown(ids);
      RegisteredFacts(items, ids);
      out, err := SendRemovals(ids, known, reply, out);
      ghost var n := |known|;
      StopErrorCases(n, n, reply, false);
      RemovalsMean(out, ids, known, reply, err);
      forall id | id in ids { NilIffNotRegistered(r, ids, AllCodes(n, n, reply, false), err, out, id); }
    }

    /** The first loop of readLocked. */
    method Split(ids: seq<ItemId>)
      returns (out: array<ReadResult>, observed: array<bool>, positions: seq<nat>, known: seq<ItemId>,
               handles: seq<Arg>)
      ensures fresh(out) && fresh(observed)
      ensures out[..] == Full(items, ids, []) && observed[..] == Observed(items, ids, 0)
      ensures Placed(items, ids, positions, known, handles)
    {
      out := new ReadResult[|ids|](_ => ReadResult([], NotRegistered));
      observed := new bool[|ids|](_ => false);
      positions, known, handles := [], [], [];
      for i := 0 to |ids|
        invariant Placed(items, ids[..i], positions, known, handles)
        invariant Marked(out, observed, items, ids, i)
      {
        var id := ids[i];
        assert ids[..i + 1] == ids[..i] + [id];
        PlacedStep(items, ids[..i], positions, known, handles, id);
        Mark(out, observed, items, ids, i);
        if id in items {
          known := known + [id];
          positions := positions + [i];
          handles := handles + [Handle(items[id].handle)];
        }
      }
      assert ids[..|ids|] == ids;
      MarkedIsFull(out, observed, items, ids);
    }

    /** Every registered item before chunk c is answered. */
    ghost predicate ReadUpTo(read: Reader, ids: seq<ItemId>, reply: nat -> Reply<ReadState>, c: nat,
                             out: array<ReadResult>, observed: array<bool>)
      reads this`items, out, observed
    {
      var n := |Positions(items, ids)|;
      var done := Least(Start(c), n);
      && Stop(n, n, reply, true, 0) == Stop(n, n, reply, true, c)
      && done <= Confirmed(n, n, reply, true)
      && out[..] == Full(items, ids, ReadAnswers(read, n, reply, done))
      && observed[..] == Observed(items, ids, done)
    }

    ghost predicate ReadAll(read: Reader, ids: seq<ItemId>, reply: nat -> Reply<ReadState>,
                            out: array<ReadResult>, observed: array<bool>, err: Option<OpError>)
      reads this`items, out, observed
    {
      var n := |Positions(items, ids)|;
      && out[..] == Full(items, ids, AllAnswers(read, n, reply))
      && observed[..] == Observed(items, ids, |AllAnswers(read, n, reply)|)
      && err == StopError(n, n, reply, true)
    }

    /** The loop over the results of one chunk. */
    method RecordValues(read: Reader, ids: seq<ItemId>, positions: seq<nat>, known: seq<ItemId>, start: nat,
                        ghost before: seq<ReadAnswer>, states: seq<ReadState>, errors: seq<int32>,
                        out: array<ReadResult>, observed: array<bool>)
      requires positions == Positions(items, ids) && known == KnownIds(items, ids)
      requires |before| == start && |states| == |errors| && start + |errors| <= |positions|
      requires out[..] == Full(items, ids, before) && observed[..] == Observed(items, ids, start)
      modifies out, observed
      ensures out[..] == Full(items, ids, before + AnswersOf(read, states, errors))
      ensures observed[..] == Observed(items, ids, start + |errors|)
    {
      for i := 0 to |errors|
        invariant |AnswersOf(read, states[..i], errors[..i])| == i
        invariant out[..] == Full(items, ids, before + AnswersOf(read, states[..i], errors[..i]))
        invariant observed[..] == Observed(items, ids, start + i)
      {
        ghost var answers := before + AnswersOf(read, states[..i], errors[..i]);
        var a := read(states[i], errors[i]);
        assert states[..i + 1][..i] == states[..i] && errors[..i + 1][..i] == errors[..i];
        assert answers + [a] == before + AnswersOf(read, states[..i + 1], errors[..i + 1]);
        RecordValue(ids, answers, a, positions[start + i], known[start + i], out, observed);
      }
      assert states[..|errors|] == states && errors[..|errors|] == errors;
    }

    method RecordValue(ghost ids: seq<ItemId>, ghost answers: seq<ReadAnswer>, a: ReadAnswer, at: nat, id: ItemId,
                       out: array<ReadResult>, observed: array<bool>)
      requires |answers| < |Positions(items, ids)|
      requires at == Positions(items, ids)[|answers|] && id == KnownIds(items, ids)[|answers|]
      requires out[..] == Full(items, ids, answers) && observed[..] == Observed(items, ids, |answers|)
      modifies out, observed
      ensures out[..] == Full(items, ids, answers + [a]) && observed[..] == Observed(items, ids, |answers| + 1)
    {
      PositionOfRank(items, ids, |answers|);
      FullStep(items, ids, answers, a);
      assert out.Length == |ids| && observed.Length == |ids|;
      out[at] := ReadResult(id, a);
      observed[at] := true;
    }

    /** Sends the request for chunk c and looks at the reply as a whole. */
    method RequestRead(ghost w: seq<Rpc>, known: seq<ItemId>, handles: seq<Arg>, reply: nat -> Reply<ReadState>, c: nat)
      returns (err: Option<OpError>, states: seq<ReadState>, errors: seq<int32>)
      requires Start(c) < |known| == |handles| && wire == w + Calls(ReadRpc, known, handles, Start(c))
      modifies this`wire
      ensures err.None? <==> Completes(|known|, |known|, reply, true, c)
      ensures err.Some? ==> err == ChunkError(|known|, |known|, reply, c)
      ensures err.None? ==> reply(c).states == states && reply(c).errors == errors
      ensures wire == w + Calls(ReadRpc, known, handles, End(|known|, c))
    {
      var start, end := Start(c), End(|known|, c);
      CallsStep(ReadRpc, known, handles, c);
      wire := wire + [Rpc(ReadRpc, known[start..end], handles[start..end])];
      match reply(c)
      case Lost =>
        err, states, errors := Some(CallLost), [], [];
      case Replied(hresult, values, codes) =>
        states, errors := values, codes;
        err := if hresult < 0 then Some(CallRefused(hresult))
               else if |errors| != end - start || |states| != end - start then Some(MissingArrays)
               else None;
    }

    lemma ReadStarts(read: Reader, ids: seq<ItemId>, reply: nat -> Reply<ReadState>,
                     out: array<ReadResult>, observed: array<bool>)
      requires out[..] == Full(items, ids, []) && observed[..] == Observed(items, ids, 0)
      ensures ReadUpTo(read, ids, reply, 0, out, observed)
    {}

    lemma ReadEnds(read: Reader, ids: seq<ItemId>, reply: nat -> Reply<ReadState>, c: nat,
                   out: array<ReadResult>, observed: array<bool>)
      requires ReadUpTo(read, ids, reply, c, out, observed) && Start(c) >= |Positions(items, ids)|
      ensures ReadAll(read, ids, reply, out, observed, None)
    {
      var n := |Positions(items, ids)|;
      StopsAt(n, n, reply, true, c);
    }

    lemma ReadFails(read: Reader, ids: seq<ItemId>, reply: nat -> Reply<ReadState>, c: nat,
                    out: array<ReadResult>, observed: array<bool>)
      requires ReadUpTo(read, ids, reply, c, out, observed)
      requires var n := |Positions(items, ids)|; Start(c) < n && !Completes(n, n, reply, true, c)
      ensures var n := |Positions(items, ids)|; ReadAll(read, ids, reply, out, observed, ChunkError(n, n, reply, c))
    {
      var n := |Positions(items, ids)|;
      StopsAt(n, n, reply, true, c);
    }

    /** The results of a complete reply to chunk c. */
    method AcceptRead(read: Reader, ids: seq<ItemId>, positions: seq<nat>, known: seq<ItemId>,
                      ghost reply: nat -> Reply<ReadState>, c: nat, states: seq<ReadState>, errors: seq<int32>,
                      out: array<ReadResult>, observed: array<bool>)
      requires positions == Positions(items, ids) && known == KnownIds(items, ids) && Start(c) < |known|
      requires ReadUpTo(read, ids, reply, c, out, observed) && Completes(|known|, |known|, reply, true, c)
      requires reply(c).states == states && reply(c).errors == errors
      modifies out, observed
      ensures ReadUpTo(read, ids, reply, c + 1, out, observed)
    {
      ghost var n := |known|;
      StopAfter(n, n, reply, true, c);
      ChunkAnswers(read, n, reply, c);
      ghost var before := ReadAnswers(read, n, reply, Start(c));
      RecordValues(read, ids, positions, known, Start(c), before, states, errors, out, observed);
    }

    /** One round of the loop of readLocked. */
    method ReadChunk(read: Reader, ghost w: seq<Rpc>, ids: seq<ItemId>, positions: seq<nat>, known: seq<ItemId>,
                     handles: seq<Arg>, reply: nat -> Reply<ReadState>, c: nat,
                     out: array<ReadResult>, observed: array<bool>)
      returns (err: Option<OpError>)
      requires Placed(items, ids, positions, known, handles) && Start(c) < |known|
      requires ReadUpTo(read, ids, reply, c, out, observed) && wire == w + Calls(ReadRpc, known, handles, Start(c))
      modifies this`wire, out, observed
      ensures err.None? ==> ReadUpTo(read, ids, reply, c + 1, out, observed)
      ensures err.Some? ==>
                ReadAll(read, ids, reply, out, observed, err) && !Completes(|known|, |known|, reply, true, c)
      ensures err.None? ==> Completes(|known|, |known|, reply, true, c)
      ensures wire == w + Calls(ReadRpc, known, handles, End(|known|, c))
    {
      var states, errors;
      err, states, errors := RequestRead(w, known, handles, reply, c);
      if err.Some? {
        ReadFails(read, ids, reply, c, out, observed);
        return;
      }
      AcceptRead(read, ids, positions, known, reply, c, states, errors, out, observed);
    }

    /** The RPC loop of readLocked. */
    method ReadChunks(read: Reader, ids: seq<ItemId>, positions: seq<nat>, known: seq<ItemId>, handles: seq<Arg>,
                      reply: nat -> Reply<ReadState>, out: array<ReadResult>, observed: array<bool>)
      returns (err: Option<OpError>)
      requires Placed(items, ids, positions, known, handles)
      requires out[..] == Full(items, ids, []) && observed[..] == Observed(items, ids, 0)
      modifies this`wire, out, observed
      ensures ReadAll(read, ids, reply, out, observed, err)
      ensures wire == old(wire) + Calls(ReadRpc, known, handles, Sent(|known|, |known|, reply, true))
    {
      ghost var w := wire;
      ReadStarts(read, ids, reply, out, observed);
      var c := 0;
      while Start(c) < |known|
        invariant ReadUpTo(read, ids, reply, c, out, observed)
        invariant wire == w + Calls(ReadRpc, known, handles, Least(Start(c), |known|))
        decreases |known| - Start(c)
      {
        err := ReadChunk(read, w, ids, positions, known, handles, reply, c, out, observed);
        if err.Some? {
          StopsAt(|known|, |known|, reply, true, c);
          return;
        }
        c := c + 1;
      }
      StopsAt(|known|, |known|, reply, true, c);
      ReadEnds(read, ids, reply, c, out, observed);
      return None;
    }

    /** readLocked with any conversion of an item state. */
    method ReadWith(read: Reader, ids: seq<ItemId>, refused: Option<OpError>, reply: nat -> Reply<ReadState>)
      returns (out: array<ReadResult>, count: nat, err: Option<OpError>)
      modifies this`wire
      ensures fresh(out) && count <= out.Length
      ensures refused.Some? ==> wire == old(wire) && count == 0 && err == refused
      ensures refused.None? ==>
                var n := |Positions(items, ids)|;
                var known := KnownIds(items, ids);
                && out[..count] == Results(items, ids, AllAnswers(read, n, reply))
                && err == StopError(n, n, reply, true)
                && wire == old(wire) + Calls(ReadRpc, known, HandlesOf(items, known), Sent(n, n, reply, true))
      ensures refused.None? && err.None? ==>
                count == |ids| && forall j :: 0 <= j < |ids| ==> out[j].id == ids[j]
    {
      if refused.Some? {
        out := new ReadResult[0];
        return out, 0, refused;
      }
      var observed, positions, known, handles;
      out, observed, positions, known, handles := Split(ids);
      err := ReadChunks(read, ids, positions, known, handles, reply, out, observed);
      if err.Some? {
        count := Compact(out, observed);
        return;
      }
      StopErrorCases(|known|, |known|, reply, true);
      CompleteIsFull(items, ids, AllAnswers(read, |known|, reply));
      count := out.Length;
      assert out[..count] == out[..];
      OwnIds(out, items, ids, AllAnswers(read, |known|, reply));
    }

    method ReadLocked(fl: Floats, ids: seq<ItemId>, refused: Option<OpError>, reply: nat -> Reply<ReadState>)
      returns (out: array<ReadResult>, count: nat, err: Option<OpError>)
      modifies this`wire
      ensures fresh(out) && count <= out.Length
      ensures refused.Some? ==> wire == old(wire) && count == 0 && err == refused
      ensures refused.None? ==>
                var n := |Positions(items, ids)|;
                var known := KnownIds(items, ids);
                && out[..count] == Results(items, ids, AllAnswers(ReaderFor(fl), n, reply))
                && err == StopError(n, n, reply, true)
                && wire == old(wire) + Calls(ReadRpc, known, HandlesOf(items, known), Sent(n, n, reply, true))
      ensures refused.None? ==> Rendered(fl, items, ids, reply, out[..count])
      ensures refused.None? && err.None? ==>
                count == |ids| && forall j :: 0 <= j < |ids| ==> out[j].id == ids[j]
    {
      ReadIsRendered(fl, items, ids, reply, AllAnswers(ReaderFor(fl), |KnownIds(items, ids)|, reply));
      out, count, err := ReadWith(ReaderFor(fl), ids, refused, reply);
    }

    /** The whole group in registration order, whatever order the map is iterated in. */
    method ReadGroup(fl: Floats, keys: seq<ItemId>, refused: Option<OpError>, reply: nat -> Reply<ReadState>)
      returns (out: array<ReadResult>, count: nat, err: Option<OpError>)
      requires Sound(View()) && Distinct(keys) && Elements(keys) == items.Keys
      modifies this`wire
      ensures fresh(out) && count <= out.Length
      ensures refused.Some? ==> wire == old(wire) && count == 0 && err == refused
      ensures refused.None? ==>
                && out[..count] == Results(items, order, AllAnswers(ReaderFor(fl), |order|, reply))
                && err == StopError(|order|, |order|, reply, true)
                && Rendered(fl, items, order, reply, out[..count])
                && wire == old(wire) +
                     Calls(ReadRpc, order, HandlesOf(items, order), Sent(|order|, |order|, reply, true))
    {
      var ids := Sort(ByClient(items), keys);
      SortedByClient(View(), keys);
      AllKnown(items, order);
      out, count, err := ReadLocked(fl, ids, refused, reply);
    }

    /** Sends the request for chunk c and looks at the reply as a whole. */
    method RequestWrite(ghost w: seq<Rpc>, known: seq<ItemId>, args: seq<Arg>, reply: nat -> Reply<()>, c: nat)
      returns (err: Option<WriteError>, errors: seq<int32>)
      requires Start(c) < |known| == |args| && wire == w + Calls(WriteRpc, known, args, Start(c))
      modifies this`wire
      ensures err.None? <==> Completes(|known|, |known|, reply, false, c)
      ensures err.Some? ==> err == Some(Failure(reply(c)))
      ensures err.None? ==> reply(c).errors == errors
      ensures wire == w + Calls(WriteRpc, known, args, End(|known|, c))
    {
      var start, end := Start(c), End(|known|, c);
      CallsStep(WriteRpc, known, args, c);
      wire := wire + [Rpc(WriteRpc, known[start..end], args[start..end])];
      match reply(c)
      case Lost =>
        err, errors := Some(Unknown(CallLost)), [];
      case Replied(hresult, _, codes) =>
        errors := codes;
        err := if hresult < 0 then Some(CallFailed(hresult))
               else if |errors| != end - start then Some(Unknown(MissingArrays))
               else None;
    }

    /** One round of the loop of write. */
    method WriteChunk(ghost w: seq<Rpc>, ghost job: Job, known: seq<ItemId>, args: seq<Arg>,
                      reply: nat -> Reply<()>, c: nat, was: map<ItemId, Option<WriteError>>)
      returns (result: map<ItemId, Option<WriteError>>, err: Option<WriteError>)
      requires |known| == |args| && Distinct(known)
      requires Start(c) < |known| && WrittenUpTo(job, known, reply, c, was)
      requires wire == w + Calls(WriteRpc, known, args, Start(c))
      modifies this`wire
      ensures err.None? ==>
                && WrittenUpTo(job, known, reply, c + 1, result)
                && wire == w + Calls(WriteRpc, known, args, Least(Start(c + 1), |known|))
      ensures err.Some? ==>
                && WrittenAll(job, known, reply, result, err)
                && wire == w + Calls(WriteRpc, known, args, Sent(|known|, |known|, reply, false))
    {
      var errors;
      err, errors := RequestWrite(w, known, args, reply, c);
      if err.Some? {
        StopsAt(|known|, |known|, reply, false, c);
        result := RejectWrite(job, known, reply, c, err.value, was);
        return;
      }
      result := AcceptWrite(job, known, reply, c, errors, was);
    }

    /** The RPC loop of write. */
    method WriteChunks(ghost job: Job, known: seq<ItemId>, args: seq<Arg>,
                       reply: nat -> Reply<()>, was: map<ItemId, Option<WriteError>>)
      returns (result: map<ItemId, Option<WriteError>>, err: Option<WriteError>)
      requires |known| == |args| && Distinct(known) && Report(was, job, known, [], 0, None)
      modifies this`wire
      ensures WrittenAll(job, known, reply, result, err)
      ensures wire == old(wire) + Calls(WriteRpc, known, args, Sent(|known|, |known|, reply, false))
    {
      ghost var w := wire;
      result := was;
      var c := 0;
      while Start(c) < |known|
        invariant WrittenUpTo(job, known, reply, c, result)
        invariant wire == w + Calls(WriteRpc, known, args, Least(Start(c), |known|))
        decreases |known| - Start(c)
      {
        result, err := WriteChunk(w, job, known, args, reply, c, result);
        if err.Some? {
          return;
        }
        c := c + 1;
      }
      WriteEnds(job, known, reply, c, result);
      err := None;
    }

    /** The parameter keys is the order in which the map of values happens to be iterated. */
    method Write(fl: Floats, values: map<ItemId, Value>, keys: seq<ItemId>, refused: Option<OpError>,
                 reply: nat -> Reply<()>)
      returns (result: map<ItemId, Option<WriteError>>, err: Option<WriteError>)
      requires Distinct(keys) && Elements(keys) == values.Keys
      modifies this`wire
      ensures refused.Some? ==>
                && wire == old(wire) && err == Some(CallerError(refused.value))
                && result == map id | id in values :: Some(NotAttempted(Blocked(refused.value)))
      ensures refused.None? ==>
                var job := JobFor(fl, items, values);
                var known := Writables(job, Sort(ByteLess, keys));
                var n := |known|;
                && Report(result, job, known, AllCodes(n, n, reply, false), Sent(n, n, reply, false), err)
                && err == WriteStop(n, reply)
                && WriteSays(result, job, known, reply, err)
                && wire == old(wire) +
                     Calls(WriteRpc, known, Assignments(job, Sort(ByteLess, keys)), Sent(n, n, reply, false))
    {
      if refused.Some? {
        return map id | id in values :: Some(NotAttempted(Blocked(refused.value))), Some(CallerError(refused.value));
      }
      ghost var job := JobFor(fl, items, values);
      SortedRequest(job, keys);
      var ids := Sort(ByteLess, keys);
      var known, args;
      result, known, args := Prepare(fl, items, values, job, ids);
      result, err := WriteChunks(job, known, args, reply, result);
      WriteMeans(result, job, ids, reply, err);
    }
  }
}
