/** What every step of the session protocol keeps. */
module ProtocolInvariant {
  import opened Wrappers
  import opened SessionTable
  import opened Keepalive
  import opened Protocol

  predicate Removes(o: Owner) {
    o.Remover? || o.Teardown?
  }

  /** What an operation knows about the group it is working on. */
  predicate ThreadOk(s: State, op: nat)
    requires op in s.threads
  {
    match s.threads[op]
    case AddCalling(c) => c.Some? ==> c.value in s.live && s.live[c.value] == Creating(op)
    case AddBuilding(g) => g < |s.insts| && s.insts[g].phase == Building(op) && s.insts[g].pin.NoPin?
    case AddReady(g) => g < |s.insts| && s.insts[g].phase == Building(op)
    case RemoveLookup(_, o) => Removes(o)
    case RemoveWaiting(id, g, o) => Removes(o) && g < |s.insts| && s.insts[g].id == Some(id)
    case RemoveOwning(id, g, o) =>
      Removes(o) && g < |s.insts| && s.insts[g].id == Some(id) && s.insts[g].gate == Some(op) && !s.insts[g].closed
    case Disposing(g, stage, o) =>
      && g < |s.insts| && s.insts[g].phase == Disposal(op)
      && (if o.Creator? then s.insts[g].id.None? && s.insts[g].creator == op
          else Removes(o) && s.insts[g].gate == Some(op) && s.insts[g].closed)
      && StageOk(s.insts[g].request, stage)
    case CallWaiting(g) => g < |s.insts| && s.insts[g].id.Some?
    case CallHolding(g) =>
      g < |s.insts| && s.insts[g].id.Some? && s.insts[g].gate == Some(op) && !s.insts[g].closed
    case Leaving(g, o) => !o.Creator? && g < |s.insts| && s.insts[g].id.Some? && s.insts[g].gate == Some(op)
    case _ => true
  }

  predicate StageOk(request: Request, stage: Stage) {
    match stage
    case Releasing => request.Unsent?
    case Removing => request.Unsent?
    case Awaiting => !request.Unsent?
    case Booking(removed) => !request.Unsent? && (removed ==> request == Executed(true))
    case Unpinning => !request.Unsent?
  }

  /** Exactly one operation, or the group table, or nobody, is responsible for an instance. */
  predicate InstOk(s: State, g: nat)
    requires g < |s.insts|
  {
    var i := s.insts[g];
    && (match i.phase
        case Building(op) =>
          && op == i.creator && op in s.threads && (s.threads[op] == AddBuilding(g) || s.threads[op] == AddReady(g))
          && i.id.None? && i.request.Unsent?
        case Registered(id) =>
          i.id == Some(id) && !i.closed && i.request.Unsent? && id in s.table.groups && s.table.groups[id] == g
        case Disposal(op) => op in s.threads && s.threads[op].Disposing? && s.threads[op].g == g
        case Disposed => !i.request.Unsent?)
    && (i.id.Some? ==> 1 <= i.id.value <= s.table.nextGroupID)
    && (i.id.Some? && !i.closed ==> i.phase == Registered(i.id.value))
    && (i.closed ==> i.id.Some?)
    && (i.id.None? ==> i.phase == Building(i.creator) || i.phase == Disposal(i.creator) || i.phase.Disposed?)
    && (i.pin.Unpinned? || i.pin.PinLost? ==> i.phase.Disposed?)
    && (i.pin.Pinned? ==> !i.phase.Disposed?)
  }

  ghost predicate TableOk(s: State) {
    && (forall id :: id in s.table.groups ==>
          s.table.groups[id] < |s.insts| && s.insts[s.table.groups[id]].phase == Registered(id))
    && (forall g, k :: 0 <= g < k < |s.insts| && s.insts[g].id.Some? ==> s.insts[g].id != s.insts[k].id)
    && s.table.nextGroupID <= MAX_INT
    && (s.table.closed <==> !s.closer.Idle?)
  }

  /** Every admitted operation has finished before teardown touches anything. */
  predicate PastDrain(c: Closer) {
    !c.Idle? && !c.Draining? && !c.TimedOut?
  }

  ghost function AdmittedOps(s: State): set<nat> {
    set op | op in s.threads && Admitted(s.threads[op])
  }

  ghost predicate DrainOk(s: State) {
    && s.table.groupOps == |AdmittedOps(s)|
    && (PastDrain(s.closer) ==> s.table.groupOps == 0)
    && (s.replays != map[] ==> PastDrain(s.closer) && !s.closer.Drained?)
    && (s.closer.Replaying? ==> s.closer.pend !! s.replays.Keys)
    && (s.pinger.None? ==> s.closer.ClosingTransport? || s.closer.TransportClosed?)
    && (forall op :: op in s.threads && TeardownOf(s.threads[op]) ==>
          s.closer.RemovingGroups? && s.closer.current == Some(op))
  }

  predicate TeardownOf(t: Thread) {
    match t
    case RemoveLookup(_, o) => o.Teardown?
    case RemoveWaiting(_, _, o) => o.Teardown?
    case RemoveOwning(_, _, o) => o.Teardown?
    case Disposing(_, _, o) => o.Teardown?
    case Leaving(_, o) => o.Teardown?
    case _ => false
  }

  predicate ReplayExecuted(s: State, handle: nat) {
    handle in s.replays && s.replays[handle].Executed?
  }

  predicate Held(s: State, g: nat) {
    g < |s.insts| && s.insts[g].handle in s.live && s.live[s.insts[g].handle] == Owned(g)
  }

  /** The server frees an instance only by executing a RemoveGroup meant for it. */
  ghost predicate ServerOk(s: State) {
    && (forall g :: 0 <= g < |s.insts| ==>
          (Held(s, g) <==> !s.insts[g].request.Executed? && !ReplayExecuted(s, s.insts[g].handle)))
    && (forall h :: h in s.live && s.live[h].Owned? ==> s.live[h].g < |s.insts| && s.insts[s.live[h].g].handle == h)
    && (forall h :: h in s.live && s.live[h].Creating? ==>
          s.live[h].op in s.threads && s.threads[s.live[h].op] == AddCalling(Some(h)))
  }

  ghost predicate ThreadsOk(s: State) {
    forall op :: op in s.threads ==> ThreadOk(s, op)
  }

  ghost predicate InstsOk(s: State) {
    forall g :: 0 <= g < |s.insts| ==> InstOk(s, g)
  }

  /** The instances with object id oid whose keepalive reference is in the given state. */
  ghost function Pins(insts: seq<Instance>, oid: nat, pin: Pin): set<nat> {
    set g: nat | g < |insts| && insts[g].oid == oid && insts[g].pin == pin
  }

  function Base(s: State, oid: nat): nat {
    if s.retained && oid == s.serverOid then 1 else 0
  }

  /** Conservation: an object's count is 1 if it is the retained server object, plus the pinned
      groups with that object id, plus the releases that failed. */
  ghost predicate Conserved(s: State, p: Ping, oid: nat) {
    Count(p, oid) == Base(s, oid) + |Pins(s.insts, oid, Pinned)| + |Pins(s.insts, oid, PinLost)|
  }

  ghost predicate PingOk(s: State) {
    s.pinger.Some? ==>
      && Consistent(s.pinger.value)
      && forall oid: nat :: Conserved(s, s.pinger.value, oid)
  }

  /** Operations, instances, the server and the drain agree. */
  ghost predicate Sturdy(s: State) {
    ThreadsOk(s) && InstsOk(s) && DrainOk(s) && ServerOk(s)
  }

  ghost predicate Inv(s: State) {
    Sturdy(s) && TableOk(s) && PingOk(s)
  }

  // ---- counting ----

  lemma Take(s: set<nat>, x: nat)
    ensures |s - {x}| + (if x in s then 1 else 0) == |s|
  {}

  lemma Recount(s: State, op: nat, t: Thread)
    ensures var n := |AdmittedOps(Go(s, op, t))|;
            n + (if op in s.threads && Admitted(s.threads[op]) then 1 else 0)
            == |AdmittedOps(s)| + (if Admitted(t) then 1 else 0)
  {
    var after, before := AdmittedOps(Go(s, op, t)), AdmittedOps(s);
    assert after - {op} == before - {op};
    Take(after, op);
    Take(before, op);
    assert (op in after <==> Admitted(t)) && (op in before <==> op in s.threads && Admitted(s.threads[op]));
  }

  lemma AdmittedCounts(s: State, op: nat)
    requires DrainOk(s) && op in s.threads && Admitted(s.threads[op])
    ensures s.table.groupOps > 0 && !PastDrain(s.closer) && s.replays == map[]
  {
    assert op in AdmittedOps(s);
  }

  lemma PinsUpdate(insts: seq<Instance>, g: nat, i: Instance, oid: nat, pin: Pin)
    requires g < |insts|
    ensures var n := |Pins(insts[g := i], oid, pin)|;
            n + (if insts[g].oid == oid && insts[g].pin == pin then 1 else 0)
            == |Pins(insts, oid, pin)| + (if i.oid == oid && i.pin == pin then 1 else 0)
  {
    var after, before := Pins(insts[g := i], oid, pin), Pins(insts, oid, pin);
    assert after - {g} == before - {g};
    Take(after, g);
    Take(before, g);
    assert g in after <==> i.oid == oid && i.pin == pin;
    assert g in before <==> insts[g].oid == oid && insts[g].pin == pin;
  }

  /** An update that leaves object id and pin alone, or touches only unpinned instances, keeps the ledger. */
  lemma LedgerUpdate(s: State, r: State, g: nat)
    requires PingOk(s) && g < |s.insts| && |r.insts| == |s.insts| && r.insts == s.insts[g := r.insts[g]]
    requires r.pinger == s.pinger && r.retained == s.retained && r.serverOid == s.serverOid
    requires (r.insts[g].pin == s.insts[g].pin && r.insts[g].oid == s.insts[g].oid) ||
             (s.insts[g].pin.NoPin? && r.insts[g].pin.NoPin?)
    ensures PingOk(r)
  {
    if r.pinger.Some? {
      forall oid: nat
        ensures Conserved(r, r.pinger.value, oid)
      {
        assert Conserved(s, s.pinger.value, oid);
        PinsUpdate(s.insts, g, r.insts[g], oid, Pinned);
        PinsUpdate(s.insts, g, r.insts[g], oid, PinLost);
      }
    }
  }

  lemma LedgerSame(s: State, r: State)
    requires PingOk(s) && r.insts == s.insts && r.retained == s.retained && r.serverOid == s.serverOid
    requires r.pinger == s.pinger || r.pinger.None?
    ensures PingOk(r)
  {
    if r.pinger.Some? {
      forall oid: nat
        ensures Conserved(r, r.pinger.value, oid)
      {
        assert Conserved(s, s.pinger.value, oid);
      }
    }
  }

  // ---- the steps ----

  lemma InitialInv(s: State)
    requires Initial(s)
    ensures Inv(s)
  {
    assert AdmittedOps(s) == {};
    forall oid: nat
      ensures Conserved(s, s.pinger.value, oid)
    {
      assert Pins(s.insts, oid, Pinned) == {} && Pins(s.insts, oid, PinLost) == {};
    }
  }

  // ---- one operation, one instance ----

  /** Only operation op and instance g differ (no instance when g is out of range). */
  ghost predicate Touches(s: State, r: State, op: nat, g: nat) {
    && |r.insts| == |s.insts|
    && (forall k :: 0 <= k < |s.insts| && k != g ==> r.insts[k] == s.insts[k])
    && (forall o :: o != op ==> (o in r.threads <==> o in s.threads))
    && (forall o :: o != op && o in s.threads ==> r.threads[o] == s.threads[o])
  }

  /** The change of an instance respects what other operations know about it. */
  predicate Compatible(old_: Instance, new_: Instance, op: nat) {
    && (old_.phase.Building? && old_.phase.op != op ==> new_ == old_)
    && (old_.phase.Disposal? && old_.phase.op != op ==>
          && new_.phase == old_.phase && new_.request == old_.request
          && new_.creator == old_.creator && new_.id == old_.id)
    && (old_.gate.Some? && old_.gate.value != op ==> new_.gate == old_.gate && new_.closed == old_.closed)
    && (old_.id.Some? ==> new_.id == old_.id)
  }

  predicate Responsible(t: Thread) {
    t.AddBuilding? || t.AddReady? || t.Disposing?
  }

  lemma ThreadsKeep(s: State, r: State, op: nat, g: nat)
    requires ThreadsOk(s) && Touches(s, r, op, g) && op in r.threads && ThreadOk(r, op)
    requires g < |s.insts| ==> Compatible(s.insts[g], r.insts[g], op)
    requires forall h :: h in s.live && s.live[h].Creating? && s.live[h].op != op ==>
              h in r.live && r.live[h] == s.live[h]
    ensures ThreadsOk(r)
  {
    forall o | o in r.threads && o != op
      ensures ThreadOk(r, o)
    {
      assert ThreadOk(s, o);
    }
  }

  lemma InstsKeep(s: State, r: State, op: nat, g: nat)
    requires InstsOk(s) && Touches(s, r, op, g) && (g < |s.insts| ==> InstOk(r, g))
    requires op in s.threads && Responsible(s.threads[op]) ==> s.threads[op].g == g
    requires s.table.nextGroupID <= r.table.nextGroupID
    requires forall id :: id in s.table.groups && s.table.groups[id] != g ==>
               id in r.table.groups && r.table.groups[id] == s.table.groups[id]
    ensures InstsOk(r)
  {
    forall k | 0 <= k < |r.insts| && k != g
      ensures InstOk(r, k)
    {
      assert InstOk(s, k);
    }
  }

  lemma ServerKeep(s: State, r: State, op: nat, g: nat)
    requires ServerOk(s) && Touches(s, r, op, g) && r.live == s.live && r.replays == s.replays
    requires g < |s.insts| ==>
               && r.insts[g].handle == s.insts[g].handle
               && (r.insts[g].request.Executed? <==> s.insts[g].request.Executed?)
    requires op in s.threads && s.threads[op].AddCalling? ==> s.threads[op].created.None?
    ensures ServerOk(r)
  {
    forall k | 0 <= k < |r.insts|
      ensures Held(r, k) <==> !r.insts[k].request.Executed? && !ReplayExecuted(r, r.insts[k].handle)
    {
      assert Held(s, k) <==> !s.insts[k].request.Executed? && !ReplayExecuted(s, s.insts[k].handle);
    }
  }

  lemma TableKeep(s: State, r: State, op: nat, g: nat)
    requires TableOk(s) && Touches(s, r, op, g)
    requires r.table.(groupOps := s.table.groupOps, pending := s.table.pending) == s.table && r.closer == s.closer
    requires g < |s.insts| ==>
               && r.insts[g].id == s.insts[g].id
               && (s.insts[g].phase.Registered? ==> r.insts[g].phase == s.insts[g].phase)
    ensures TableOk(r)
  {
    forall i, k | 0 <= i < k < |r.insts| && r.insts[i].id.Some?
      ensures r.insts[i].id != r.insts[k].id
    {
      assert s.insts[i].id == r.insts[i].id && s.insts[k].id == r.insts[k].id;
    }
  }

  lemma DrainKeep(s: State, r: State, op: nat)
    requires DrainOk(s) && op in r.threads && r.threads == s.threads[op := r.threads[op]]
    requires r.closer == s.closer && r.replays == s.replays && r.pinger.Some? == s.pinger.Some?
    requires Accounted(s, r, op)
    ensures DrainOk(r)
  {
    Recount(s, op, r.threads[op]);
    assert AdmittedOps(r) == AdmittedOps(Go(s, op, r.threads[op]));
    if op in s.threads && Admitted(s.threads[op]) {
      AdmittedCounts(s, op);
    }
  }

  /** One operation moves on and one instance changes; the table keeps its groups. */
  lemma TouchKeeps(s: State, r: State, op: nat, g: nat)
    requires Sturdy(s) && g < |s.insts| == |r.insts| && op in s.threads && op in r.threads
    requires r.insts == s.insts[g := r.insts[g]] && r.threads == s.threads[op := r.threads[op]]
    requires ThreadOk(r, op) && InstOk(r, g)
    requires Compatible(s.insts[g], r.insts[g], op)
    requires Responsible(s.threads[op]) ==> s.threads[op].g == g
    requires !s.threads[op].AddCalling?
    requires r.live == s.live && r.replays == s.replays && r.closer == s.closer && r.pinger.Some? == s.pinger.Some?
    requires r.insts[g].handle == s.insts[g].handle && (r.insts[g].request.Executed? <==> s.insts[g].request.Executed?)
    requires s.table.nextGroupID <= r.table.nextGroupID
    requires forall id :: id in s.table.groups && s.table.groups[id] != g ==>
               id in r.table.groups && r.table.groups[id] == s.table.groups[id]
    requires r.table.groupOps == s.table.groupOps && Admitted(r.threads[op]) == Admitted(s.threads[op])
    requires TeardownOf(r.threads[op]) ==> TeardownOf(s.threads[op])
    ensures Sturdy(r)
  {
    ThreadsKeep(s, r, op, g);
    InstsKeep(s, r, op, g);
    ServerKeep(s, r, op, g);
    DrainKeep(s, r, op);
  }

  /** An operation moves on without touching any instance. */
  predicate Moves(s: State, r: State, op: nat) {
    && op in r.threads
    && r == Go(s.(table := s.table.(groupOps := r.table.groupOps, pending := r.table.pending)), op, r.threads[op])
    && (op in s.threads ==>
          && (Responsible(s.threads[op]) ==>
                s.threads[op].Disposing? && r.threads[op].Disposing? && r.threads[op].g == s.threads[op].g)
          && (s.threads[op].AddCalling? ==> s.threads[op].created.None?))
  }

  /** The count of admitted operations follows the move, and nobody joins teardown. */
  predicate Accounted(s: State, r: State, op: nat)
    requires op in r.threads
  {
    var was := op in s.threads && Admitted(s.threads[op]);
    var is_ := Admitted(r.threads[op]);
    && r.table.groupOps + (if was then 1 else 0) == s.table.groupOps + (if is_ then 1 else 0)
    && (is_ && !was ==> !PastDrain(s.closer))
    && (TeardownOf(r.threads[op]) ==> op in s.threads && TeardownOf(s.threads[op]))
  }

  lemma MoveTouches(s: State, r: State, op: nat)
    requires ThreadsOk(s) && InstsOk(s) && ServerOk(s) && Moves(s, r, op) && ThreadOk(r, op)
    ensures ThreadsOk(r) && InstsOk(r) && ServerOk(r)
  {
    var g := if op in s.threads && Responsible(s.threads[op]) then s.threads[op].g else |s.insts|;
    ThreadsKeep(s, r, op, g);
    if g < |s.insts| {
      assert InstOk(s, g);
    }
    InstsKeep(s, r, op, g);
    ServerKeep(s, r, op, g);
  }

  lemma MoveKeeps(s: State, r: State, op: nat)
    requires Inv(s) && Moves(s, r, op) && ThreadOk(r, op) && Accounted(s, r, op)
    ensures Inv(r)
  {
    MoveTouches(s, r, op);
    TableKeep(s, r, op, |s.insts|);
    DrainKeep(s, r, op);
    LedgerSame(s, r);
  }

  /** A gate is taken or returned, and the operation moves on. */
  ghost predicate GateMove(s: State, r: State, op: nat) {
    && op in s.threads && op in r.threads
    && var t := s.threads[op];
       && (t.Leaving? || t.RemoveWaiting? || t.CallWaiting?) && t.g < |s.insts|
       && s.insts[t.g].gate == (if t.Leaving? then Some(op) else None)
       && r == Go(Put(s, t.g, s.insts[t.g].(gate := if t.Leaving? then None else Some(op))), op, r.threads[op])
       && Admitted(r.threads[op]) == Admitted(t)
       && (TeardownOf(r.threads[op]) ==> TeardownOf(t))
  }

  lemma GateTouches(s: State, r: State, op: nat)
    requires Sturdy(s) && GateMove(s, r, op) && ThreadOk(r, op)
    ensures Sturdy(r)
  {
    var g := s.threads[op].g;
    assert InstOk(s, g) && ThreadOk(s, op);
    GateInstOk(s, r, op);
    TouchKeeps(s, r, op, g);
  }

  lemma GateInstOk(s: State, r: State, op: nat)
    requires GateMove(s, r, op) && InstOk(s, s.threads[op].g)
    ensures InstOk(r, s.threads[op].g)
  {}

  lemma GateKeeps(s: State, r: State, op: nat)
    requires Inv(s) && GateMove(s, r, op) && ThreadOk(r, op)
    ensures Inv(r)
  {
    var g := s.threads[op].g;
    GateTouches(s, r, op);
    TableKeep(s, r, op, g);
    LedgerUpdate(s, r, g);
  }

  lemma OpKeeps(s: State, op: nat, e: OpEvent)
    requires Inv(s) && OpEnabled(s, op, e)
    ensures Inv(OpApply(s, op, e))
  {
    match e
    case Arrive(t) => ArriveKeeps(s, op, t);
    case GiveUp => GiveUpKeeps(s, op);
    case Admission => AdmissionKeeps(s, op);
    case OpDone => DoneKeeps(s, op);
    case GateRelease => GateReleaseKeeps(s, op);
    case CallFind => CallFindKeeps(s, op);
    case CallAcquire(cancelled) => CallAcquireKeeps(s, op, cancelled);
    case CallFinish => CallFinishKeeps(s, op);
    case _ =>
  }

  lemma ArriveKeeps(s: State, op: nat, t: Thread)
    requires Inv(s) && OpEnabled(s, op, Arrive(t))
    ensures Inv(OpApply(s, op, Arrive(t)))
  {
    MoveKeeps(s, OpApply(s, op, Arrive(t)), op);
  }

  lemma GiveUpKeeps(s: State, op: nat)
    requires Inv(s) && OpEnabled(s, op, GiveUp)
    ensures Inv(OpApply(s, op, GiveUp))
  {
    GivesUp(s, op);
    MoveKeeps(s, OpApply(s, op, GiveUp), op);
  }

  lemma GivesUp(s: State, op: nat)
    requires OpEnabled(s, op, GiveUp)
    ensures var r := OpApply(s, op, GiveUp);
            Moves(s, r, op) && ThreadOk(r, op) && Accounted(s, r, op)
  {}

  lemma AdmissionKeeps(s: State, op: nat)
    requires Inv(s) && OpEnabled(s, op, Admission)
    ensures Inv(OpApply(s, op, Admission))
  {
    MoveKeeps(s, OpApply(s, op, Admission), op);
  }

  lemma DoneKeeps(s: State, op: nat)
    requires Inv(s) && OpEnabled(s, op, OpDone)
    ensures Inv(OpApply(s, op, OpDone))
  {
    MoveKeeps(s, OpApply(s, op, OpDone), op);
  }

  lemma GateReleaseKeeps(s: State, op: nat)
    requires Inv(s) && OpEnabled(s, op, GateRelease)
    ensures Inv(OpApply(s, op, GateRelease))
  {
    assert ThreadOk(s, op);
    GateKeeps(s, OpApply(s, op, GateRelease), op);
  }

  lemma CallAcquireKeeps(s: State, op: nat, cancelled: bool)
    requires Inv(s) && OpEnabled(s, op, CallAcquire(cancelled))
    ensures Inv(OpApply(s, op, CallAcquire(cancelled)))
  {
    assert ThreadOk(s, op);
    GateKeeps(s, OpApply(s, op, CallAcquire(cancelled)), op);
  }

  lemma CallFindKeeps(s: State, op: nat)
    requires Inv(s) && OpEnabled(s, op, CallFind)
    ensures Inv(OpApply(s, op, CallFind))
  {
    assert ThreadOk(s, op);
    FoundOk(s, op);
    MoveKeeps(s, OpApply(s, op, CallFind), op);
  }

  lemma FoundOk(s: State, op: nat)
    requires Inv(s) && OpEnabled(s, op, CallFind)
    ensures ThreadOk(OpApply(s, op, CallFind), op)
  {
    assert ThreadOk(s, op);
    if s.threads[op].id in s.table.groups {
      assert InstOk(s, s.table.groups[s.threads[op].id]);
    }
  }

  lemma CallFinishKeeps(s: State, op: nat)
    requires Inv(s) && OpEnabled(s, op, CallFinish)
    ensures Inv(OpApply(s, op, CallFinish))
  {
    assert ThreadOk(s, op);
    MoveKeeps(s, OpApply(s, op, CallFinish), op);
  }

  // ---- addGroup ----

  /** An AddGroup call is served or fails: what the server holds changes at most under the
      handle of this call, which no instance has. */
  ghost predicate CallTurns(s: State, r: State, op: nat) {
    && op in s.threads && op in r.threads && s.threads[op].AddCalling?
    && r == s.(live := r.live, threads := s.threads[op := r.threads[op]])
    && Admitted(r.threads[op]) && !TeardownOf(r.threads[op])
    && (forall h :: h in s.live && !(s.live[h] == Creating(op)) ==> h in r.live && r.live[h] == s.live[h])
    && (forall h :: h in r.live && !r.live[h].Unknown? && r.live[h] != Creating(op) ==>
          h in s.live && s.live[h] == r.live[h])
    && (forall h :: h in r.live && r.live[h] == Creating(op) ==> r.threads[op] == AddCalling(Some(h)))
  }

  lemma CallTurnsHoldings(s: State, r: State, op: nat)
    requires ServerOk(s) && CallTurns(s, r, op)
    ensures ServerOk(r)
  {
    forall k | 0 <= k < |r.insts|
      ensures Held(r, k) <==> !r.insts[k].request.Executed? && !ReplayExecuted(r, r.insts[k].handle)
    {
      assert Held(r, k) <==> Held(s, k);
    }
  }

  lemma CallTurnsKeeps(s: State, r: State, op: nat)
    requires Inv(s) && CallTurns(s, r, op) && ThreadOk(r, op)
    ensures Inv(r)
  {
    ThreadsKeep(s, r, op, |s.insts|);
    InstsKeep(s, r, op, |s.insts|);
    CallTurnsHoldings(s, r, op);
    TableKeep(s, r, op, |s.insts|);
    DrainKeep(s, r, op);
    LedgerSame(s, r);
  }

  lemma ServerCreateKeeps(s: State, op: nat, h: nat)
    requires Inv(s) && AddEnabled(s, op, ServerCreate(h))
    ensures Inv(AddApply(s, op, ServerCreate(h)))
  {
    CallTurnsKeeps(s, AddApply(s, op, ServerCreate(h)), op);
  }

  lemma AddFailedKeeps(s: State, op: nat)
    requires Inv(s) && AddEnabled(s, op, AddFailed) && s.threads[op].created.Some?
    ensures Inv(AddApply(s, op, AddFailed))
  {
    assert ThreadOk(s, op);
    CallTurnsKeeps(s, AddApply(s, op, AddFailed), op);
  }

  lemma AddAnsweredLedger(s: State, op: nat)
    requires Inv(s) && AddEnabled(s, op, AddAnswered)
    ensures PingOk(AddApply(s, op, AddAnswered))
  {
    var r := AddApply(s, op, AddAnswered);
    if r.pinger.Some? {
      forall oid: nat
        ensures Conserved(r, r.pinger.value, oid)
      {
        assert Conserved(s, s.pinger.value, oid);
        assert Pins(r.insts, oid, Pinned) == Pins(s.insts, oid, Pinned);
        assert Pins(r.insts, oid, PinLost) == Pins(s.insts, oid, PinLost);
      }
    }
  }

  lemma AddAnsweredThreads(s: State, op: nat)
    requires ThreadsOk(s) && AddEnabled(s, op, AddAnswered)
    ensures ThreadsOk(AddApply(s, op, AddAnswered))
  {
    var r := AddApply(s, op, AddAnswered);
    assert ThreadOk(s, op);
    forall o | o in r.threads
      ensures ThreadOk(r, o)
    {
      assert o != op ==> ThreadOk(s, o);
    }
  }

  lemma AddAnsweredInsts(s: State, op: nat)
    requires ThreadsOk(s) && InstsOk(s) && ServerOk(s) && AddEnabled(s, op, AddAnswered)
    requires s.replays == map[]
    ensures InstsOk(AddApply(s, op, AddAnswered)) && ServerOk(AddApply(s, op, AddAnswered))
  {
    var r := AddApply(s, op, AddAnswered);
    assert ThreadOk(s, op);
    forall k | 0 <= k < |r.insts|
      ensures InstOk(r, k)
      ensures Held(r, k) <==> !r.insts[k].request.Executed? && !ReplayExecuted(r, r.insts[k].handle)
    {
      if k < |s.insts| {
        assert InstOk(s, k);
        assert Held(r, k) <==> Held(s, k);
      }
    }
  }

  /** A group is created. */
  lemma AddAnsweredKeeps(s: State, op: nat)
    requires Inv(s) && AddEnabled(s, op, AddAnswered)
    ensures Inv(AddApply(s, op, AddAnswered))
  {
    AdmittedCounts(s, op);
    AddAnsweredThreads(s, op);
    AddAnsweredInsts(s, op);
    DrainKeep(s, AddApply(s, op, AddAnswered), op);
    AddAnsweredLedger(s, op);
  }

  /** The references of a group under construction change. */
  lemma ReferencesKeep(s: State, op: nat, i: Instance)
    requires Inv(s) && op in s.threads && s.threads[op].AddBuilding? && s.threads[op].g < |s.insts|
    requires i == s.insts[s.threads[op].g].(refs := i.refs, oid := i.oid)
    ensures Inv(Put(s, s.threads[op].g, i))
  {
    var g := s.threads[op].g;
    var r := Put(s, g, i);
    assert r.threads == r.threads[op := r.threads[op]];
    assert ThreadOk(s, op) && InstOk(s, g);
    assert InstOk(r, g);
    TouchKeeps(s, r, op, g);
    TableKeep(s, r, op, g);
    LedgerUpdate(s, r, g);
  }

  lemma CreatorInst(s: State, op: nat, g: nat)
    requires op in s.threads && g < |s.insts| && ThreadOk(s, op) && InstOk(s, g)
    requires s.threads[op] == AddBuilding(g) || s.threads[op] == AddReady(g)
    ensures InstOk(BeginDisposal(s, op, g, Creator), g) && ThreadOk(BeginDisposal(s, op, g, Creator), op)
  {}

  /** The creator turns to disposal. */
  lemma CreatorDisposes(s: State, op: nat, g: nat)
    requires Inv(s) && op in s.threads && g < |s.insts|
    requires s.threads[op] == AddBuilding(g) || s.threads[op] == AddReady(g)
    ensures Inv(BeginDisposal(s, op, g, Creator))
  {
    var r := BeginDisposal(s, op, g, Creator);
    assert ThreadOk(s, op);
    CreatorTouches(s, op, g);
    TableKeep(s, r, op, g);
    LedgerUpdate(s, r, g);
  }

  lemma CreatorTouches(s: State, op: nat, g: nat)
    requires Sturdy(s) && op in s.threads && g < |s.insts|
    requires s.threads[op] == AddBuilding(g) || s.threads[op] == AddReady(g)
    ensures var r := BeginDisposal(s, op, g, Creator);
            Sturdy(r)
  {
    assert ThreadOk(s, op) && InstOk(s, g);
    CreatorInst(s, op, g);
    TouchKeeps(s, BeginDisposal(s, op, g, Creator), op, g);
  }

  /** The pinger changes without gaining or losing a count. */
  lemma PingerKeeps(s: State, p: Ping)
    requires Inv(s) && s.pinger.Some? && Consistent(p) && p.objects == s.pinger.value.objects
    ensures Inv(s.(pinger := Some(p)))
  {
    var r := s.(pinger := Some(p));
    assert ThreadsOk(r) by {
      forall o | o in r.threads ensures ThreadOk(r, o) { assert ThreadOk(s, o); }
    }
    assert InstsOk(r) by {
      forall k | 0 <= k < |r.insts| ensures InstOk(r, k) { assert InstOk(s, k); }
    }
    assert ServerOk(r) by {
      forall k | 0 <= k < |r.insts| ensures Held(r, k) <==> Held(s, k) {}
    }
    assert AdmittedOps(r) == AdmittedOps(s);
    forall oid: nat
      ensures Conserved(r, p, oid)
    {
      assert Conserved(s, s.pinger.value, oid);
    }
  }

  lemma RegisteredIdsBounded(s: State)
    requires Inv(s)
    ensures forall id :: id in s.table.groups ==> 1 <= id <= s.table.nextGroupID
  {
    forall id | id in s.table.groups
      ensures 1 <= id <= s.table.nextGroupID
    {
      assert InstOk(s, s.table.groups[id]);
    }
  }

  lemma RegisterTable(s: State, op: nat, g: nat)
    requires InstsOk(s) && TableOk(s) && g < |s.insts| && s.insts[g].id.None? && CanRegister(s.table)
    requires forall id :: id in s.table.groups ==> s.table.groups[id] != g
    ensures TableOk(RegisterStep(s, op, g))
  {
    var r := RegisterStep(s, op, g);
    forall i, k | 0 <= i < k < |r.insts| && r.insts[i].id.Some?
      ensures r.insts[i].id != r.insts[k].id
    {
      assert InstOk(s, i) && InstOk(s, k);
    }
  }

  lemma RegisterInst(s: State, op: nat, g: nat)
    requires op in s.threads && g < |s.insts| && InstOk(s, g) && s.threads[op] == AddReady(g) && CanRegister(s.table)
    requires s.insts[g].phase == Building(op)
    ensures InstOk(RegisterStep(s, op, g), g)
  {}

  lemma RegisterKeeps(s: State, op: nat, g: nat)
    requires Inv(s) && op in s.threads && g < |s.insts| && s.threads[op] == AddReady(g) && CanRegister(s.table)
    ensures Inv(RegisterStep(s, op, g))
  {
    assert ThreadOk(s, op) && InstOk(s, g);
    RegisterTouches(s, op, g);
    RegisterTable(s, op, g);
    LedgerUpdate(s, RegisterStep(s, op, g), g);
  }

  lemma RegisterTouches(s: State, op: nat, g: nat)
    requires Inv(s) && op in s.threads && g < |s.insts| && s.threads[op] == AddReady(g) && CanRegister(s.table)
    ensures var r := RegisterStep(s, op, g);
            Sturdy(r)
  {
    assert ThreadOk(s, op) && InstOk(s, g);
    RegisteredIdsBounded(s);
    RegisterInst(s, op, g);
    TouchKeeps(s, RegisterStep(s, op, g), op, g);
  }

  lemma PinLedger(s: State, op: nat, g: nat, noPing: bool, a: Attempt)
    requires Inv(s) && g < |s.insts| && s.insts[g].pin.NoPin?
    ensures PingOk(PinStep(s, op, g, noPing, a))
  {
    var r := PinStep(s, op, g, noPing, a);
    if r.pinger.Some? {
      var p, q := s.pinger.value, r.pinger.value;
      StepConsistent(p, Retained(s.insts[g].oid, a));
      OnlyDispatchedCallsCount(p, s.insts[g].oid, a);
      forall oid: nat
        ensures Conserved(r, q, oid)
      {
        assert Conserved(s, p, oid);
        PinsUpdate(s.insts, g, r.insts[g], oid, Pinned);
        PinsUpdate(s.insts, g, r.insts[g], oid, PinLost);
      }
    }
  }

  lemma BuildPinKeeps(s: State, op: nat, g: nat, noPing: bool, a: Attempt)
    requires Inv(s) && op in s.threads && g < |s.insts| && s.threads[op] == AddBuilding(g)
    ensures Inv(PinStep(s, op, g, noPing, a))
  {
    var r := PinStep(s, op, g, noPing, a);
    assert ThreadOk(s, op) && InstOk(s, g);
    PinLedger(s, op, g, noPing, a);
    PinnedKeeps(s, r, op, g, PinResult(s, g, noPing, a).2);
  }

  lemma PinnedKeeps(s: State, r: State, op: nat, g: nat, ok: bool)
    requires Inv(s) && op in s.threads && g < |s.insts| == |r.insts| && s.threads[op] == AddBuilding(g)
    requires r.threads == s.threads[op := if ok then AddReady(g) else Disposing(g, Releasing, Creator)]
    requires r.insts == s.insts[g := r.insts[g]]
    requires r.insts[g] == s.insts[g].(pin := r.insts[g].pin, phase := if ok then s.insts[g].phase else Disposal(op))
    requires r.insts[g].pin.Pinned? || r.insts[g].pin.NoPin?
    requires r == s.(insts := r.insts, threads := r.threads, pinger := r.pinger)
    requires r.pinger.Some? == s.pinger.Some? && PingOk(r)
    ensures Inv(r)
  {
    assert ThreadOk(s, op) && InstOk(s, g);
    assert ThreadOk(r, op);
    assert InstOk(r, g);
    TouchKeeps(s, r, op, g);
    TableKeep(s, r, op, g);
  }

  lemma InterfacesKeep(s: State, op: nat, found: nat)
    requires Inv(s) && AddEnabled(s, op, BuildInterfaces(found))
    ensures Inv(AddApply(s, op, BuildInterfaces(found)))
  {
    var g := s.threads[op].g;
    var i := s.insts[g].(refs := 1 + found);
    ReferencesKeep(s, op, i);
    if found != 2 {
      CreatorDisposes(Put(s, g, i), op, g);
    }
  }

  lemma BuildKeeps(s: State, op: nat, e: AddEvent)
    requires Inv(s) && AddEnabled(s, op, e)
    requires !e.AddDispatch? && !e.ServerCreate? && !e.AddAnswered? && !e.AddFailed?
    ensures Inv(AddApply(s, op, e))
  {
    var t := s.threads[op];
    assert ThreadOk(s, op);
    match e
    case BuildReference(oid) => ReferencesKeep(s, op, s.insts[t.g].(refs := 1, oid := oid));
    case BuildInterfaces(found) => InterfacesKeep(s, op, found);
    case BuildPin(noPing, a) => BuildPinKeeps(s, op, t.g, noPing, a);
    case BuildFailed => CreatorDisposes(s, op, t.g);
    case RegisterReady =>
      if CanRegister(s.table) {
        RegisterKeeps(s, op, t.g);
      } else {
        CreatorDisposes(s, op, t.g);
      }
  }

  lemma AddKeeps(s: State, op: nat, e: AddEvent)
    requires Inv(s) && AddEnabled(s, op, e)
    ensures Inv(AddApply(s, op, e))
  {
    AdmittedCounts(s, op);
    if e.ServerCreate? {
      ServerCreateKeeps(s, op, e.handle);
    } else if e.AddAnswered? {
      AddAnsweredKeeps(s, op);
    } else if e.AddFailed? && s.threads[op].created.Some? {
      AddFailedKeeps(s, op);
    } else if e.AddDispatch? || e.AddFailed? {
      MoveKeeps(s, AddApply(s, op, e), op);
    } else {
      BuildKeeps(s, op, e);
    }
  }

  // ---- removeGroupInternal and disposeGroup ----

  lemma UnregisterKeeps(s: State, op: nat)
    requires Inv(s) && RemoveEnabled(s, op, RemoveUnregister)
    ensures Inv(RemoveApply(s, op, RemoveUnregister))
  {
    var t := s.threads[op];
    assert ThreadOk(s, op) && InstOk(s, t.g);
    UnregisterShape(s, op);
    UnregisteredKeeps(s, RemoveApply(s, op, RemoveUnregister), op, t.id, t.g, t.owner);
  }

  lemma UnregisterShape(s: State, op: nat)
    requires RemoveEnabled(s, op, RemoveUnregister)
    ensures var t := s.threads[op];
            var i := s.insts[t.g].(closed := true, phase := Disposal(op));
            RemoveApply(s, op, RemoveUnregister) ==
            s.(table := Unregister(s.table, t.id), insts := s.insts[t.g := i],
               threads := s.threads[op := Disposing(t.g, Releasing, t.owner)])
  {}

  lemma UnregisteredKeeps(s: State, r: State, op: nat, id: nat, g: nat, owner: Owner)
    requires Inv(s) && op in s.threads && g < |s.insts| && s.threads[op] == RemoveOwning(id, g, owner)
    requires var i := s.insts[g].(closed := true, phase := Disposal(op));
             r == s.(table := Unregister(s.table, id), insts := s.insts[g := i],
                     threads := s.threads[op := Disposing(g, Releasing, owner)])
    ensures Inv(r)
  {
    assert ThreadOk(s, op) && InstOk(s, g);
    UnregisteredTouches(s, r, op, id, g, owner);
    UnregisterTable(s, r, op, g);
    LedgerUpdate(s, r, g);
  }

  lemma UnregisteredTouches(s: State, r: State, op: nat, id: nat, g: nat, owner: Owner)
    requires Sturdy(s) && op in s.threads && g < |s.insts| && s.threads[op] == RemoveOwning(id, g, owner)
    requires var i := s.insts[g].(closed := true, phase := Disposal(op));
             r == s.(table := Unregister(s.table, id), insts := s.insts[g := i],
                     threads := s.threads[op := Disposing(g, Releasing, owner)])
    ensures Sturdy(r)
  {
    assert ThreadOk(s, op) && InstOk(s, g);
    UnregisteredInst(s, r, op, id, g, owner);
    TouchKeeps(s, r, op, g);
  }

  lemma UnregisteredInst(s: State, r: State, op: nat, id: nat, g: nat, owner: Owner)
    requires op in s.threads && g < |s.insts| && s.threads[op] == RemoveOwning(id, g, owner)
    requires ThreadOk(s, op) && InstOk(s, g)
    requires r.insts == s.insts[g := s.insts[g].(closed := true, phase := Disposal(op))]
    requires r.threads == s.threads[op := Disposing(g, Releasing, owner)]
    requires r.table.nextGroupID == s.table.nextGroupID
    ensures ThreadOk(r, op) && InstOk(r, g)
  {}

  lemma UnregisterTable(s: State, r: State, op: nat, g: nat)
    requires TableOk(s) && Touches(s, r, op, g) && g < |s.insts| && s.insts[g].phase.Registered?
    requires r.insts[g].id == s.insts[g].id && r.closer == s.closer
    requires s.insts[g].phase.id in s.table.groups && s.table.groups[s.insts[g].phase.id] == g
    requires r.table == Unregister(s.table, s.insts[g].phase.id)
    ensures TableOk(r)
  {
    forall i, k | 0 <= i < k < |r.insts| && r.insts[i].id.Some?
      ensures r.insts[i].id != r.insts[k].id
    {
      assert s.insts[i].id == r.insts[i].id && s.insts[k].id == r.insts[k].id;
    }
  }

  lemma DisposeRemoveTouches(s: State, op: nat)
    requires Sturdy(s) && RemoveEnabled(s, op, DisposeRemove)
    ensures var r := RemoveApply(s, op, DisposeRemove);
            Sturdy(r)
  {
    var g := s.threads[op].g;
    assert ThreadOk(s, op) && InstOk(s, g);
    DisposeRemoveInst(s, op);
    TouchKeeps(s, RemoveApply(s, op, DisposeRemove), op, g);
  }

  lemma DisposeRemoveInst(s: State, op: nat)
    requires RemoveEnabled(s, op, DisposeRemove) && ThreadOk(s, op) && InstOk(s, s.threads[op].g)
    ensures InstOk(RemoveApply(s, op, DisposeRemove), s.threads[op].g)
    ensures ThreadOk(RemoveApply(s, op, DisposeRemove), op)
  {}

  lemma DisposeRemoveKeeps(s: State, op: nat)
    requires Inv(s) && RemoveEnabled(s, op, DisposeRemove)
    ensures Inv(RemoveApply(s, op, DisposeRemove))
  {
    var r := RemoveApply(s, op, DisposeRemove);
    var g := s.threads[op].g;
    assert ThreadOk(s, op) && InstOk(s, g);
    DisposeRemoveTouches(s, op);
    TableKeep(s, r, op, g);
    LedgerUpdate(s, r, g);
  }

  lemma UnpinLedger(s: State, op: nat, g: nat, owner: Owner, a: Attempt)
    requires Inv(s) && op in s.threads && g < |s.insts|
    ensures PingOk(UnpinStep(s, op, g, owner, a))
  {
    var r := UnpinStep(s, op, g, owner, a);
    if r.pinger.Some? {
      var p, q := s.pinger.value, r.pinger.value;
      StepConsistent(p, Released(s.insts[g].oid, a));
      OnlyDispatchedCallsCount(p, s.insts[g].oid, a);
      forall oid: nat
        ensures Conserved(r, q, oid)
      {
        assert Conserved(s, p, oid);
        PinsUpdate(s.insts, g, r.insts[g], oid, Pinned);
        PinsUpdate(s.insts, g, r.insts[g], oid, PinLost);
        if s.insts[g].pin.Pinned? && oid == s.insts[g].oid {
          assert g in Pins(s.insts, oid, Pinned);
        }
      }
    }
  }

  lemma DisposeUnpinKeeps(s: State, op: nat, a: Attempt)
    requires Inv(s) && RemoveEnabled(s, op, DisposeUnpin(a))
    ensures Inv(RemoveApply(s, op, DisposeUnpin(a)))
  {
    var t := s.threads[op];
    var g := t.g;
    var r := UnpinStep(s, op, g, t.owner, a);
    assert ThreadOk(s, op);
    UnpinLedger(s, op, g, t.owner, a);
    DisposedKeeps(s, r, op);
  }

  /** A disposal is over. */
  ghost predicate Disposes(s: State, r: State, op: nat) {
    && op in s.threads && s.threads[op].Disposing? && s.threads[op].stage.Unpinning?
    && var t := s.threads[op];
       && t.g < |s.insts| == |r.insts|
       && r.insts == s.insts[t.g := s.insts[t.g].(phase := Disposed, pin := r.insts[t.g].pin)]
       && !r.insts[t.g].pin.Pinned?
       && r.threads == s.threads[op := if t.owner.Creator? then Exiting else Leaving(t.g, t.owner)]
       && r == s.(insts := r.insts, threads := r.threads, pinger := r.pinger)
       && r.pinger.Some? == s.pinger.Some?
  }

  lemma DisposedInst(s: State, r: State, op: nat)
    requires Disposes(s, r, op) && ThreadOk(s, op) && InstOk(s, s.threads[op].g)
    ensures InstOk(r, s.threads[op].g) && ThreadOk(r, op)
  {}

  lemma DisposedKeeps(s: State, r: State, op: nat)
    requires Inv(s) && Disposes(s, r, op) && PingOk(r)
    ensures Inv(r)
  {
    DisposedTouches(s, r, op);
    assert InstOk(s, s.threads[op].g) && ThreadOk(s, op);
    TableKeep(s, r, op, s.threads[op].g);
  }

  lemma DisposedTouches(s: State, r: State, op: nat)
    requires Sturdy(s) && Disposes(s, r, op)
    ensures Sturdy(r)
  {
    var g := s.threads[op].g;
    assert ThreadOk(s, op) && InstOk(s, g);
    DisposedInst(s, r, op);
    TouchKeeps(s, r, op, g);
  }

  lemma RemoveFoundOk(s: State, op: nat)
    requires ThreadsOk(s) && InstsOk(s) && TableOk(s) && RemoveEnabled(s, op, RemoveFind)
    ensures ThreadOk(RemoveApply(s, op, RemoveFind), op)
  {
    assert ThreadOk(s, op);
    if s.threads[op].id in s.table.groups {
      assert InstOk(s, s.table.groups[s.threads[op].id]);
    }
  }

  lemma RemoveFindKeeps(s: State, op: nat)
    requires Inv(s) && RemoveEnabled(s, op, RemoveFind)
    ensures Inv(RemoveApply(s, op, RemoveFind))
  {
    assert ThreadOk(s, op);
    if Admitted(s.threads[op]) {
      AdmittedCounts(s, op);
    }
    RemoveFoundOk(s, op);
    MoveKeeps(s, RemoveApply(s, op, RemoveFind), op);
  }

  lemma DisposeReleaseKeeps(s: State, op: nat)
    requires Inv(s) && RemoveEnabled(s, op, DisposeRelease)
    ensures Inv(RemoveApply(s, op, DisposeRelease))
  {
    assert ThreadOk(s, op);
    MoveKeeps(s, RemoveApply(s, op, DisposeRelease), op);
  }

  lemma DisposeReplyKeeps(s: State, op: nat, removed: bool)
    requires Inv(s) && RemoveEnabled(s, op, DisposeReply(removed))
    ensures Inv(RemoveApply(s, op, DisposeReply(removed)))
  {
    assert ThreadOk(s, op);
    MoveKeeps(s, RemoveApply(s, op, DisposeReply(removed)), op);
  }

  lemma DisposeBookKeeps(s: State, op: nat)
    requires Inv(s) && RemoveEnabled(s, op, DisposeBook)
    ensures Inv(RemoveApply(s, op, DisposeBook))
  {
    assert ThreadOk(s, op);
    MoveKeeps(s, RemoveApply(s, op, DisposeBook), op);
  }

  lemma RemoveAcquireKeeps(s: State, op: nat, cancelled: bool)
    requires Inv(s) && RemoveEnabled(s, op, RemoveAcquire(cancelled))
    ensures Inv(RemoveApply(s, op, RemoveAcquire(cancelled)))
  {
    assert ThreadOk(s, op);
    GateKeeps(s, RemoveApply(s, op, RemoveAcquire(cancelled)), op);
  }

  lemma RemoveKeeps(s: State, op: nat, e: RemoveEvent)
    requires Inv(s) && RemoveEnabled(s, op, e)
    ensures Inv(RemoveApply(s, op, e))
  {
    match e
    case RemoveFind => RemoveFindKeeps(s, op);
    case RemoveAcquire(cancelled) => RemoveAcquireKeeps(s, op, cancelled);
    case RemoveUnregister => UnregisterKeeps(s, op);
    case DisposeRelease => DisposeReleaseKeeps(s, op);
    case DisposeRemove => DisposeRemoveKeeps(s, op);
    case DisposeReply(removed) => DisposeReplyKeeps(s, op, removed);
    case DisposeBook => DisposeBookKeeps(s, op);
    case DisposeUnpin(a) => DisposeUnpinKeeps(s, op, a);
  }

  // ---- the server and teardown ----

  /** Threads and instances are untouched, and so is what they rely on. */
  lemma SurroundingsKeep(s: State, r: State)
    requires ThreadsOk(s) && InstsOk(s)
    requires r.threads == s.threads && r.insts == s.insts
    requires r.table.groups == s.table.groups && r.table.nextGroupID == s.table.nextGroupID
    requires forall h :: h in s.live && s.live[h].Creating? ==> h in r.live && r.live[h] == s.live[h]
    ensures ThreadsOk(r) && InstsOk(r) && AdmittedOps(r) == AdmittedOps(s)
  {
    forall o | o in r.threads ensures ThreadOk(r, o) { assert ThreadOk(s, o); }
    forall k | 0 <= k < |r.insts| ensures InstOk(r, k) { assert InstOk(s, k); }
  }

  /** The removal reaches the group it was sent for, or a handle that a replay has freed and the
      server may have given away outside this session. */
  lemma ServerRemoveAims(s: State, g: nat)
    requires Inv(s) && ServerEnabled(s, ServerRemove(g))
    ensures var h := s.insts[g].handle;
            h in s.live ==> s.live[h] == Owned(g) || (ReplayExecuted(s, h) && !s.live[h].Creating?)
  {
    var h := s.insts[g].handle;
    assert Held(s, g) || ReplayExecuted(s, h);
    if h in s.live && s.live[h].Creating? {
      AdmittedCounts(s, s.live[h].op);
    }
  }

  lemma ServerRemoveInsts(s: State, g: nat)
    requires ThreadsOk(s) && InstsOk(s) && ServerEnabled(s, ServerRemove(g))
    requires var h := s.insts[g].handle; h in s.live ==> !s.live[h].Creating?
    ensures ThreadsOk(ServerApply(s, ServerRemove(g))) && InstsOk(ServerApply(s, ServerRemove(g)))
  {
    var r := ServerApply(s, ServerRemove(g));
    forall o | o in r.threads ensures ThreadOk(r, o) { assert ThreadOk(s, o); }
    forall k | 0 <= k < |r.insts| ensures InstOk(r, k) { assert InstOk(s, k); }
  }

  lemma ServerRemoveHoldings(s: State, g: nat)
    requires ServerOk(s) && ServerEnabled(s, ServerRemove(g))
    requires var h := s.insts[g].handle;
             h in s.live ==> s.live[h] == Owned(g) || (ReplayExecuted(s, h) && !s.live[h].Creating?)
    ensures ServerOk(ServerApply(s, ServerRemove(g)))
  {
    var r := ServerApply(s, ServerRemove(g));
    forall k | 0 <= k < |r.insts|
      ensures Held(r, k) <==> !r.insts[k].request.Executed? && !ReplayExecuted(r, r.insts[k].handle)
    {
      assert Held(s, k) <==> !s.insts[k].request.Executed? && !ReplayExecuted(s, s.insts[k].handle);
    }
  }

  lemma ServerRemoveKeeps(s: State, g: nat)
    requires Inv(s) && ServerEnabled(s, ServerRemove(g))
    ensures Inv(ServerApply(s, ServerRemove(g)))
  {
    var r := ServerApply(s, ServerRemove(g));
    ServerRemoveAims(s, g);
    ServerRemoveInsts(s, g);
    ServerRemoveHoldings(s, g);
    assert AdmittedOps(r) == AdmittedOps(s);
    LedgerUpdate(s, r, g);
  }

  lemma ServerReplayKeeps(s: State, h: nat)
    requires Inv(s) && ServerEnabled(s, ServerReplay(h))
    ensures Inv(ServerApply(s, ServerReplay(h)))
  {
    var r := ServerApply(s, ServerReplay(h));
    assert h in s.live ==> !s.live[h].Creating? by {
      if h in s.live && s.live[h].Creating? {
        AdmittedCounts(s, s.live[h].op);
      }
    }
    SurroundingsKeep(s, r);
    forall k | 0 <= k < |r.insts|
      ensures Held(r, k) <==> !r.insts[k].request.Executed? && !ReplayExecuted(r, r.insts[k].handle)
    {
      assert Held(s, k) <==> !s.insts[k].request.Executed? && !ReplayExecuted(s, s.insts[k].handle);
    }
    LedgerSame(s, r);
  }

  lemma ServerOtherKeeps(s: State, h: nat, made: bool)
    requires Inv(s) && ServerEnabled(s, ServerOther(h, made))
    ensures Inv(ServerApply(s, ServerOther(h, made)))
  {
    var r := ServerApply(s, ServerOther(h, made));
    SurroundingsKeep(s, r);
    ServerOtherHoldings(s, h, made);
    LedgerSame(s, r);
  }

  lemma ServerOtherHoldings(s: State, h: nat, made: bool)
    requires ServerOk(s) && ServerEnabled(s, ServerOther(h, made))
    ensures ServerOk(ServerApply(s, ServerOther(h, made)))
  {
    var r := ServerApply(s, ServerOther(h, made));
    forall k | 0 <= k < |r.insts|
      ensures Held(r, k) <==> !r.insts[k].request.Executed? && !ReplayExecuted(r, r.insts[k].handle)
    {
      assert Held(r, k) <==> Held(s, k);
    }
  }

  lemma ServerKeeps(s: State, e: ServerEvent)
    requires Inv(s) && ServerEnabled(s, e)
    ensures Inv(ServerApply(s, e))
  {
    match e
    case ServerRemove(g) => ServerRemoveKeeps(s, g);
    case ServerReplay(h) => ServerReplayKeeps(s, h);
    case ServerOther(h, made) => ServerOtherKeeps(s, h, made);
    case PingLoopFailed =>
      StepConsistent(s.pinger.value, LoopFailed);
      PingerKeeps(s, PingFailed(s.pinger.value));
  }

  /** Teardown moves on by itself: it marks the session closed, works on its lists or drops the
      pinger. */
  ghost predicate CloserMoves(s: State, r: State) {
    && r == s.(table := s.table.(closed := r.table.closed), closer := r.closer,
               replays := r.replays, pinger := r.pinger)
    && (r.pinger == s.pinger || r.pinger.None?)
    && (forall h :: ReplayExecuted(r, h) <==> ReplayExecuted(s, h))
  }

  lemma CloserMoved(s: State, e: CloseEvent)
    requires DrainOk(s) && CloseEnabled(s, e) && !e.TeardownStart?
    ensures CloserMoves(s, CloseApply(s, e))
  {}

  lemma CloserDrain(s: State, e: CloseEvent)
    requires DrainOk(s) && CloseEnabled(s, e) && !e.TeardownStart?
    requires AdmittedOps(CloseApply(s, e)) == AdmittedOps(s)
    ensures DrainOk(CloseApply(s, e))
  {}

  lemma HoldingsKeep(s: State, r: State)
    requires ServerOk(s) && CloserMoves(s, r)
    ensures ServerOk(r)
  {
    forall k | 0 <= k < |r.insts|
      ensures Held(r, k) <==> !r.insts[k].request.Executed? && !ReplayExecuted(r, r.insts[k].handle)
    {
      assert Held(r, k) <==> Held(s, k);
    }
  }

  lemma CloseKeeps(s: State, e: CloseEvent)
    requires Inv(s) && CloseEnabled(s, e)
    ensures Inv(CloseApply(s, e))
  {
    if e.TeardownStart? {
      WorkerKeeps(s, e.id, e.worker);
    } else {
      var r := CloseApply(s, e);
      CloserMoved(s, e);
      SurroundingsKeep(s, r);
      LedgerSame(s, r);
      HoldingsKeep(s, r);
      CloserDrain(s, e);
      CloserTable(s, e);
    }
  }

  lemma CloserTable(s: State, e: CloseEvent)
    requires TableOk(s) && CloseEnabled(s, e) && !e.TeardownStart?
    ensures TableOk(CloseApply(s, e))
  {}

  lemma WorkerDrain(s: State, id: nat, worker: nat)
    requires DrainOk(s) && CloseEnabled(s, TeardownStart(id, worker))
    ensures DrainOk(CloseApply(s, TeardownStart(id, worker)))
  {
    var r := CloseApply(s, TeardownStart(id, worker));
    Recount(s, worker, r.threads[worker]);
    assert AdmittedOps(r) == AdmittedOps(Go(s, worker, r.threads[worker]));
  }

  lemma WorkerKeeps(s: State, id: nat, worker: nat)
    requires Inv(s) && CloseEnabled(s, TeardownStart(id, worker))
    ensures Inv(CloseApply(s, TeardownStart(id, worker)))
  {
    var r := CloseApply(s, TeardownStart(id, worker));
    ThreadsKeep(s, r, worker, |s.insts|);
    InstsKeep(s, r, worker, |s.insts|);
    ServerKeep(s, r, worker, |s.insts|);
    WorkerDrain(s, id, worker);
    LedgerSame(s, r);
  }

  lemma StepKeeps(s: State, e: Event)
    requires Inv(s) && Enabled(s, e)
    ensures Inv(Apply(s, e))
  {
    match e
    case Op(op, o) => OpKeeps(s, op, o);
    case Add(op, a) => AddKeeps(s, op, a);
    case Remove(op, r) => RemoveKeeps(s, op, r);
    case Server(v) => ServerKeeps(s, v);
    case Close(c) => CloseKeeps(s, c);
  }

  /** Every state of every run satisfies the invariant. */
  lemma {:induction false} RunInv(ss: seq<State>, es: seq<Event>, i: nat)
    requires IsRun(ss, es) && i < |ss|
    ensures Inv(ss[i])
  {
    if i == 0 {
      InitialInv(ss[0]);
    } else {
      RunInv(ss, es, i - 1);
      StepKeeps(ss[i - 1], es[i - 1]);
    }
  }
}
