/** What whole runs of the session protocol guarantee. */
module ProtocolTheorems {
  import opened SessionTable
  import opened Keepalive
  import opened Protocol
  import opened ProtocolInvariant
  import Runs

  // ---- facts about an instance that never go away ----

  predicate Began(s: State, g: nat) {
    g < |s.insts| && (s.insts[g].phase.Disposal? || s.insts[g].phase.Disposed?)
  }

  predicate ReleaseSent(s: State, g: nat) {
    && g < |s.insts|
    && (s.insts[g].phase.Disposed? ||
        (s.insts[g].phase.Disposal? && s.insts[g].phase.op in s.threads &&
         var t := s.threads[s.insts[g].phase.op]; t.Disposing? && !t.stage.Releasing?))
  }

  predicate RemovalSent(s: State, g: nat) {
    g < |s.insts| && !s.insts[g].request.Unsent?
  }

  /** The outcome of the group's removal has reached the pending table. */
  predicate Booked(s: State, g: nat) {
    && g < |s.insts|
    && (s.insts[g].phase.Disposed? ||
        (s.insts[g].phase.Disposal? && s.insts[g].phase.op in s.threads &&
         var t := s.threads[s.insts[g].phase.op]; t.Disposing? && t.stage.Unpinning?))
  }

  /** What one step preserves about an instance. */
  predicate Lasts(s: State, r: State, g: nat) {
    && g < |s.insts| <= |r.insts|
    && r.insts[g].handle == s.insts[g].handle && r.insts[g].creator == s.insts[g].creator
    && (s.insts[g].id.Some? ==> r.insts[g].id == s.insts[g].id)
    && (Began(s, g) ==> Began(r, g))
    && (ReleaseSent(s, g) ==> ReleaseSent(r, g))
    && (RemovalSent(s, g) ==> RemovalSent(r, g))
    && (s.insts[g].phase.Disposed? ==> r.insts[g].phase.Disposed?)
  }

  lemma OpLasts(s: State, op: nat, e: OpEvent, g: nat)
    requires OpEnabled(s, op, e) && g < |s.insts| && InstOk(s, g)
    ensures Lasts(s, OpApply(s, op, e), g)
  {}

  lemma BuildPinLasts(s: State, op: nat, noPing: bool, a: Attempt, g: nat)
    requires AddEnabled(s, op, BuildPin(noPing, a)) && g < |s.insts| && InstOk(s, g) && ThreadOk(s, op)
    ensures Lasts(s, PinStep(s, op, s.threads[op].g, noPing, a), g)
  {
    var r := PinStep(s, op, s.threads[op].g, noPing, a);
    assert g != s.threads[op].g ==> r.insts[g] == s.insts[g];
  }

  lemma AddLasts(s: State, op: nat, e: AddEvent, g: nat)
    requires AddEnabled(s, op, e) && g < |s.insts| && InstOk(s, g) && ThreadOk(s, op)
    ensures Lasts(s, AddApply(s, op, e), g)
  {
    match e
    case BuildReference(oid) => ReferenceLasts(s, op, oid, g);
    case BuildInterfaces(found) =>
      if found == 2 {
        InterfacesLast(s, op, g);
      } else {
        MissingInterfacesLast(s, op, found, g);
      }
    case BuildPin(noPing, a) => BuildPinLasts(s, op, noPing, a, g);
    case BuildFailed => BuildFailedLasts(s, op, g);
    case RegisterReady => RegisterLasts(s, op, s.threads[op].g, g);
    case _ => CallingLasts(s, op, e, g);
  }

  /** The steps of addGroup up to the reply of its AddGroup RPC. */
  predicate Calling(e: AddEvent) {
    e.AddDispatch? || e.ServerCreate? || e.AddAnswered? || e.AddFailed?
  }

  lemma CallingLasts(s: State, op: nat, e: AddEvent, g: nat)
    requires AddEnabled(s, op, e) && g < |s.insts| && InstOk(s, g) && ThreadOk(s, op)
    requires Calling(e)
    ensures Lasts(s, AddApply(s, op, e), g)
  {}

  lemma ReferenceLasts(s: State, op: nat, oid: nat, g: nat)
    requires AddEnabled(s, op, BuildReference(oid)) && g < |s.insts| && InstOk(s, g) && ThreadOk(s, op)
    ensures Lasts(s, AddApply(s, op, BuildReference(oid)), g)
  {}

  lemma InterfacesLast(s: State, op: nat, g: nat)
    requires AddEnabled(s, op, BuildInterfaces(2)) && g < |s.insts| && InstOk(s, g) && ThreadOk(s, op)
    ensures Lasts(s, AddApply(s, op, BuildInterfaces(2)), g)
  {}

  lemma MissingInterfacesLast(s: State, op: nat, found: nat, g: nat)
    requires AddEnabled(s, op, BuildInterfaces(found)) && found != 2
    requires g < |s.insts| && InstOk(s, g) && ThreadOk(s, op)
    ensures Lasts(s, AddApply(s, op, BuildInterfaces(found)), g)
  {}

  lemma BuildFailedLasts(s: State, op: nat, g: nat)
    requires AddEnabled(s, op, BuildFailed) && g < |s.insts| && InstOk(s, g) && ThreadOk(s, op)
    ensures Lasts(s, AddApply(s, op, BuildFailed), g)
  {}

  lemma RegisterLasts(s: State, op: nat, g0: nat, g: nat)
    requires op in s.threads && s.threads[op] == AddReady(g0) && g0 < |s.insts| && g < |s.insts|
    requires InstOk(s, g) && ThreadOk(s, op)
    ensures Lasts(s, RegisterStep(s, op, g0), g)
  {}

  lemma RemovingLasts(s: State, op: nat, e: RemoveEvent, g: nat)
    requires RemoveEnabled(s, op, e) && g < |s.insts| && InstOk(s, g) && ThreadOk(s, op)
    requires e.RemoveFind? || e.RemoveAcquire? || e.RemoveUnregister?
    ensures Lasts(s, RemoveApply(s, op, e), g)
  {}

  lemma DisposingLasts(s: State, op: nat, e: RemoveEvent, g: nat)
    requires RemoveEnabled(s, op, e) && g < |s.insts| && InstOk(s, g) && ThreadOk(s, op)
    requires !e.RemoveFind? && !e.RemoveAcquire? && !e.RemoveUnregister?
    ensures Lasts(s, RemoveApply(s, op, e), g)
  {}

  lemma RemoveLasts(s: State, op: nat, e: RemoveEvent, g: nat)
    requires RemoveEnabled(s, op, e) && g < |s.insts| && InstOk(s, g) && ThreadOk(s, op)
    ensures Lasts(s, RemoveApply(s, op, e), g)
  {
    if e.RemoveFind? || e.RemoveAcquire? || e.RemoveUnregister? {
      RemovingLasts(s, op, e, g);
    } else {
      DisposingLasts(s, op, e, g);
    }
  }

  lemma ServerLasts(s: State, e: ServerEvent, g: nat)
    requires ServerEnabled(s, e) && g < |s.insts|
    ensures Lasts(s, ServerApply(s, e), g)
  {}

  lemma CloseLasts(s: State, e: CloseEvent, g: nat)
    requires CloseEnabled(s, e) && g < |s.insts| && InstOk(s, g)
    ensures Lasts(s, CloseApply(s, e), g)
  {}

  lemma StepLasts(s: State, e: Event, g: nat)
    requires Inv(s) && Enabled(s, e) && g < |s.insts|
    ensures Lasts(s, Apply(s, e), g)
  {
    assert InstOk(s, g);
    match e
    case Op(op, o) => OpLasts(s, op, o, g);
    case Add(op, a) =>
      assert ThreadOk(s, op);
      AddLasts(s, op, a, g);
    case Remove(op, r) =>
      assert ThreadOk(s, op);
      RemoveLasts(s, op, r, g);
    case Server(v) => ServerLasts(s, v, g);
    case Close(c) => CloseLasts(s, c, g);
  }

  lemma LastsAt(ss: seq<State>, es: seq<Event>, k: nat, g: nat)
    requires IsRun(ss, es) && k < |es| && g < |ss[k].insts|
    ensures Lasts(ss[k], ss[k + 1], g)
  {
    RunInv(ss, es, k);
    StepLasts(ss[k], es[k], g);
  }

  lemma LastsTrans(s: State, q: State, r: State, g: nat)
    requires Lasts(s, q, g) && Lasts(q, r, g)
    ensures Lasts(s, r, g)
  {}

  lemma LastsAlong(ss: seq<State>, i: nat, j: nat, g: nat)
    requires i <= j < |ss| && g < |ss[i].insts|
    requires forall k :: i <= k < j && g < |ss[k].insts| ==> Lasts(ss[k], ss[k + 1], g)
    ensures Lasts(ss[i], ss[j], g)
  {
    forall k | i <= k < j && Lasts(ss[i], ss[k], g)
      ensures Lasts(ss[i], ss[k + 1], g)
    {
      LastsTrans(ss[i], ss[k], ss[k + 1], g);
    }
    Runs.Lasts(ss, (s: State) => Lasts(ss[i], s, g), i, j);
  }

  lemma RunLasts(ss: seq<State>, es: seq<Event>, i: nat, j: nat, g: nat)
    requires IsRun(ss, es) && i <= j < |ss| && g < |ss[i].insts|
    ensures Lasts(ss[i], ss[j], g)
  {
    forall k | i <= k < j && g < |ss[k].insts|
      ensures Lasts(ss[k], ss[k + 1], g)
    {
      LastsAt(ss, es, k, g);
    }
    LastsAlong(ss, i, j, g);
  }

  // ---- each group is disposed of at most once, and is unused from then on ----

  predicate Releases(s: State, e: Event, g: nat) {
    e.Remove? && e.r.DisposeRelease? && RemoveEnabled(s, e.op, e.r) && s.threads[e.op].g == g
  }

  predicate SendsRemoval(s: State, e: Event, g: nat) {
    e.Remove? && e.r.DisposeRemove? && RemoveEnabled(s, e.op, e.r) && s.threads[e.op].g == g
  }

  predicate CallsGroup(s: State, e: Event, g: nat) {
    e.Op? && e.o.CallRpc? && OpEnabled(s, e.op, e.o) && s.threads[e.op].g == g
  }

  lemma ReleaseFacts(s: State, e: Event, g: nat)
    requires Inv(s) && Enabled(s, e) && Releases(s, e, g)
    ensures g < |s.insts| && !ReleaseSent(s, g) && ReleaseSent(Apply(s, e), g)
  {
    assert ThreadOk(s, e.op);
  }

  lemma RemovalFacts(s: State, e: Event, g: nat)
    requires Inv(s) && Enabled(s, e) && SendsRemoval(s, e, g)
    ensures g < |s.insts| && !RemovalSent(s, g) && RemovalSent(Apply(s, e), g)
  {
    assert ThreadOk(s, e.op);
  }

  lemma ReleasedOnce(ss: seq<State>, es: seq<Event>, i: nat, j: nat, g: nat)
    requires IsRun(ss, es) && i < j < |es| && Releases(ss[i], es[i], g)
    ensures !Releases(ss[j], es[j], g)
  {
    RunInv(ss, es, i);
    RunInv(ss, es, j);
    ReleaseFacts(ss[i], es[i], g);
    NewInstanceHasCreator(ss[i], es[i]);
    RunLasts(ss, es, i + 1, j, g);
    if Releases(ss[j], es[j], g) {
      ReleaseFacts(ss[j], es[j], g);
    }
  }

  lemma RemovedOnce(ss: seq<State>, es: seq<Event>, i: nat, j: nat, g: nat)
    requires IsRun(ss, es) && i < j < |es| && SendsRemoval(ss[i], es[i], g)
    ensures !SendsRemoval(ss[j], es[j], g)
  {
    RunInv(ss, es, i);
    RunInv(ss, es, j);
    RemovalFacts(ss[i], es[i], g);
    NewInstanceHasCreator(ss[i], es[i]);
    RunLasts(ss, es, i + 1, j, g);
    if SendsRemoval(ss[j], es[j], g) {
      RemovalFacts(ss[j], es[j], g);
    }
  }

  lemma NoCallAfterDisposal(ss: seq<State>, es: seq<Event>, i: nat, j: nat, g: nat)
    requires IsRun(ss, es) && i <= j < |es| && Began(ss[i], g)
    ensures !CallsGroup(ss[j], es[j], g)
  {
    RunInv(ss, es, j);
    RunLasts(ss, es, i, j, g);
    CallsOpenGroup(ss[j], es[j], g);
  }

  /** In every interleaving the interface references of a group are released at most once, its
      RemoveGroup is sent by its disposal at most once, and no call on the group sends an RPC
      once its disposal has begun. */
  lemma DisposedOnce(ss: seq<State>, es: seq<Event>, i: nat, j: nat, g: nat)
    requires IsRun(ss, es) && i < j < |es|
    ensures !(Releases(ss[i], es[i], g) && Releases(ss[j], es[j], g))
    ensures !(SendsRemoval(ss[i], es[i], g) && SendsRemoval(ss[j], es[j], g))
    ensures Began(ss[i], g) ==> !CallsGroup(ss[j], es[j], g) && !CallsGroup(ss[i], es[i], g)
  {
    if Releases(ss[i], es[i], g) {
      ReleasedOnce(ss, es, i, j, g);
    }
    if SendsRemoval(ss[i], es[i], g) {
      RemovedOnce(ss, es, i, j, g);
    }
    if Began(ss[i], g) {
      NoCallAfterDisposal(ss, es, i, i, g);
      NoCallAfterDisposal(ss, es, i, j, g);
    }
  }

  lemma CallsOpenGroup(s: State, e: Event, g: nat)
    requires Inv(s)
    ensures CallsGroup(s, e, g) ==> !Began(s, g)
  {
    if CallsGroup(s, e, g) {
      assert ThreadOk(s, e.op);
      assert InstOk(s, g);
    }
  }

  /** When the operation that created a group has finished, the group was registered or its
      disposal, including the book-keeping of its removal, is complete.  Until then the
      operation itself is building it or disposing of it. */
  lemma RegisteredOrDisposed(ss: seq<State>, es: seq<Event>, k: nat, g: nat)
    requires IsRun(ss, es) && k < |ss| && g < |ss[k].insts|
    ensures var i := ss[k].insts[g];
            && i.creator in ss[k].threads
            && (ss[k].threads[i.creator].Exiting? || ss[k].threads[i.creator].Finished? ==>
                  i.id.Some? || i.phase.Disposed?)
            && (i.id.Some? && !i.closed ==> i.id.value in ss[k].table.groups && ss[k].table.groups[i.id.value] == g)
            && (i.id.None? && !i.phase.Disposed? ==> i.phase == Building(i.creator) || i.phase == Disposal(i.creator))
  {
    RunInv(ss, es, k);
    assert InstOk(ss[k], g);
    CreatorExists(ss, es, k, g);
  }

  lemma {:induction false} CreatorExists(ss: seq<State>, es: seq<Event>, k: nat, g: nat)
    requires IsRun(ss, es) && k < |ss| && g < |ss[k].insts|
    ensures ss[k].insts[g].creator in ss[k].threads
  {
    if k > 0 {
      RunInv(ss, es, k - 1);
      if g < |ss[k - 1].insts| {
        CreatorExists(ss, es, k - 1, g);
        StepAdmitted(ss[k - 1], es[k - 1], ss[k - 1].insts[g].creator);
        StepLasts(ss[k - 1], es[k - 1], g);
      } else {
        RunInv(ss, es, k);
        assert InstOk(ss[k], g);
        NewInstanceHasCreator(ss[k - 1], es[k - 1]);
        StepAdmitted(ss[k - 1], es[k - 1], es[k - 1].op);
      }
    }
  }

  predicate Creates(s: State, e: Event) {
    e.Add? && e.a.AddAnswered? && AddEnabled(s, e.op, e.a)
  }

  ghost predicate Grows(s: State, r: State, e: Event) {
    if Creates(s, e) then r.insts == s.insts + [NewInstance(e.op, s.threads[e.op].created.value)]
    else |r.insts| == |s.insts|
  }

  lemma AddGrows(s: State, op: nat, e: AddEvent)
    requires AddEnabled(s, op, e)
    ensures Grows(s, AddApply(s, op, e), Add(op, e))
  {
    if e.BuildPin? {
      assert |PinStep(s, op, s.threads[op].g, e.noPing, e.a).insts| == |s.insts|;
    }
  }

  lemma RemoveGrows(s: State, op: nat, e: RemoveEvent)
    requires RemoveEnabled(s, op, e)
    ensures |RemoveApply(s, op, e).insts| == |s.insts|
  {}

  lemma NewInstanceHasCreator(s: State, e: Event)
    requires Enabled(s, e)
    ensures Grows(s, Apply(s, e), e)
  {
    match e
    case Op(op, o) => assert |OpApply(s, op, o).insts| == |s.insts|;
    case Add(op, a) => AddGrows(s, op, a);
    case Remove(op, r) => RemoveGrows(s, op, r);
    case Server(v) => assert |ServerApply(s, v).insts| == |s.insts|;
    case Close(c) => assert CloseApply(s, c).insts == s.insts;
  }

  // ---- local ids ----

  /** What one step does to the ids: the last id only grows, a new group gets the next one, and
      every other id that resolves afterwards resolved to the same instance before. */
  ghost predicate IdsAdvance<G>(t: Table<G>, u: Table<G>) {
    && t.nextGroupID <= u.nextGroupID <= t.nextGroupID + 1
    && (forall id :: id in u.groups && id != t.nextGroupID + 1 ==> id in t.groups && u.groups[id] == t.groups[id])
    && (t.nextGroupID + 1 in u.groups ==> t.nextGroupID + 1 in t.groups || u.nextGroupID == t.nextGroupID + 1)
  }

  lemma AddIds(s: State, op: nat, e: AddEvent)
    requires AddEnabled(s, op, e)
    ensures AddApply(s, op, e).table == s.table ||
            (e.RegisterReady? && AddApply(s, op, e).table == Register(s.table, s.threads[op].g))
  {
    if e.BuildPin? {
      assert PinStep(s, op, s.threads[op].g, e.noPing, e.a).table == s.table;
    }
  }

  lemma RemoveIds(s: State, op: nat, e: RemoveEvent)
    requires RemoveEnabled(s, op, e)
    ensures var t, u := s.table, RemoveApply(s, op, e).table;
            && u == t.(groups := u.groups, pending := u.pending)
            && (u.groups == t.groups || (e.RemoveUnregister? && u.groups == t.groups - {s.threads[op].id}))
  {}

  lemma OpIds(s: State, op: nat, e: OpEvent)
    requires OpEnabled(s, op, e)
    ensures OpApply(s, op, e).table == s.table.(groupOps := OpApply(s, op, e).table.groupOps)
  {}

  lemma CloseIds(s: State, e: CloseEvent)
    requires CloseEnabled(s, e)
    ensures CloseApply(s, e).table == s.table.(closed := CloseApply(s, e).table.closed)
  {}

  lemma IdsStep(s: State, e: Event)
    requires Inv(s) && Enabled(s, e)
    ensures IdsAdvance(s.table, Apply(s, e).table)
  {
    RegisteredIdsBounded(s);
    match e
    case Op(op, o) => OpIds(s, op, o);
    case Add(op, a) => AddIds(s, op, a);
    case Remove(op, r) => RemoveIds(s, op, r);
    case Server(v) => assert ServerApply(s, v).table == s.table;
    case Close(c) => CloseIds(s, c);
  }

  /** What one id means between two states. */
  ghost predicate IdStable<G>(t: Table<G>, u: Table<G>, id: nat) {
    && t.nextGroupID <= u.nextGroupID
    && (id in t.groups && id in u.groups ==> t.groups[id] == u.groups[id])
    && (id <= t.nextGroupID && id !in t.groups ==> id !in u.groups)
  }

  lemma IdStableStep<G>(t: Table<G>, u: Table<G>, v: Table<G>, id: nat)
    requires IdStable(t, u, id) && IdsAdvance(u, v) && (id in t.groups ==> id <= t.nextGroupID)
    ensures IdStable(t, v, id)
  {}

  lemma IdsAt(ss: seq<State>, es: seq<Event>, k: nat)
    requires IsRun(ss, es) && k < |es|
    ensures IdsAdvance(ss[k].table, ss[k + 1].table)
  {
    RunInv(ss, es, k);
    IdsStep(ss[k], es[k]);
  }

  lemma IdsAlong(ss: seq<State>, i: nat, j: nat, id: nat)
    requires i <= j < |ss| && (id in ss[i].table.groups ==> id <= ss[i].table.nextGroupID)
    requires forall k :: i <= k < j ==> IdsAdvance(ss[k].table, ss[k + 1].table)
    ensures IdStable(ss[i].table, ss[j].table, id)
  {
    forall k | i <= k < j && IdStable(ss[i].table, ss[k].table, id)
      ensures IdStable(ss[i].table, ss[k + 1].table, id)
    {
      IdStableStep(ss[i].table, ss[k].table, ss[k + 1].table, id);
    }
    Runs.Lasts(ss, (s: State) => IdStable(ss[i].table, s.table, id), i, j);
  }

  /** A local id denotes at most one instance over the whole run, and once it stops resolving
      it never resolves again, whatever handles the server reuses. */
  lemma IdsNeverReused(ss: seq<State>, es: seq<Event>, i: nat, j: nat, id: nat)
    requires IsRun(ss, es) && i <= j < |ss|
    ensures id in ss[i].table.groups && id in ss[j].table.groups ==> ss[i].table.groups[id] == ss[j].table.groups[id]
    ensures id <= ss[i].table.nextGroupID && id !in ss[i].table.groups ==> id !in ss[j].table.groups
    ensures ss[i].table.nextGroupID <= ss[j].table.nextGroupID
  {
    RunInv(ss, es, i);
    RegisteredIdsBounded(ss[i]);
    forall k | i <= k < j
      ensures IdsAdvance(ss[k].table, ss[k + 1].table)
    {
      IdsAt(ss, es, k);
    }
    IdsAlong(ss, i, j, id);
  }

  // ---- admission and teardown ----

  /** Group removals, the server reference release, the keepalive stop and the transport close. */
  predicate TeardownAction(s: State, e: Event) {
    || (e.Close? && (e.c.ReplaySend? || e.c.CloseReleaseServer? || e.c.CloseStopPing? || e.c.CloseTransport?))
    || (e.Remove? && e.op in s.threads && TeardownOf(s.threads[e.op]))
  }

  predicate Admits(s: State, e: Event) {
    e.Op? && e.o.Admission? && OpEnabled(s, e.op, e.o)
  }

  /** The admission count never rises once the session is closed. */
  lemma ClosedAdmitsNothing(s: State, e: Event)
    requires Inv(s) && Enabled(s, e) && s.table.closed
    ensures Apply(s, e).table.closed && Apply(s, e).table.groupOps <= s.table.groupOps && !Admits(s, e)
  {
    match e
    case Op(op, o) => ClosedOp(s, op, o);
    case Add(op, a) => AddIds(s, op, a);
    case Remove(op, r) => RemoveIds(s, op, r);
    case Server(v) => assert ServerApply(s, v).table == s.table;
    case Close(c) => assert CloseApply(s, c).table == s.table;
  }

  lemma ClosedOp(s: State, op: nat, e: OpEvent)
    requires OpEnabled(s, op, e) && s.table.closed
    ensures OpApply(s, op, e).table.closed && OpApply(s, op, e).table.groupOps <= s.table.groupOps && !e.Admission?
  {}

  lemma PastDrainLasts(s: State, e: Event)
    requires Inv(s) && Enabled(s, e) && PastDrain(s.closer)
    ensures PastDrain(Apply(s, e).closer) && |Apply(s, e).insts| == |s.insts|
  {
    NewInstanceHasCreator(s, e);
    if Creates(s, e) {
      AdmittedCounts(s, e.op);
      assert false;
    }
    if !e.Close? {
      CloserLasts(s, e);
    }
  }

  lemma CloserLasts(s: State, e: Event)
    requires Enabled(s, e) && !e.Close?
    ensures Apply(s, e).closer == s.closer
  {
    match e
    case Op(op, o) =>
    case Add(op, a) =>
      if a.BuildPin? {
        assert Apply(s, e).closer == s.closer;
      }
    case Remove(op, r) =>
    case Server(v) =>
  }

  /** An admitted operation stays admitted until it calls Done, and a finished one does nothing. */
  predicate StaysAdmitted(s: State, r: State, e: Event, op: nat)
    requires op in s.threads
  {
    && op in r.threads
    && (Admitted(s.threads[op]) ==> Admitted(r.threads[op]) || e == Op(op, OpDone))
    && (s.threads[op].Finished? ==> r.threads[op].Finished? && e != Op(op, OpDone))
  }

  /** A step of addGroup moves its own operation alone, which stays admitted. */
  lemma AddMovesOne(s: State, op: nat, e: AddEvent)
    requires AddEnabled(s, op, e)
    ensures var r := AddApply(s, op, e);
            op in r.threads && r.threads == s.threads[op := r.threads[op]] && Admitted(r.threads[op])
  {
    if e.BuildPin? {
      var r := PinStep(s, op, s.threads[op].g, e.noPing, e.a);
      assert r.threads == s.threads[op := r.threads[op]] && Admitted(r.threads[op]);
    } else if e.BuildReference? || e.BuildInterfaces? {
      ReferenceMovesOne(s, op, e);
    }
  }

  lemma ReferenceMovesOne(s: State, op: nat, e: AddEvent)
    requires AddEnabled(s, op, e) && (e.BuildReference? || e.BuildInterfaces?)
    ensures var r := AddApply(s, op, e);
            op in r.threads && r.threads == s.threads[op := r.threads[op]] && Admitted(r.threads[op])
  {
    assert s.threads == s.threads[op := s.threads[op]];
  }

  lemma AddAdmitted(s: State, o: nat, a: AddEvent, op: nat)
    requires AddEnabled(s, o, a) && op in s.threads
    ensures StaysAdmitted(s, AddApply(s, o, a), Add(o, a), op)
  {
    AddMovesOne(s, o, a);
  }

  lemma OpAdmitted(s: State, o: nat, v: OpEvent, op: nat)
    requires OpEnabled(s, o, v) && op in s.threads
    ensures StaysAdmitted(s, OpApply(s, o, v), Op(o, v), op)
  {}

  lemma RemoveAdmitted(s: State, o: nat, r: RemoveEvent, op: nat)
    requires RemoveEnabled(s, o, r) && op in s.threads
    ensures StaysAdmitted(s, RemoveApply(s, o, r), Remove(o, r), op)
  {}

  lemma StepAdmitted(s: State, e: Event, op: nat)
    requires Enabled(s, e) && op in s.threads
    ensures StaysAdmitted(s, Apply(s, e), e, op)
  {
    match e
    case Op(o, v) => OpAdmitted(s, o, v, op);
    case Add(o, a) => AddAdmitted(s, o, a, op);
    case Remove(o, r) => RemoveAdmitted(s, o, r, op);
    case Server(v) => assert ServerApply(s, v).threads == s.threads;
    case Close(c) => assert op in CloseApply(s, c).threads && CloseApply(s, c).threads[op] == s.threads[op];
  }

  lemma {:induction false} AdmittedUntilDone(ss: seq<State>, es: seq<Event>, k: nat, i: nat, op: nat)
    requires IsRun(ss, es) && k < i < |ss| && es[k] == Op(op, Admission)
    ensures op in ss[i].threads
    ensures Admitted(ss[i].threads[op]) || exists d :: k < d < i && es[d] == Op(op, OpDone)
  {
    if k + 1 < i {
      AdmittedUntilDone(ss, es, k, i - 1, op);
      StepAdmitted(ss[i - 1], es[i - 1], op);
    }
  }

  lemma DoneFinishes(s: State, op: nat)
    requires OpEnabled(s, op, OpDone)
    ensures op in OpApply(s, op, OpDone).threads && OpApply(s, op, OpDone).threads[op].Finished?
  {}

  lemma {:induction false} DoneOnce(ss: seq<State>, es: seq<Event>, d: nat, i: nat, op: nat)
    requires IsRun(ss, es) && d < i < |ss| && es[d] == Op(op, OpDone)
    ensures op in ss[i].threads && ss[i].threads[op].Finished?
  {
    if d + 1 == i {
      assert Enabled(ss[d], es[d]);
      DoneFinishes(ss[d], op);
    } else {
      DoneOnce(ss, es, d, i - 1, op);
      StepAdmitted(ss[i - 1], es[i - 1], op);
    }
  }

  lemma {:induction false} PastDrainRun(ss: seq<State>, es: seq<Event>, i: nat, j: nat)
    requires IsRun(ss, es) && i <= j < |ss| && PastDrain(ss[i].closer)
    ensures PastDrain(ss[j].closer) && |ss[j].insts| == |ss[i].insts|
  {
    if i < j {
      PastDrainRun(ss, es, i, j - 1);
      RunInv(ss, es, j - 1);
      PastDrainLasts(ss[j - 1], es[j - 1]);
    }
  }

  /** On the normal and on the timed-out path: when teardown removes a group, replays a removal,
      releases the server reference, stops the keepalive or closes the transport, every
      operation admitted before has called Done exactly once, and none is admitted or calls
      Done afterwards. */
  lemma TeardownAfterDrain(ss: seq<State>, es: seq<Event>, i: nat, op: nat)
    requires IsRun(ss, es) && i < |es| && TeardownAction(ss[i], es[i])
    ensures ss[i].table.groupOps == 0 && AdmittedOps(ss[i]) == {}
    ensures forall k :: 0 <= k < i && es[k] == Op(op, Admission) ==> exists d :: k < d < i && es[d] == Op(op, OpDone)
    ensures forall d, k :: 0 <= d < k < |es| && es[d] == Op(op, OpDone) ==> es[k] != Op(op, OpDone)
    ensures forall k :: i <= k < |es| ==> es[k] != Op(op, Admission) && es[k] != Op(op, OpDone)
  {
    RunInv(ss, es, i);
    assert PastDrain(ss[i].closer);
    forall k | 0 <= k < i && es[k] == Op(op, Admission)
      ensures exists d :: k < d < i && es[d] == Op(op, OpDone)
    {
      AdmittedUntilDone(ss, es, k, i, op);
      assert op !in AdmittedOps(ss[i]);
    }
    forall d, k | 0 <= d < k < |es| && es[d] == Op(op, OpDone)
      ensures es[k] != Op(op, OpDone)
    {
      DoneOnce(ss, es, d, k, op);
      StepAdmitted(ss[k], es[k], op);
    }
    forall k | i <= k < |es|
      ensures es[k] != Op(op, Admission) && es[k] != Op(op, OpDone)
    {
      PastDrainRun(ss, es, i, k);
      RunInv(ss, es, k);
    }
  }

  // ---- keepalive ----

  /** In every reachable state of a session with a healthy pinger, the server's ping set is
      exactly the objects with a positive count, and each count is 1 for the retained server
      object plus the pinned groups plus the releases that failed. */
  lemma PingSetMatchesGroups(ss: seq<State>, es: seq<Event>, k: nat, oid: nat)
    requires IsRun(ss, es) && k < |ss| && ss[k].pinger.Some?
    ensures var s := ss[k];
            var p := s.pinger.value;
            && Count(p, oid) == Base(s, oid) + |Pins(s.insts, oid, Pinned)| + |Pins(s.insts, oid, PinLost)|
            && (!p.failed ==> (oid in p.remote <==> Count(p, oid) > 0))
            && (!p.failed && s.retained ==> s.serverOid in p.remote)
  {
    RunInv(ss, es, k);
    assert Conserved(ss[k], ss[k].pinger.value, oid);
    assert Conserved(ss[k], ss[k].pinger.value, ss[k].serverOid);
  }

  /** Releasing a group that shares the object id of the retained server sends no ping update. */
  lemma SharedObjectStaysPinned(s: State, op: nat, a: Attempt)
    requires Inv(s) && RemoveEnabled(s, op, DisposeUnpin(a)) && s.retained && s.pinger.Some?
    requires s.insts[s.threads[op].g].oid == s.serverOid
    ensures var r := RemoveApply(s, op, DisposeUnpin(a));
            && r.pinger.Some? && r.pinger.value.remote == s.pinger.value.remote
            && r.pinger.value.dispatched == s.pinger.value.dispatched
            && Count(r.pinger.value, s.serverOid) > 0
  {
    var g := s.threads[op].g;
    assert Conserved(s, s.pinger.value, s.serverOid);
    if s.insts[g].pin.Pinned? {
      assert g in Pins(s.insts, s.serverOid, Pinned);
    }
  }
}
