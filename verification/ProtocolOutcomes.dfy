/** What the operations of the session protocol achieve: the outcome of the keepalive steps, and
    the result of an operation that nothing disturbs. */
module ProtocolOutcomes {
  import opened Wrappers
  import opened SessionTable
  import opened Keepalive
  import opened Protocol
  import opened ProtocolInvariant

  // ---- the keepalive steps ----

  lemma PinnedIsCounted(s: State, g: nat)
    requires Inv(s) && g < |s.insts| && s.insts[g].pin.Pinned? && s.pinger.Some?
    ensures Consistent(s.pinger.value) && Count(s.pinger.value, s.insts[g].oid) >= 1
  {
    var oid := s.insts[g].oid;
    assert Conserved(s, s.pinger.value, oid);
    assert g in Pins(s.insts, oid, Pinned);
  }

  /** What giving back a reference of object o does, from pinger p to q. */
  predicate GivesBack(p: Ping, q: Ping, o: nat, pin: Pin, a: Attempt) {
    var c := Count(p, o);
    && c >= 1
    && (a.Answered? || (c > 1 && !a.NoGate?) ==>
          pin.Unpinned? && Count(q, o) == c - 1 && q.objects - {o} == p.objects - {o})
    && (pin.PinLost? ==> (a.NoGate? || (c == 1 && (a.Cancelled? || a.Lost?))) && q.objects == p.objects)
    && (pin.Unpinned? || pin.PinLost?)
    && (c > 1 || a.NoGate? || a.Cancelled? ==> Silent(p, q))
    && (c == 1 && a.Answered? ==> Acknowledged(p, q, a.setId, p.remote - {o}))
    && (c == 1 && a.Lost? ==> InDoubt(p, q, a.applied, p.remote - {o}))
  }

  /** The keepalive release of a disposal.  It is tried for every pinned group, and fails only when
      the pinger's gate was not had, or when the last reference was to be dropped and the update
      was not answered.  The last reference takes the object out of the exporter's set. */
  lemma UnpinOutcome(s: State, op: nat, g: nat, a: Attempt)
    requires Inv(s) && Enabled(s, Remove(op, DisposeUnpin(a))) && s.pinger.Some?
    requires g == s.threads[op].g && s.insts[g].pin.Pinned?
    ensures var r := Apply(s, Remove(op, DisposeUnpin(a)));
            && |r.insts| == |s.insts| && r.pinger.Some?
            && GivesBack(s.pinger.value, r.pinger.value, s.insts[g].oid, r.insts[g].pin, a)
  {
    PinnedIsCounted(s, g);
    UnpinGivesBack(s, op, g, s.threads[op].owner, a);
  }

  lemma UnpinGivesBack(s: State, op: nat, g: nat, owner: Owner, a: Attempt)
    requires g < |s.insts| && s.insts[g].pin.Pinned? && s.pinger.Some? && Consistent(s.pinger.value)
    requires Count(s.pinger.value, s.insts[g].oid) >= 1
    ensures var r := UnpinStep(s, op, g, owner, a);
            && |r.insts| == |s.insts| && r.pinger.Some?
            && GivesBack(s.pinger.value, r.pinger.value, s.insts[g].oid, r.insts[g].pin, a)
  {
    ReleaseOutcome(s.pinger.value, s.insts[g].oid, a);
  }

  /** Without a pinger, or for a group that is not pinned, the release changes no count. */
  lemma NothingToUnpin(s: State, op: nat, g: nat, a: Attempt)
    requires Inv(s) && Enabled(s, Remove(op, DisposeUnpin(a))) && g == s.threads[op].g
    requires s.pinger.None? || !s.insts[g].pin.Pinned?
    ensures var r := Apply(s, Remove(op, DisposeUnpin(a)));
            && |r.insts| == |s.insts| && r.pinger == s.pinger
            && r.insts[g].pin == if s.insts[g].pin.Pinned? then Unpinned else s.insts[g].pin
  {}

  /** When the keepalive reference of an object can be taken. */
  predicate Takes(p: Ping, o: nat, a: Attempt) {
    o != 0 && !p.failed && (a.Answered? || (Count(p, o) > 0 && !a.NoGate?))
  }

  predicate Obtains(p: Ping, q: Ping, o: nat, taken: bool, a: Attempt) {
    && Count(q, o) == Count(p, o) + (if taken then 1 else 0)
    && q.objects - {o} == p.objects - {o}
    && (Count(p, o) > 0 ==> Silent(p, q))
    && (taken && Count(p, o) == 0 ==> a.Answered? && Acknowledged(p, q, a.setId, p.remote + {o}))
  }

  /** The keepalive reference of a new group.  It is taken exactly when the group has an object id,
      the pinger is healthy, and the object is already counted or the update is answered.  The
      group goes on to registration then, and is otherwise disposed of. */
  lemma PinOutcome(s: State, op: nat, g: nat, a: Attempt)
    requires Inv(s) && Enabled(s, Add(op, BuildPin(false, a))) && s.pinger.Some? && g == s.threads[op].g
    ensures var r := Apply(s, Add(op, BuildPin(false, a)));
            var o, p := s.insts[g].oid, s.pinger.value;
            && |r.insts| == |s.insts| && r.pinger.Some?
            && Obtains(p, r.pinger.value, o, Takes(p, o, a), a)
            && r.insts[g].pin == (if Takes(p, o, a) then Pinned else NoPin)
            && r.threads[op] == if Takes(p, o, a) then AddReady(g) else Disposing(g, Releasing, Creator)
  {
    RetainOutcome(s.pinger.value, s.insts[g].oid, a);
  }

  /** A group whose object asked not to be pinged is registered without a reference. */
  lemma NothingToPin(s: State, op: nat, g: nat, a: Attempt)
    requires Inv(s) && Enabled(s, Add(op, BuildPin(true, a))) && g == s.threads[op].g
    ensures var r := Apply(s, Add(op, BuildPin(true, a)));
            r.insts == s.insts && r.pinger == s.pinger && r.threads[op] == AddReady(g)
  {}

  // ---- sequences of events ----

  ghost predicate Next(s: State, e: Event, t: State) {
    Enabled(s, e) && Apply(s, e) == t
  }

  /** The events are possible one after the other from s, and end in t. */
  ghost predicate Leads(s: State, es: seq<Event>, t: State)
    decreases |es|
  {
    if es == [] then s == t else Enabled(s, es[0]) && Leads(Apply(s, es[0]), es[1..], t)
  }

  lemma {:induction false} Then(s: State, es: seq<Event>, r: State, e: Event, t: State)
    requires Leads(s, es, r) && Next(r, e, t)
    ensures Leads(s, es + [e], t)
    decreases |es|
  {
    if es == [] {
      assert [e][1..] == [];
    } else {
      assert (es + [e])[1..] == es[1..] + [e];
      Then(Apply(s, es[0]), es[1..], r, e, t);
    }
  }

  /** Two events. */
  lemma Both(s: State, e: Event, r: State, f: Event, t: State)
    requires Next(s, e, r) && Next(r, f, t)
    ensures Leads(s, [e, f], t)
  {
    assert [e, f][1..] == [f] && [f][1..] == [];
  }

  lemma {:induction false} Joined(s: State, es: seq<Event>, r: State, fs: seq<Event>, t: State)
    requires Leads(s, es, r) && Leads(r, fs, t)
    ensures Leads(s, es + fs, t)
    decreases |fs|
  {
    if fs == [] {
      assert es + fs == es;
    } else {
      var q := Apply(r, fs[0]);
      Then(s, es, r, fs[0], q);
      Joined(s, es + [fs[0]], q, fs[1..], t);
      assert es + [fs[0]] + fs[1..] == es + fs;
    }
  }

  lemma Twice(s: State, op: nat, t: Thread, u: Thread)
    ensures Go(Go(s, op, t), op, u) == Go(s, op, u)
  {
    assert s.threads[op := t][op := u] == s.threads[op := u];
  }

  // ---- an undisturbed addGroup ----

  /** One operation more is admitted. */
  function Counted(s: State): State {
    s.(table := s.table.(groupOps := s.table.groupOps + 1))
  }

  /** A group i at the end of the instance table, held by the server under its handle. */
  function Created(s: State, i: Instance): State {
    s.(insts := s.insts + [i], live := s.live[i.handle := Owned(|s.insts|)])
  }

  lemma Arrives(s: State, op: nat, t: Thread)
    requires op !in s.threads && (t.AddIdle? || t.RemoveIdle? || t.ItemIdle? || t.CallIdle?)
    ensures Next(s, Op(op, Arrive(t)), Go(s, op, t))
  {}

  lemma IsAdmitted(s: State, op: nat, t: Thread, u: Thread)
    requires !s.table.closed
    requires (t.AddIdle? && u.AddOpening?) || (t.RemoveIdle? && u == RemoveLookup(t.id, Remover)) ||
             (t.ItemIdle? && u.ItemRunning?)
    ensures Next(Go(s, op, t), Op(op, Admission), Go(Counted(s), op, u))
  {
    Twice(Counted(s), op, t, u);
  }

  lemma AddDispatches(s: State, op: nat)
    ensures Next(Go(s, op, AddOpening), Add(op, AddDispatch), Go(s, op, AddCalling(None)))
  {
    Twice(s, op, AddOpening, AddCalling(None));
  }

  lemma ServerCreates(s: State, op: nat, h: nat)
    requires h !in s.live
    ensures Next(Go(s, op, AddCalling(None)), Add(op, ServerCreate(h)),
                 Go(s.(live := s.live[h := Creating(op)]), op, AddCalling(Some(h))))
  {
    Twice(s.(live := s.live[h := Creating(op)]), op, AddCalling(None), AddCalling(Some(h)));
  }

  lemma AddIsAnswered(s: State, op: nat, h: nat)
    ensures Next(Go(s.(live := s.live[h := Creating(op)]), op, AddCalling(Some(h))), Add(op, AddAnswered),
                 Go(Created(s, NewInstance(op, h)), op, AddBuilding(|s.insts|)))
  {
    Twice(Created(s, NewInstance(op, h)), op, AddCalling(Some(h)), AddBuilding(|s.insts|));
    assert s.live[h := Creating(op)][h := Owned(|s.insts|)] == s.live[h := Owned(|s.insts|)];
  }

  /** The events of addGroup when nothing disturbs it, up to an answered AddGroup, up to the
      keepalive, and to the end. */
  function CreateRun(op: nat, h: nat): seq<Event> {
    [Op(op, Arrive(AddIdle)), Op(op, Admission), Add(op, AddDispatch)] +
    [Add(op, ServerCreate(h)), Add(op, AddAnswered)]
  }

  function BuildRun(op: nat, oid: nat): seq<Event> {
    [Add(op, BuildReference(oid)), Add(op, BuildInterfaces(2))]
  }

  function FinishRun(op: nat, a: Attempt): seq<Event> {
    [Add(op, BuildPin(false, a)), Add(op, RegisterReady), Op(op, OpDone)]
  }

  function AddRun(op: nat, h: nat, oid: nat, a: Attempt): seq<Event> {
    CreateRun(op, h) + BuildRun(op, oid) + FinishRun(op, a)
  }

  lemma AddOpens(s: State, op: nat)
    requires op !in s.threads && !s.table.closed
    ensures Leads(s, [Op(op, Arrive(AddIdle)), Op(op, Admission), Add(op, AddDispatch)],
                  Go(Counted(s), op, AddCalling(None)))
  {
    Arrives(s, op, AddIdle);
    IsAdmitted(s, op, AddIdle, AddOpening);
    Both(s, Op(op, Arrive(AddIdle)), Go(s, op, AddIdle), Op(op, Admission), Go(Counted(s), op, AddOpening));
    AddDispatches(Counted(s), op);
    Then(s, [Op(op, Arrive(AddIdle)), Op(op, Admission)], Go(Counted(s), op, AddOpening), Add(op, AddDispatch),
         Go(Counted(s), op, AddCalling(None)));
  }

  lemma AddCreates(s: State, op: nat, h: nat)
    requires h !in s.live
    ensures Leads(Go(s, op, AddCalling(None)), [Add(op, ServerCreate(h)), Add(op, AddAnswered)],
                  Go(Created(s, NewInstance(op, h)), op, AddBuilding(|s.insts|)))
  {
    ServerCreates(s, op, h);
    AddIsAnswered(s, op, h);
    Both(Go(s, op, AddCalling(None)), Add(op, ServerCreate(h)),
         Go(s.(live := s.live[h := Creating(op)]), op, AddCalling(Some(h))), Add(op, AddAnswered),
         Go(Created(s, NewInstance(op, h)), op, AddBuilding(|s.insts|)));
  }

  lemma AddStarts(s: State, op: nat, h: nat)
    requires op !in s.threads && !s.table.closed && h !in s.live
    ensures Leads(s, CreateRun(op, h), Go(Created(Counted(s), NewInstance(op, h)), op, AddBuilding(|s.insts|)))
  {
    AddOpens(s, op);
    AddCreates(Counted(s), op, h);
    Joined(s, [Op(op, Arrive(AddIdle)), Op(op, Admission), Add(op, AddDispatch)],
           Go(Counted(s), op, AddCalling(None)), [Add(op, ServerCreate(h)), Add(op, AddAnswered)],
           Go(Created(Counted(s), NewInstance(op, h)), op, AddBuilding(|s.insts|)));
  }

  /** Replacing the last instance of a state. */
  lemma LastPut(s: State, i: Instance, j: Instance)
    requires i.handle == j.handle
    ensures Put(Created(s, i), |s.insts|, j) == Created(s, j)
  {
    assert (s.insts + [i])[|s.insts| := j] == s.insts + [j];
  }

  lemma ReferenceIsBuilt(s: State, op: nat, i: Instance, oid: nat)
    requires i.refs == 0
    ensures Next(Go(Created(s, i), op, AddBuilding(|s.insts|)), Add(op, BuildReference(oid)),
                 Go(Created(s, i.(refs := 1, oid := oid)), op, AddBuilding(|s.insts|)))
  {
    LastPut(s, i, i.(refs := 1, oid := oid));
  }

  lemma InterfacesAreBuilt(s: State, op: nat, i: Instance)
    requires i.refs == 1
    ensures Next(Go(Created(s, i), op, AddBuilding(|s.insts|)), Add(op, BuildInterfaces(2)),
                 Go(Created(s, i.(refs := 3)), op, AddBuilding(|s.insts|)))
  {
    LastPut(s, i, i.(refs := 3));
  }

  lemma AddBuilds(s: State, op: nat, i: Instance, oid: nat)
    requires i.refs == 0
    ensures Leads(Go(Created(s, i), op, AddBuilding(|s.insts|)),
                  BuildRun(op, oid),
                  Go(Created(s, i.(refs := 3, oid := oid)), op, AddBuilding(|s.insts|)))
  {
    var th := AddBuilding(|s.insts|);
    ReferenceIsBuilt(s, op, i, oid);
    InterfacesAreBuilt(s, op, i.(refs := 1, oid := oid));
    Both(Go(Created(s, i), op, th), Add(op, BuildReference(oid)), Go(Created(s, i.(refs := 1, oid := oid)), op, th),
         Add(op, BuildInterfaces(2)), Go(Created(s, i.(refs := 3, oid := oid)), op, th));
  }

  lemma AddPins(s: State, op: nat, i: Instance, p: Ping, q: Ping, a: Attempt)
    requires i.refs == 3 && s.pinger == Some(p) && Retain(p, i.oid, a) == (q, true)
    ensures Next(Go(Created(s, i), op, AddBuilding(|s.insts|)), Add(op, BuildPin(false, a)),
                 Go(Created(s.(pinger := Some(q)), i.(pin := Pinned)), op, AddReady(|s.insts|)))
  {
    var r := s.(pinger := Some(q));
    LastPut(r, i, i.(pin := Pinned));
    Twice(Created(r, i.(pin := Pinned)), op, AddBuilding(|s.insts|), AddReady(|s.insts|));
  }

  /** The group i under the next local id. */
  function Listed(s: State, i: Instance): State {
    var id := s.table.nextGroupID + 1;
    Created(s.(table := s.table.(nextGroupID := id, groups := s.table.groups[id := |s.insts|])),
            i.(phase := Registered(id), id := Some(id)))
  }

  lemma IsRegistered(s: State, op: nat, i: Instance)
    requires !s.table.closed && s.table.nextGroupID != 0x7fff_ffff_ffff_ffff
    ensures Next(Go(Created(s, i), op, AddReady(|s.insts|)), Add(op, RegisterReady), Go(Listed(s, i), op, Exiting))
  {
    var id := s.table.nextGroupID + 1;
    var q := s.(table := s.table.(nextGroupID := id, groups := s.table.groups[id := |s.insts|]));
    LastPut(q, i, i.(phase := Registered(id), id := Some(id)));
    Twice(Listed(s, i), op, AddReady(|s.insts|), Exiting);
  }

  lemma IsDone(s: State, op: nat)
    ensures Next(Go(Counted(s), op, Exiting), Op(op, OpDone), Go(s, op, Finished))
  {
    Twice(s, op, Exiting, Finished);
  }

  /** The new group: registered under the next local id, pinned, and held by the server. */
  function AddedGroup(s: State, op: nat, h: nat, oid: nat): Instance {
    var id := s.table.nextGroupID + 1;
    Instance(h, op, 3, oid, Pinned, Registered(id), Some(id), None, false, Unsent)
  }

  lemma AddFinishes(s: State, op: nat, i: Instance, p: Ping, q: Ping, a: Attempt)
    requires i.refs == 3 && s.pinger == Some(p) && Retain(p, i.oid, a) == (q, true)
    requires !s.table.closed && s.table.nextGroupID != 0x7fff_ffff_ffff_ffff
    ensures Leads(Go(Created(Counted(s), i), op, AddBuilding(|s.insts|)),
                  FinishRun(op, a),
                  Go(Listed(s.(pinger := Some(q)), i.(pin := Pinned)), op, Finished))
  {
    var r := s.(pinger := Some(q));
    var j := i.(pin := Pinned);
    var b := Go(Created(Counted(s), i), op, AddBuilding(|s.insts|));
    AddPins(Counted(s), op, i, p, q, a);
    IsRegistered(Counted(r), op, j);
    assert Listed(Counted(r), j) == Counted(Listed(r, j));
    IsDone(Listed(r, j), op);
    Both(b, Add(op, BuildPin(false, a)), Go(Created(Counted(r), j), op, AddReady(|s.insts|)),
         Add(op, RegisterReady), Go(Counted(Listed(r, j)), op, Exiting));
    Then(b, [Add(op, BuildPin(false, a)), Add(op, RegisterReady)], Go(Counted(Listed(r, j)), op, Exiting),
         Op(op, OpDone), Go(Listed(r, j), op, Finished));
  }

  /** What an undisturbed addGroup leaves: the group under the next local id and in the server's
      hands, a finished operation, and nothing else but the pinger changed. */
  function Added(s: State, op: nat, h: nat, oid: nat, q: Ping): State {
    var id, g := s.table.nextGroupID + 1, |s.insts|;
    s.(table := s.table.(nextGroupID := id, groups := s.table.groups[id := g]),
       insts := s.insts + [AddedGroup(s, op, h, oid)],
       live := s.live[h := Owned(g)],
       threads := s.threads[op := Finished],
       pinger := Some(q))
  }

  lemma ListedIsAdded(s: State, op: nat, h: nat, oid: nat, q: Ping, i: Instance)
    requires i == NewInstance(op, h).(refs := 3, oid := oid, pin := Pinned)
    ensures Go(Listed(s.(pinger := Some(q)), i), op, Finished) == Added(s, op, h, oid, q)
  {}

  /** addGroup from its start to the keepalive. */
  lemma AddIsBuilt(s: State, op: nat, h: nat, oid: nat, j: Instance)
    requires op !in s.threads && h !in s.live && !s.table.closed
    requires j == NewInstance(op, h).(refs := 3, oid := oid)
    ensures Leads(s, CreateRun(op, h) + BuildRun(op, oid), Go(Created(Counted(s), j), op, AddBuilding(|s.insts|)))
  {
    var i := NewInstance(op, h);
    AddStarts(s, op, h);
    AddBuilds(Counted(s), op, i, oid);
    Joined(s, CreateRun(op, h), Go(Created(Counted(s), i), op, AddBuilding(|s.insts|)), BuildRun(op, oid),
           Go(Created(Counted(s), j), op, AddBuilding(|s.insts|)));
  }

  /** An undisturbed addGroup registers the group under the next local id with a keepalive
      reference, and changes nothing else. */
  lemma UndisturbedAdd(s: State, op: nat, h: nat, oid: nat, p: Ping, a: Attempt) returns (q: Ping)
    requires s.pinger == Some(p) && Consistent(p) && Takes(p, oid, a)
    requires op !in s.threads && h !in s.live && !s.table.closed && s.table.nextGroupID != 0x7fff_ffff_ffff_ffff
    ensures Leads(s, AddRun(op, h, oid, a), Added(s, op, h, oid, q)) && Obtains(p, q, oid, true, a)
  {
    RetainOutcome(p, oid, a);
    q := Retain(p, oid, a).0;
    var j := NewInstance(op, h).(refs := 3, oid := oid);
    AddIsBuilt(s, op, h, oid, j);
    AddFinishes(s, op, j, p, q, a);
    ListedIsAdded(s, op, h, oid, q, j.(pin := Pinned));
    Joined(s, CreateRun(op, h) + BuildRun(op, oid), Go(Created(Counted(s), j), op, AddBuilding(|s.insts|)),
           FinishRun(op, a), Added(s, op, h, oid, q));
  }

  // ---- an undisturbed removeGroup ----

  /** State s with instance i at g and operation op at t. */
  function At(s: State, op: nat, t: Thread, g: nat, i: Instance): State
    requires g < |s.insts|
  {
    Go(Put(s, g, i), op, t)
  }

  lemma AtTwice(s: State, op: nat, t: Thread, g: nat, i: Instance, u: Thread, j: Instance)
    requires g < |s.insts|
    ensures At(At(s, op, t, g, i), op, u, g, j) == At(s, op, u, g, j)
  {
    assert s.threads[op := t][op := u] == s.threads[op := u];
    assert s.insts[g := i][g := j] == s.insts[g := j];
  }

  lemma RemoveFinds(s: State, op: nat, id: nat, g: nat)
    requires id in s.table.groups && s.table.groups[id] == g
    ensures Next(Go(s, op, RemoveLookup(id, Remover)), Remove(op, RemoveFind),
                 Go(s, op, RemoveWaiting(id, g, Remover)))
  {
    Twice(s, op, RemoveLookup(id, Remover), RemoveWaiting(id, g, Remover));
  }

  lemma RemoveAcquires(s: State, op: nat, id: nat, g: nat)
    requires g < |s.insts| && s.insts[g].gate.None? && !s.insts[g].closed
    ensures Next(Go(s, op, RemoveWaiting(id, g, Remover)), Remove(op, RemoveAcquire(false)),
                 At(s, op, RemoveOwning(id, g, Remover), g, s.insts[g].(gate := Some(op))))
  {
    AtTwice(s, op, RemoveWaiting(id, g, Remover), g, s.insts[g], RemoveOwning(id, g, Remover),
            s.insts[g].(gate := Some(op)));
    assert Put(s, g, s.insts[g]) == s;
  }

  /** State s without the group id. */
  function Unlisted(s: State, id: nat): State {
    s.(table := s.table.(groups := s.table.groups - {id}))
  }

  lemma RemoveUnregisters(s: State, op: nat, id: nat, g: nat, i: Instance)
    requires g < |s.insts|
    ensures Next(At(s, op, RemoveOwning(id, g, Remover), g, i), Remove(op, RemoveUnregister),
                 At(Unlisted(s, id), op, Disposing(g, Releasing, Remover), g,
                    i.(closed := true, phase := Disposal(op))))
  {
    var j := i.(closed := true);
    AtTwice(Unlisted(s, id), op, RemoveOwning(id, g, Remover), g, i, RemoveOwning(id, g, Remover), j);
    AtTwice(Unlisted(s, id), op, RemoveOwning(id, g, Remover), g, j, Disposing(g, Releasing, Remover),
            j.(phase := Disposal(op)));
  }

  lemma Releases(s: State, op: nat, g: nat, i: Instance)
    requires g < |s.insts|
    ensures Next(At(s, op, Disposing(g, Releasing, Remover), g, i), Remove(op, DisposeRelease),
                 At(s, op, Disposing(g, Removing, Remover), g, i))
  {
    Twice(Put(s, g, i), op, Disposing(g, Releasing, Remover), Disposing(g, Removing, Remover));
  }

  lemma SendsRemove(s: State, op: nat, g: nat, i: Instance)
    requires g < |s.insts|
    ensures Next(At(s, op, Disposing(g, Removing, Remover), g, i), Remove(op, DisposeRemove),
                 At(s, op, Disposing(g, Awaiting, Remover), g, i.(request := InFlight)))
  {
    AtTwice(s, op, Disposing(g, Removing, Remover), g, i, Disposing(g, Awaiting, Remover), i.(request := InFlight));
  }

  lemma ServerDrops(s: State, op: nat, t: Thread, g: nat, i: Instance)
    requires g < |s.insts| && i.request.InFlight? && i.handle in s.live
    ensures Next(At(s, op, t, g, i), Server(ServerRemove(g)),
                 At(s.(live := s.live - {i.handle}), op, t, g, i.(request := Executed(true))))
  {
    AtTwice(s.(live := s.live - {i.handle}), op, t, g, i, t, i.(request := Executed(true)));
  }

  lemma LearnsRemoved(s: State, op: nat, g: nat, i: Instance)
    requires g < |s.insts| && i.request == Executed(true)
    ensures Next(At(s, op, Disposing(g, Awaiting, Remover), g, i), Remove(op, DisposeReply(true)),
                 At(s, op, Disposing(g, Booking(true), Remover), g, i))
  {
    Twice(Put(s, g, i), op, Disposing(g, Awaiting, Remover), Disposing(g, Booking(true), Remover));
  }

  lemma BooksRemoved(s: State, op: nat, g: nat, i: Instance)
    requires g < |s.insts|
    ensures Next(At(s, op, Disposing(g, Booking(true), Remover), g, i), Remove(op, DisposeBook),
                 At(s.(table := s.table.(pending := s.table.pending - {i.handle})), op,
                    Disposing(g, Unpinning, Remover), g, i))
  {
    Twice(Put(s.(table := s.table.(pending := s.table.pending - {i.handle})), g, i), op,
          Disposing(g, Booking(true), Remover), Disposing(g, Unpinning, Remover));
  }

  lemma GivesPinBack(s: State, op: nat, g: nat, i: Instance, p: Ping, q: Ping, a: Attempt)
    requires g < |s.insts| && i.pin.Pinned? && s.pinger == Some(p) && Release(p, i.oid, a) == (q, true)
    ensures Next(At(s, op, Disposing(g, Unpinning, Remover), g, i), Remove(op, DisposeUnpin(a)),
                 At(s.(pinger := Some(q)), op, Leaving(g, Remover), g, i.(phase := Disposed, pin := Unpinned)))
  {
    AtTwice(s.(pinger := Some(q)), op, Disposing(g, Unpinning, Remover), g, i, Leaving(g, Remover),
            i.(phase := Disposed, pin := Unpinned));
  }

  lemma ReleasesGate(s: State, op: nat, g: nat, i: Instance)
    requires g < |s.insts|
    ensures Next(At(s, op, Leaving(g, Remover), g, i), Op(op, GateRelease), At(s, op, Exiting, g, i.(gate := None)))
  {
    AtTwice(s, op, Leaving(g, Remover), g, i, Exiting, i.(gate := None));
  }

  function ArriveRun(op: nat, id: nat): seq<Event> {
    [Op(op, Arrive(RemoveIdle(id))), Op(op, Admission), Remove(op, RemoveFind)]
  }

  function TakeRun(op: nat): seq<Event> {
    [Remove(op, RemoveAcquire(false)), Remove(op, RemoveUnregister)]
  }

  function FindRun(op: nat, id: nat): seq<Event> {
    ArriveRun(op, id) + TakeRun(op)
  }

  function DropRun(op: nat, g: nat): seq<Event> {
    [Remove(op, DisposeRelease), Remove(op, DisposeRemove), Server(ServerRemove(g)), Remove(op, DisposeReply(true))]
  }

  function LeaveRun(op: nat, a: Attempt): seq<Event> {
    [Remove(op, DisposeBook), Remove(op, DisposeUnpin(a)), Op(op, GateRelease), Op(op, OpDone)]
  }

  /** removeGroup when nothing disturbs it. */
  function RemoveRun(op: nat, id: nat, g: nat, a: Attempt): seq<Event> {
    FindRun(op, id) + DropRun(op, g) + LeaveRun(op, a)
  }

  lemma RemoveStarts(s: State, op: nat, id: nat, g: nat)
    requires op !in s.threads && !s.table.closed && id in s.table.groups && s.table.groups[id] == g
    ensures Leads(s, ArriveRun(op, id), Go(Counted(s), op, RemoveWaiting(id, g, Remover)))
  {
    var r, q, t := Go(s, op, RemoveIdle(id)), Go(Counted(s), op, RemoveLookup(id, Remover)),
                   Go(Counted(s), op, RemoveWaiting(id, g, Remover));
    Arrives(s, op, RemoveIdle(id));
    IsAdmitted(s, op, RemoveIdle(id), RemoveLookup(id, Remover));
    RemoveFinds(Counted(s), op, id, g);
    Both(s, Op(op, Arrive(RemoveIdle(id))), r, Op(op, Admission), q);
    Then(s, [Op(op, Arrive(RemoveIdle(id))), Op(op, Admission)], q, Remove(op, RemoveFind), t);
  }

  lemma RemoveTakes(s: State, op: nat, id: nat, g: nat, i: Instance)
    requires g < |s.insts| && s.insts[g] == i && i.gate.None? && !i.closed
    ensures Leads(Go(s, op, RemoveWaiting(id, g, Remover)), TakeRun(op),
                  At(Unlisted(s, id), op, Disposing(g, Releasing, Remover), g,
                     i.(gate := Some(op), closed := true, phase := Disposal(op))))
  {
    RemoveAcquires(s, op, id, g);
    RemoveUnregisters(s, op, id, g, i.(gate := Some(op)));
    Both(Go(s, op, RemoveWaiting(id, g, Remover)), Remove(op, RemoveAcquire(false)),
         At(s, op, RemoveOwning(id, g, Remover), g, i.(gate := Some(op))), Remove(op, RemoveUnregister),
         At(Unlisted(s, id), op, Disposing(g, Releasing, Remover), g,
            i.(gate := Some(op), closed := true, phase := Disposal(op))));
  }

  lemma RemoveDrops(s: State, op: nat, g: nat, i: Instance)
    requires g < |s.insts| && i.handle in s.live
    ensures Leads(At(s, op, Disposing(g, Releasing, Remover), g, i), DropRun(op, g),
                  At(s.(live := s.live - {i.handle}), op, Disposing(g, Booking(true), Remover), g,
                     i.(request := Executed(true))))
  {
    var r, q := At(s, op, Disposing(g, Releasing, Remover), g, i), At(s, op, Disposing(g, Removing, Remover), g, i);
    var j, k, b := i.(request := InFlight), i.(request := Executed(true)), s.(live := s.live - {i.handle});
    var u, v, w := At(s, op, Disposing(g, Awaiting, Remover), g, j), At(b, op, Disposing(g, Awaiting, Remover), g, k),
                   At(b, op, Disposing(g, Booking(true), Remover), g, k);
    Releases(s, op, g, i);
    SendsRemove(s, op, g, i);
    ServerDrops(s, op, Disposing(g, Awaiting, Remover), g, j);
    LearnsRemoved(b, op, g, k);
    Both(r, Remove(op, DisposeRelease), q, Remove(op, DisposeRemove), u);
    Then(r, [Remove(op, DisposeRelease), Remove(op, DisposeRemove)], u, Server(ServerRemove(g)), v);
    Then(r, [Remove(op, DisposeRelease), Remove(op, DisposeRemove), Server(ServerRemove(g))], v,
         Remove(op, DisposeReply(true)), w);
    assert [Remove(op, DisposeRelease), Remove(op, DisposeRemove), Server(ServerRemove(g))] +
           [Remove(op, DisposeReply(true))] == DropRun(op, g);
  }

  lemma IsDoneAt(s: State, op: nat, g: nat, i: Instance)
    requires g < |s.insts|
    ensures Next(At(Counted(s), op, Exiting, g, i), Op(op, OpDone), At(s, op, Finished, g, i))
  {
    IsDone(Put(s, g, i), op);
    assert At(Counted(s), op, Exiting, g, i) == Go(Counted(Put(s, g, i)), op, Exiting);
  }

  /** The pending table without the handle h, and the pinger q. */
  function Settled(s: State, h: nat, q: Ping): State {
    s.(table := s.table.(pending := s.table.pending - {h}), pinger := Some(q))
  }

  lemma RemoveUnpins(s: State, op: nat, g: nat, i: Instance, p: Ping, q: Ping, a: Attempt)
    requires g < |s.insts| && i.pin.Pinned? && s.pinger == Some(p) && Release(p, i.oid, a) == (q, true)
    ensures Leads(At(s, op, Disposing(g, Booking(true), Remover), g, i),
                  [Remove(op, DisposeBook), Remove(op, DisposeUnpin(a))],
                  At(Settled(s, i.handle, q), op, Leaving(g, Remover), g, i.(phase := Disposed, pin := Unpinned)))
  {
    var b := s.(table := s.table.(pending := s.table.pending - {i.handle}));
    BooksRemoved(s, op, g, i);
    GivesPinBack(b, op, g, i, p, q, a);
    Both(At(s, op, Disposing(g, Booking(true), Remover), g, i), Remove(op, DisposeBook),
         At(b, op, Disposing(g, Unpinning, Remover), g, i), Remove(op, DisposeUnpin(a)),
         At(Settled(s, i.handle, q), op, Leaving(g, Remover), g, i.(phase := Disposed, pin := Unpinned)));
  }

  lemma RemoveLeaves(s: State, op: nat, g: nat, i: Instance)
    requires g < |s.insts|
    ensures Leads(At(Counted(s), op, Leaving(g, Remover), g, i), [Op(op, GateRelease), Op(op, OpDone)],
                  At(s, op, Finished, g, i.(gate := None)))
  {
    ReleasesGate(Counted(s), op, g, i);
    IsDoneAt(s, op, g, i.(gate := None));
    Both(At(Counted(s), op, Leaving(g, Remover), g, i), Op(op, GateRelease),
         At(Counted(s), op, Exiting, g, i.(gate := None)), Op(op, OpDone), At(s, op, Finished, g, i.(gate := None)));
  }

  lemma RemoveEnds(s: State, op: nat, g: nat, i: Instance, p: Ping, q: Ping, a: Attempt)
    requires g < |s.insts| && i.pin.Pinned? && s.pinger == Some(p) && Release(p, i.oid, a) == (q, true)
    ensures Leads(At(Counted(s), op, Disposing(g, Booking(true), Remover), g, i), LeaveRun(op, a),
                  At(Settled(s, i.handle, q), op, Finished, g, i.(phase := Disposed, pin := Unpinned, gate := None)))
  {
    var j, b := i.(phase := Disposed, pin := Unpinned), Settled(s, i.handle, q);
    RemoveUnpins(Counted(s), op, g, i, p, q, a);
    RemoveLeaves(b, op, g, j);
    assert Settled(Counted(s), i.handle, q) == Counted(b);
    Joined(At(Counted(s), op, Disposing(g, Booking(true), Remover), g, i),
           [Remove(op, DisposeBook), Remove(op, DisposeUnpin(a))], At(Counted(b), op, Leaving(g, Remover), g, j),
           [Op(op, GateRelease), Op(op, OpDone)], At(b, op, Finished, g, j.(gate := None)));
    assert [Remove(op, DisposeBook), Remove(op, DisposeUnpin(a))] + [Op(op, GateRelease), Op(op, OpDone)] ==
           LeaveRun(op, a);
  }

  lemma RemoveUnlists(s: State, op: nat, id: nat, g: nat, i: Instance, j: Instance)
    requires op !in s.threads && !s.table.closed && id in s.table.groups && s.table.groups[id] == g
    requires g < |s.insts| && s.insts[g] == i && i.gate.None? && !i.closed
    requires j == i.(gate := Some(op), closed := true, phase := Disposal(op))
    ensures Leads(s, FindRun(op, id), At(Counted(Unlisted(s, id)), op, Disposing(g, Releasing, Remover), g, j))
  {
    RemoveStarts(s, op, id, g);
    CountedTakes(s, op, id, g, i);
    Joined(s, ArriveRun(op, id), Go(Counted(s), op, RemoveWaiting(id, g, Remover)), TakeRun(op),
           At(Counted(Unlisted(s, id)), op, Disposing(g, Releasing, Remover), g, j));
  }

  lemma CountedTakes(s: State, op: nat, id: nat, g: nat, i: Instance)
    requires g < |s.insts| && s.insts[g] == i && i.gate.None? && !i.closed
    ensures Leads(Go(Counted(s), op, RemoveWaiting(id, g, Remover)), TakeRun(op),
                  At(Counted(Unlisted(s, id)), op, Disposing(g, Releasing, Remover), g,
                     i.(gate := Some(op), closed := true, phase := Disposal(op))))
  {
    RemoveTakes(Counted(s), op, id, g, i);
    assert Unlisted(Counted(s), id) == Counted(Unlisted(s, id));
  }

  /** What an undisturbed removeGroup leaves: the id is unlisted, the server has dropped the handle
      and no removal of it is pending, the group is closed, disposed of and without a keepalive
      reference, and nothing else but the pinger changed. */
  function Removed(s: State, op: nat, id: nat, g: nat, q: Ping): State
    requires g < |s.insts|
  {
    var i := s.insts[g];
    s.(table := s.table.(groups := s.table.groups - {id}, pending := s.table.pending - {i.handle}),
       insts := s.insts[g := i.(closed := true, phase := Disposed, pin := Unpinned, request := Executed(true))],
       live := s.live - {i.handle},
       threads := s.threads[op := Finished],
       pinger := Some(q))
  }

  /** A registered group is open, was not removed before and is held by the server. */
  lemma ListedGroup(s: State, id: nat)
    requires Inv(s) && id in s.table.groups && !s.table.closed
    ensures var g := s.table.groups[id];
            g < |s.insts| && !s.insts[g].closed && s.insts[g].handle in s.live
  {
    var g := s.table.groups[id];
    assert InstOk(s, g);
    assert Held(s, g);
  }

  /** RemoveGroup on top of an admitted operation. */
  lemma CountedDrops(s: State, op: nat, g: nat, k: Instance)
    requires g < |s.insts| && k.handle in s.live
    ensures Leads(At(Counted(s), op, Disposing(g, Releasing, Remover), g, k), DropRun(op, g),
                  At(Counted(s.(live := s.live - {k.handle})), op, Disposing(g, Booking(true), Remover), g,
                     k.(request := Executed(true))))
  {
    RemoveDrops(Counted(s), op, g, k);
  }

  lemma RemoveDropsGroup(s: State, op: nat, id: nat, g: nat, i: Instance, k: Instance)
    requires op !in s.threads && !s.table.closed && id in s.table.groups && s.table.groups[id] == g
    requires g < |s.insts| && s.insts[g] == i && i.gate.None? && !i.closed && i.handle in s.live
    requires k == i.(gate := Some(op), closed := true, phase := Disposal(op))
    ensures Leads(s, FindRun(op, id) + DropRun(op, g),
                  At(Counted(Unlisted(s, id).(live := s.live - {i.handle})), op,
                     Disposing(g, Booking(true), Remover), g, k.(request := Executed(true))))
  {
    var b := Unlisted(s, id);
    RemoveUnlists(s, op, id, g, i, k);
    CountedDrops(b, op, g, k);
    Joined(s, FindRun(op, id), At(Counted(b), op, Disposing(g, Releasing, Remover), g, k), DropRun(op, g),
           At(Counted(b.(live := b.live - {k.handle})), op, Disposing(g, Booking(true), Remover), g,
              k.(request := Executed(true))));
  }

  /** An undisturbed removeGroup removes the group everywhere and changes nothing else. */
  lemma UndisturbedRemove(s: State, op: nat, id: nat, g: nat, p: Ping, a: Attempt) returns (q: Ping)
    requires s.pinger == Some(p) && Consistent(p) && op !in s.threads && !s.table.closed
    requires id in s.table.groups && s.table.groups[id] == g && g < |s.insts|
    requires var i := s.insts[g];
             && i.gate.None? && !i.closed && i.handle in s.live && i.pin.Pinned? && Count(p, i.oid) >= 1
             && (a.Answered? || (Count(p, i.oid) > 1 && !a.NoGate?))
    ensures Leads(s, RemoveRun(op, id, g, a), Removed(s, op, id, g, q))
    ensures GivesBack(p, q, s.insts[g].oid, Unpinned, a)
  {
    var i := s.insts[g];
    ReleaseOutcome(p, i.oid, a);
    q := Release(p, i.oid, a).0;
    var k := i.(gate := Some(op), closed := true, phase := Disposal(op));
    var j := k.(request := Executed(true));
    var b := Unlisted(s, id).(live := s.live - {i.handle});
    RemoveDropsGroup(s, op, id, g, i, k);
    RemoveEnds(b, op, g, j, p, q, a);
    Joined(s, FindRun(op, id) + DropRun(op, g),
           At(Counted(b), op, Disposing(g, Booking(true), Remover), g, j), LeaveRun(op, a),
           Removed(s, op, id, g, q));
  }

  // ---- an undisturbed call on a group ----

  lemma CallFinds(s: State, op: nat, id: nat, g: nat)
    requires id in s.table.groups && s.table.groups[id] == g
    ensures Next(Go(s, op, CallIdle(id)), Op(op, CallFind), Go(s, op, CallWaiting(g)))
  {
    Twice(s, op, CallIdle(id), CallWaiting(g));
  }

  lemma CallAcquires(s: State, op: nat, g: nat, i: Instance)
    requires g < |s.insts| && s.insts[g] == i && i.gate.None? && !i.closed
    ensures Next(Go(s, op, CallWaiting(g)), Op(op, CallAcquire(false)),
                 At(s, op, CallHolding(g), g, i.(gate := Some(op))))
  {
    AtTwice(s, op, CallWaiting(g), g, i, CallHolding(g), i.(gate := Some(op)));
    assert Put(s, g, i) == s;
  }

  lemma CallCalls(s: State, op: nat, g: nat, i: Instance)
    requires g < |s.insts|
    ensures Next(At(s, op, CallHolding(g), g, i), Op(op, CallRpc), At(s, op, CallHolding(g), g, i))
    ensures Next(At(s, op, CallHolding(g), g, i), Op(op, CallFinish), At(s, op, Leaving(g, Caller), g, i))
  {
    Twice(Put(s, g, i), op, CallHolding(g), Leaving(g, Caller));
  }

  lemma CallLeaves(s: State, op: nat, g: nat, i: Instance)
    requires g < |s.insts| && s.insts[g] == i && i.gate.None?
    ensures Next(At(s, op, Leaving(g, Caller), g, i.(gate := Some(op))), Op(op, GateRelease), Go(s, op, Finished))
  {
    AtTwice(s, op, Leaving(g, Caller), g, i.(gate := Some(op)), Finished, i);
    assert Put(s, g, i) == s;
  }

  /** A call on a registered group whose gate is free sends its RPC and leaves everything as it was. */
  lemma UndisturbedCall(s: State, op: nat, id: nat, g: nat)
    requires op !in s.threads && id in s.table.groups && s.table.groups[id] == g
    requires g < |s.insts| && s.insts[g].gate.None? && !s.insts[g].closed
    ensures Leads(s, [Op(op, Arrive(CallIdle(id))), Op(op, CallFind), Op(op, CallAcquire(false)), Op(op, CallRpc),
                      Op(op, CallFinish), Op(op, GateRelease)], s.(threads := s.threads[op := Finished]))
  {
    var i := s.insts[g];
    var q, h, l := Go(s, op, CallWaiting(g)), At(s, op, CallHolding(g), g, i.(gate := Some(op))),
                   At(s, op, Leaving(g, Caller), g, i.(gate := Some(op)));
    Arrives(s, op, CallIdle(id));
    CallFinds(s, op, id, g);
    CallAcquires(s, op, g, i);
    CallCalls(s, op, g, i.(gate := Some(op)));
    CallLeaves(s, op, g, i);
    var es := [Op(op, Arrive(CallIdle(id))), Op(op, CallFind)];
    Both(s, es[0], Go(s, op, CallIdle(id)), es[1], q);
    Then(s, es, q, Op(op, CallAcquire(false)), h);
    Then(s, es + [Op(op, CallAcquire(false))], h, Op(op, CallRpc), h);
    Then(s, es + [Op(op, CallAcquire(false))] + [Op(op, CallRpc)], h, Op(op, CallFinish), l);
    Then(s, es + [Op(op, CallAcquire(false))] + [Op(op, CallRpc)] + [Op(op, CallFinish)], l, Op(op, GateRelease),
         Go(s, op, Finished));
    assert es + [Op(op, CallAcquire(false))] + [Op(op, CallRpc)] + [Op(op, CallFinish)] + [Op(op, GateRelease)] ==
           [Op(op, Arrive(CallIdle(id))), Op(op, CallFind), Op(op, CallAcquire(false)), Op(op, CallRpc),
            Op(op, CallFinish), Op(op, GateRelease)];
  }

  // ---- an undisturbed close ----

  function Closing(s: State, c: Closer): State {
    s.(table := s.table.(closed := true), closer := c)
  }

  lemma CloseDrains(s: State)
    requires s.closer.Idle? && !s.table.closed && s.table.groupOps == 0
    ensures Leads(s, [Close(CloseBegin), Close(CloseDrained)], Closing(s, Drained))
  {
    Both(s, Close(CloseBegin), Closing(s, Draining), Close(CloseDrained), Closing(s, Drained));
  }

  lemma CloseLists(s: State)
    requires s.table.groups == map[] && s.table.pending == {}
    ensures Leads(Closing(s, Drained), [Close(CloseSnapshot), Close(ReplayDone)],
                  Closing(s, RemovingGroups({}, None)))
  {
    assert Targeted(Closing(s, Drained)) == Targets({}, {});
    Both(Closing(s, Drained), Close(CloseSnapshot), Closing(s, Replaying({}, {})), Close(ReplayDone),
         Closing(s, RemovingGroups({}, None)));
  }

  lemma CloseReleases(s: State)
    ensures Leads(Closing(s, RemovingGroups({}, None)), [Close(TeardownDone), Close(CloseReleaseServer)],
                  Closing(s, StoppingPing))
  {
    Both(Closing(s, RemovingGroups({}, None)), Close(TeardownDone), Closing(s, ReleasingServer),
         Close(CloseReleaseServer), Closing(s, StoppingPing));
  }

  /** The pinger stops before the transport is closed. */
  lemma CloseStops(s: State)
    ensures Leads(Closing(s, StoppingPing), [Close(CloseStopPing), Close(CloseTransport)],
                  Closing(s, TransportClosed).(pinger := None))
  {
    Both(Closing(s, StoppingPing), Close(CloseStopPing), Closing(s, ClosingTransport).(pinger := None),
         Close(CloseTransport), Closing(s, TransportClosed).(pinger := None));
  }

  function CloseRun(): seq<Event> {
    [Close(CloseBegin), Close(CloseDrained)] + [Close(CloseSnapshot), Close(ReplayDone)] +
    [Close(TeardownDone), Close(CloseReleaseServer)] + [Close(CloseStopPing), Close(CloseTransport)]
  }

  /** Closing an idle session without groups releases the server, stops the pinger and closes the
      transport, in this order, and changes nothing else. */
  lemma UndisturbedClose(s: State)
    requires s.closer.Idle? && !s.table.closed && s.table.groupOps == 0
    requires s.table.groups == map[] && s.table.pending == {}
    ensures Leads(s, CloseRun(), s.(table := s.table.(closed := true), closer := TransportClosed, pinger := None))
  {
    var es, fs := [Close(CloseBegin), Close(CloseDrained)], [Close(CloseSnapshot), Close(ReplayDone)];
    var gs, hs := [Close(TeardownDone), Close(CloseReleaseServer)], [Close(CloseStopPing), Close(CloseTransport)];
    CloseDrains(s);
    CloseLists(s);
    CloseReleases(s);
    CloseStops(s);
    Joined(s, es, Closing(s, Drained), fs, Closing(s, RemovingGroups({}, None)));
    Joined(s, es + fs, Closing(s, RemovingGroups({}, None)), gs, Closing(s, StoppingPing));
    Joined(s, es + fs + gs, Closing(s, StoppingPing), hs, Closing(s, TransportClosed).(pinger := None));
  }
}
