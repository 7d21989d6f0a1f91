/** Pending removals: which groups teardown still has to remove, and what it sends. */
module ProtocolTeardown {
  import opened Wrappers
  import opened SessionTable
  import opened Keepalive
  import opened Protocol
  import opened ProtocolInvariant
  import opened ProtocolTheorems
  import Runs

  // ---- the pending table ----

  /** Every group that the server still holds although its removal has been booked is pending. */
  ghost predicate Tracked(s: State) {
    forall g: nat :: Held(s, g) && Booked(s, g) ==> s.insts[g].handle in s.table.pending
  }

  /** A success is booked for a handle that the server has meanwhile given to another group,
      and that group's own removal has already failed. */
  ghost predicate StaleErase(s: State, e: Event) {
    && e.Remove? && e.r.DisposeBook? && RemoveEnabled(s, e.op, e.r) && s.threads[e.op].stage.removed
    && exists k: nat :: Held(s, k) && Booked(s, k) && s.insts[k].handle == s.insts[s.threads[e.op].g].handle
  }

  /** Apart from booking, a step neither books a removal nor makes the server hold a booked group. */
  predicate NoNewDebt(s: State, r: State, g: nat) {
    && r.table.pending == s.table.pending
    && (g < |s.insts| <= |r.insts| ==> r.insts[g].handle == s.insts[g].handle)
    && (Held(r, g) && Booked(r, g) ==> Held(s, g) && Booked(s, g))
  }

  lemma OpDebt(s: State, op: nat, e: OpEvent, g: nat)
    requires OpEnabled(s, op, e)
    ensures NoNewDebt(s, OpApply(s, op, e), g)
  {}

  /** What is known of the operation and of the instance. */
  predicate DebtFacts(s: State, op: nat, g: nat) {
    op in s.threads && ThreadOk(s, op) && (g < |s.insts| ==> InstOk(s, g))
  }

  lemma AddDebt(s: State, op: nat, e: AddEvent, g: nat)
    requires DebtFacts(s, op, g) && AddEnabled(s, op, e)
    ensures NoNewDebt(s, AddApply(s, op, e), g)
  {
    if e.BuildPin? {
      BuildPinDebt(s, op, e.noPing, e.a, g);
    } else if Calling(e) {
      CallingDebt(s, op, e, g);
    } else if e.BuildReference? || e.BuildInterfaces? {
      ReferenceDebt(s, op, e, g);
    } else {
      BuiltDebt(s, op, e, g);
    }
  }

  lemma CallingDebt(s: State, op: nat, e: AddEvent, g: nat)
    requires DebtFacts(s, op, g) && AddEnabled(s, op, e) && Calling(e)
    ensures NoNewDebt(s, AddApply(s, op, e), g)
  {}

  lemma ReferenceDebt(s: State, op: nat, e: AddEvent, g: nat)
    requires DebtFacts(s, op, g) && AddEnabled(s, op, e) && (e.BuildReference? || e.BuildInterfaces?)
    ensures NoNewDebt(s, AddApply(s, op, e), g)
  {}

  lemma BuiltDebt(s: State, op: nat, e: AddEvent, g: nat)
    requires DebtFacts(s, op, g) && AddEnabled(s, op, e) && (e.BuildFailed? || e.RegisterReady?)
    ensures NoNewDebt(s, AddApply(s, op, e), g)
  {}

  lemma BuildPinDebt(s: State, op: nat, noPing: bool, a: Attempt, g: nat)
    requires DebtFacts(s, op, g) && AddEnabled(s, op, BuildPin(noPing, a))
    ensures NoNewDebt(s, PinStep(s, op, s.threads[op].g, noPing, a), g)
  {
    var r := PinStep(s, op, s.threads[op].g, noPing, a);
    assert r.live == s.live && r.table == s.table && |r.insts| == |s.insts|;
  }

  lemma RemoveDebt(s: State, op: nat, e: RemoveEvent, g: nat)
    requires DebtFacts(s, op, g) && RemoveEnabled(s, op, e) && !e.DisposeBook?
    ensures NoNewDebt(s, RemoveApply(s, op, e), g)
  {}

  lemma CloseDebt(s: State, e: CloseEvent, g: nat)
    requires CloseEnabled(s, e)
    ensures NoNewDebt(s, CloseApply(s, e), g)
  {}

  lemma ServerDebt(s: State, e: ServerEvent, g: nat)
    requires ServerEnabled(s, e)
    ensures NoNewDebt(s, ServerApply(s, e), g)
  {}

  lemma StepDebt(s: State, e: Event, g: nat)
    requires Inv(s) && Enabled(s, e) && !(e.Remove? && e.r.DisposeBook?)
    ensures NoNewDebt(s, Apply(s, e), g)
  {
    if g < |s.insts| {
      assert InstOk(s, g);
    }
    match e
    case Op(op, o) => OpDebt(s, op, o, g);
    case Add(op, a) =>
      assert ThreadOk(s, op);
      AddDebt(s, op, a, g);
    case Remove(op, r) =>
      assert ThreadOk(s, op);
      RemoveDebt(s, op, r, g);
    case Server(v) => ServerDebt(s, v, g);
    case Close(c) => CloseDebt(s, c, g);
  }

  lemma BookDebt(s: State, op: nat, g: nat)
    requires Inv(s) && RemoveEnabled(s, op, DisposeBook)
    ensures var r := RemoveApply(s, op, DisposeBook);
            && r.insts == s.insts && r.live == s.live
            && (Booked(r, g) <==> Booked(s, g) || g == s.threads[op].g)
            && (s.threads[op].stage.removed ==> !Held(s, s.threads[op].g))
  {
    assert ThreadOk(s, op);
    assert InstOk(s, s.threads[op].g);
    if g < |s.insts| {
      assert InstOk(s, g);
    }
  }

  lemma TrackedBook(s: State, op: nat)
    requires Inv(s) && RemoveEnabled(s, op, DisposeBook) && Tracked(s)
    ensures Tracked(RemoveApply(s, op, DisposeBook)) <==> !StaleErase(s, Remove(op, DisposeBook))
  {
    var r := RemoveApply(s, op, DisposeBook);
    var d := s.threads[op].g;
    forall g: nat
      ensures Booked(r, g) <==> Booked(s, g) || g == d
      ensures Held(r, g) <==> Held(s, g)
      ensures s.threads[op].stage.removed ==> !Held(s, d)
    {
      BookDebt(s, op, g);
    }
    TrackedBooked(s, r, op, d);
  }

  lemma TrackedBooked(s: State, r: State, op: nat, d: nat)
    requires Tracked(s) && RemoveEnabled(s, op, DisposeBook) && d == s.threads[op].g
    requires forall g: nat :: (Booked(r, g) <==> Booked(s, g) || g == d) && (Held(r, g) <==> Held(s, g))
    requires r.insts == s.insts && (s.threads[op].stage.removed ==> !Held(s, d))
    requires r.table == Book(s.table, s.insts[d].handle, s.threads[op].stage.removed)
    ensures Tracked(r) <==> !StaleErase(s, Remove(op, DisposeBook))
  {
    if s.threads[op].stage.removed {
      if k: nat :| Held(s, k) && Booked(s, k) && s.insts[k].handle == s.insts[d].handle {
        assert Held(r, k) && Booked(r, k) && r.insts[k].handle !in r.table.pending;
      }
    }
  }

  lemma TrackedOther(s: State, r: State, e: Event)
    requires Inv(s) && Enabled(s, e) && r == Apply(s, e) && Tracked(s) && !(e.Remove? && e.r.DisposeBook?)
    ensures Tracked(r)
  {
    forall g: nat
      ensures NoNewDebt(s, r, g)
    {
      StepDebt(s, e, g);
    }
    NewInstanceHasCreator(s, e);
    TrackedKept(s, r);
  }

  /** One step keeps the pending table complete exactly when it is not a stale erase. */
  lemma TrackedStep(s: State, e: Event)
    requires Inv(s) && Enabled(s, e) && Tracked(s)
    ensures Tracked(Apply(s, e)) <==> !StaleErase(s, e)
  {
    if e.Remove? && e.r.DisposeBook? {
      TrackedBook(s, e.op);
    } else {
      TrackedOther(s, Apply(s, e), e);
    }
  }

  lemma TrackedKept(s: State, r: State)
    requires Tracked(s) && |s.insts| <= |r.insts| && forall g: nat :: NoNewDebt(s, r, g)
    ensures Tracked(r)
  {
    forall g: nat | Held(r, g) && Booked(r, g)
      ensures r.insts[g].handle in r.table.pending
    {
      assert NoNewDebt(s, r, g);
    }
  }

  /** The pending table of a run is complete in every state exactly when the run has no stale
      erase: the book-keeping loses a group only by booking a late success over it. */
  lemma {:induction false} TrackedIffNoStaleErase(ss: seq<State>, es: seq<Event>)
    requires IsRun(ss, es)
    ensures (forall i :: 0 <= i < |ss| ==> Tracked(ss[i])) <==>
              (forall i :: 0 <= i < |es| ==> !StaleErase(ss[i], es[i]))
  {
    if forall i :: 0 <= i < |ss| ==> Tracked(ss[i]) {
      forall i | 0 <= i < |es|
        ensures !StaleErase(ss[i], es[i])
      {
        RunInv(ss, es, i);
        TrackedStep(ss[i], es[i]);
        assert Tracked(ss[i + 1]);
      }
    }
    if forall i :: 0 <= i < |es| ==> !StaleErase(ss[i], es[i]) {
      forall i | 0 <= i < |ss|
        ensures Tracked(ss[i])
      {
        TrackedUpTo(ss, es, i);
      }
    }
  }

  lemma {:induction false} TrackedUpTo(ss: seq<State>, es: seq<Event>, i: nat)
    requires IsRun(ss, es) && i < |ss| && forall k :: 0 <= k < i ==> !StaleErase(ss[k], es[k])
    ensures Tracked(ss[i])
  {
    if i > 0 {
      TrackedUpTo(ss, es, i - 1);
      RunInv(ss, es, i - 1);
      TrackedStep(ss[i - 1], es[i - 1]);
    }
  }

  // ---- a sufficient condition on the server ----

  predicate AwaitsBooking(t: Thread) {
    t.Disposing? && (t.stage.Awaiting? || t.stage.Booking?)
  }

  /** The server gives a new group a handle whose removal is dispatched and not yet booked. */
  ghost predicate EarlyReuse(s: State, e: Event) {
    && e.Add? && e.a.ServerCreate? && AddEnabled(s, e.op, e.a)
    && exists o :: o in s.threads && AwaitsBooking(s.threads[o]) && s.threads[o].g < |s.insts| &&
                   s.insts[s.threads[o].g].handle == e.a.handle
  }

  predicate QuietAt(s: State, o: nat)
    requires o in s.threads
  {
    AwaitsBooking(s.threads[o]) && s.threads[o].g < |s.insts| && s.insts[s.threads[o].g].request.Executed? ==>
      var h := s.insts[s.threads[o].g].handle;
      h in s.live ==> s.live[h].Unknown?
  }

  /** No tracked group has the handle of a removal that is executed and not yet booked. */
  ghost predicate Quiet(s: State) {
    forall o :: o in s.threads ==> QuietAt(s, o)
  }

  /** Operation o awaits booking only if it did before, for the same removal, and nobody took the
      handle meanwhile. */
  predicate QuietChange(s: State, r: State, o: nat) {
    o in r.threads && AwaitsBooking(r.threads[o]) ==>
      && o in s.threads && AwaitsBooking(s.threads[o]) && r.threads[o].g == s.threads[o].g < |s.insts| <= |r.insts|
      && var i, q := s.insts[s.threads[o].g], r.insts[s.threads[o].g];
         && q.request == i.request && q.handle == i.handle
         && (i.handle in r.live && !r.live[i.handle].Unknown? ==> i.handle in s.live && !s.live[i.handle].Unknown?)
  }

  lemma QuietKept(s: State, r: State)
    requires Quiet(s) && forall o :: o in r.threads ==> QuietChange(s, r, o)
    ensures Quiet(r)
  {
    forall o | o in r.threads
      ensures QuietAt(r, o)
    {
      assert QuietChange(s, r, o);
      if AwaitsBooking(r.threads[o]) {
        assert QuietAt(s, o);
      }
    }
  }

  predicate KnownThread(s: State, o: nat) {
    o in s.threads ==> ThreadOk(s, o)
  }

  lemma CallingQuiet(s: State, op: nat, e: AddEvent, o: nat)
    requires AddEnabled(s, op, e) && Calling(e) && !EarlyReuse(s, Add(op, e)) && KnownThread(s, op) && KnownThread(s, o)
    ensures QuietChange(s, AddApply(s, op, e), o)
  {}

  lemma ReferenceQuiet(s: State, op: nat, e: AddEvent, o: nat)
    requires AddEnabled(s, op, e) && (e.BuildReference? || e.BuildInterfaces?) && KnownThread(s, o)
    ensures QuietChange(s, AddApply(s, op, e), o)
  {}

  lemma BuildFailedQuiet(s: State, op: nat, o: nat)
    requires AddEnabled(s, op, BuildFailed) && KnownThread(s, o)
    ensures QuietChange(s, AddApply(s, op, BuildFailed), o)
  {}

  lemma RegisterQuiet(s: State, op: nat, o: nat)
    requires AddEnabled(s, op, RegisterReady) && KnownThread(s, o)
    ensures QuietChange(s, AddApply(s, op, RegisterReady), o)
  {}

  lemma PinQuiet(s: State, op: nat, g: nat, noPing: bool, a: Attempt, o: nat)
    requires g < |s.insts| && KnownThread(s, o)
    ensures QuietChange(s, PinStep(s, op, g, noPing, a), o)
  {}

  lemma AddQuiet(s: State, op: nat, e: AddEvent, o: nat)
    requires AddEnabled(s, op, e) && !EarlyReuse(s, Add(op, e)) && KnownThread(s, op) && KnownThread(s, o)
    ensures QuietChange(s, AddApply(s, op, e), o)
  {
    match e
    case BuildReference(_) => ReferenceQuiet(s, op, e, o);
    case BuildInterfaces(_) => ReferenceQuiet(s, op, e, o);
    case BuildPin(noPing, a) => PinQuiet(s, op, s.threads[op].g, noPing, a, o);
    case BuildFailed => BuildFailedQuiet(s, op, o);
    case RegisterReady => RegisterQuiet(s, op, o);
    case _ => CallingQuiet(s, op, e, o);
  }

  lemma OpQuiet(s: State, op: nat, e: OpEvent, o: nat)
    requires OpEnabled(s, op, e) && KnownThread(s, o)
    ensures QuietChange(s, OpApply(s, op, e), o)
  {}

  lemma CloseQuiet(s: State, e: CloseEvent, o: nat)
    requires CloseEnabled(s, e) && KnownThread(s, o)
    ensures QuietChange(s, CloseApply(s, e), o)
  {}

  lemma QuietAdd(s: State, op: nat, e: AddEvent)
    requires ThreadsOk(s) && Quiet(s) && AddEnabled(s, op, e) && !EarlyReuse(s, Add(op, e))
    ensures Quiet(AddApply(s, op, e))
  {
    forall o { AddQuiet(s, op, e, o); }
    QuietKept(s, AddApply(s, op, e));
  }

  lemma QuietOp(s: State, op: nat, e: OpEvent)
    requires ThreadsOk(s) && Quiet(s) && OpEnabled(s, op, e)
    ensures Quiet(OpApply(s, op, e))
  {
    forall o { OpQuiet(s, op, e, o); }
    QuietKept(s, OpApply(s, op, e));
  }

  lemma QuietClose(s: State, e: CloseEvent)
    requires ThreadsOk(s) && Quiet(s) && CloseEnabled(s, e)
    ensures Quiet(CloseApply(s, e))
  {
    forall o { CloseQuiet(s, e, o); }
    QuietKept(s, CloseApply(s, e));
  }

  lemma QuietRemove(s: State, op: nat, e: RemoveEvent)
    requires Inv(s) && Quiet(s) && RemoveEnabled(s, op, e)
    ensures Quiet(RemoveApply(s, op, e))
  {
    var r := RemoveApply(s, op, e);
    assert ThreadOk(s, op) && QuietAt(s, op);
    forall o | o in r.threads
      ensures QuietAt(r, o)
    {
      assert o in s.threads && QuietAt(s, o) && ThreadOk(s, o);
    }
  }

  lemma QuietServer(s: State, e: ServerEvent)
    requires Inv(s) && Quiet(s) && ServerEnabled(s, e)
    ensures Quiet(ServerApply(s, e))
  {
    var r := ServerApply(s, e);
    forall o | o in r.threads
      ensures QuietAt(r, o)
    {
      assert QuietAt(s, o) && ThreadOk(s, o);
      if e.ServerRemove? {
        assert r.live == s.live - {s.insts[e.g].handle};
      }
    }
  }

  lemma QuietExcludesStaleErase(s: State, e: Event)
    requires Inv(s) && Quiet(s)
    ensures !StaleErase(s, e)
  {
    if e.Remove? && e.op in s.threads {
      assert QuietAt(s, e.op) && ThreadOk(s, e.op);
    }
  }

  /** If the server never reuses a handle between the dispatch of its removal and the booking
      of that removal's outcome, the pending table is complete in every state. */
  lemma {:induction false} TrackedWithoutEarlyReuse(ss: seq<State>, es: seq<Event>, i: nat)
    requires IsRun(ss, es) && i < |ss|
    requires forall k :: 0 <= k < |es| ==> !EarlyReuse(ss[k], es[k])
    ensures Quiet(ss[i]) && Tracked(ss[i])
  {
    if i > 0 {
      var s, e := ss[i - 1], es[i - 1];
      TrackedWithoutEarlyReuse(ss, es, i - 1);
      RunInv(ss, es, i - 1);
      match e {
        case Op(op, o) => QuietOp(s, op, o);
        case Add(op, a) => QuietAdd(s, op, a);
        case Remove(op, r) => QuietRemove(s, op, r);
        case Server(v) => QuietServer(s, v);
        case Close(c) => QuietClose(s, c);
      }
      QuietExcludesStaleErase(s, e);
      TrackedStep(s, e);
    }
  }

  /** A condition the client can meet by itself: it creates no group while the outcome of a
      removal is still to be booked. */
  lemma TrackedWhenSerial(ss: seq<State>, es: seq<Event>, i: nat)
    requires IsRun(ss, es) && i < |ss|
    requires forall k :: 0 <= k < |es| && es[k].Add? && es[k].a.ServerCreate? ==>
               forall o :: o in ss[k].threads ==> !AwaitsBooking(ss[k].threads[o])
    ensures Tracked(ss[i])
  {
    TrackedWithoutEarlyReuse(ss, es, i);
  }

  // ---- what teardown sends ----

  /** A removal that teardown puts on the wire for a handle. */
  predicate TeardownSends(s: State, e: Event, handle: nat) {
    || (e.Close? && e.c == ReplaySend(handle))
    || (e.Remove? && e.r.DisposeRemove? && RemoveEnabled(s, e.op, e.r) && TeardownOf(s.threads[e.op]) &&
        s.insts[s.threads[e.op].g].handle == handle)
  }

  predicate PastSnapshot(c: Closer) {
    c.Replaying? || c.RemovingGroups? || c.ReleasingServer?
  }

  /** From the snapshot on, a handle is on the replay list, or replayed, only if no group that
      teardown has yet to remove has it. */
  ghost predicate Disjoint(s: State) {
    PastSnapshot(s.closer) ==>
      forall g :: 0 <= g < |s.insts| && s.insts[g].request.Unsent? ==>
        && s.insts[g].handle !in s.replays
        && (s.closer.Replaying? ==> s.insts[g].handle !in s.closer.pend)
  }

  lemma UnsentIsActive(s: State, g: nat)
    requires Inv(s) && s.closer.Drained? && g < |s.insts| && s.insts[g].request.Unsent?
    ensures s.insts[g].handle in ActiveHandles(s.table, HandleOf(s))
  {
    assert InstOk(s, g);
    var op := if s.insts[g].phase.Building? || s.insts[g].phase.Disposal? then s.insts[g].phase.op else 0;
    if op in s.threads {
      assert ThreadOk(s, op);
      assert op !in AdmittedOps(s);
    }
  }

  lemma DisjointKept(s: State, r: State)
    requires Disjoint(s) && PastSnapshot(s.closer) && |r.insts| == |s.insts|
    requires forall g :: 0 <= g < |s.insts| ==>
               && r.insts[g].handle == s.insts[g].handle
               && (r.insts[g].request.Unsent? ==> s.insts[g].request.Unsent?)
    requires forall h :: h in r.replays ==> h in s.replays || (s.closer.Replaying? && h in s.closer.pend)
    requires r.closer.Replaying? ==> s.closer.Replaying? && r.closer.pend <= s.closer.pend
    ensures Disjoint(r)
  {}

  lemma ReplaysFrame(s: State, e: Event)
    requires Enabled(s, e) && !e.Close?
    ensures var r := Apply(s, e);
            && r.closer == s.closer
            && r.replays.Keys == s.replays.Keys
  {
    CloserLasts(s, e);
    match e
    case Op(op, o) => assert OpApply(s, op, o).replays == s.replays;
    case Add(op, a) => AddReplays(s, op, a);
    case Remove(op, v) => RemoveReplays(s, op, v);
    case Server(v) => assert ServerApply(s, v).replays.Keys == s.replays.Keys;
  }

  lemma AddReplays(s: State, op: nat, e: AddEvent)
    requires AddEnabled(s, op, e)
    ensures AddApply(s, op, e).replays == s.replays
  {}

  lemma RemoveReplays(s: State, op: nat, e: RemoveEvent)
    requires RemoveEnabled(s, op, e)
    ensures RemoveApply(s, op, e).replays == s.replays
  {}

  lemma DisjointStep(s: State, e: Event)
    requires Inv(s) && Enabled(s, e) && Disjoint(s)
    ensures Disjoint(Apply(s, e))
  {
    var r := Apply(s, e);
    if e.Close? {
      DisjointClose(s, e.c);
    } else {
      ReplaysFrame(s, e);
      if PastSnapshot(s.closer) {
        PastDrainLasts(s, e);
        forall g | 0 <= g < |s.insts|
          ensures Lasts(s, r, g)
        {
          StepLasts(s, e, g);
        }
        DisjointLasts(s, r);
      }
    }
  }

  lemma DisjointLasts(s: State, r: State)
    requires Disjoint(s) && PastSnapshot(s.closer) && |r.insts| == |s.insts|
    requires forall g :: 0 <= g < |s.insts| ==> Lasts(s, r, g)
    requires r.closer == s.closer && r.replays.Keys == s.replays.Keys
    ensures Disjoint(r)
  {
    forall g | 0 <= g < |r.insts| && r.insts[g].request.Unsent?
      ensures s.insts[g].request.Unsent? && r.insts[g].handle == s.insts[g].handle
    {
      assert Lasts(s, r, g);
    }
  }

  lemma DisjointClose(s: State, c: CloseEvent)
    requires Inv(s) && CloseEnabled(s, c) && Disjoint(s)
    ensures Disjoint(CloseApply(s, c))
  {
    if c.CloseSnapshot? {
      forall g | 0 <= g < |s.insts| && s.insts[g].request.Unsent?
        ensures s.insts[g].handle in ActiveHandles(s.table, HandleOf(s))
      {
        UnsentIsActive(s, g);
      }
    } else if PastSnapshot(s.closer) {
      DisjointKept(s, CloseApply(s, c));
    }
  }

  lemma {:induction false} RunDisjoint(ss: seq<State>, es: seq<Event>, i: nat)
    requires IsRun(ss, es) && i < |ss|
    ensures Disjoint(ss[i])
  {
    if i > 0 {
      RunDisjoint(ss, es, i - 1);
      RunInv(ss, es, i - 1);
      DisjointStep(ss[i - 1], es[i - 1]);
    }
  }

  /** Teardown never replays the removal of a handle that a registered group owns. */
  lemma NeverReplaysOwnedHandle(ss: seq<State>, es: seq<Event>, i: nat, h: nat, id: nat)
    requires IsRun(ss, es) && i < |es| && es[i] == Close(ReplaySend(h)) && id in ss[i].table.groups
    ensures ss[i].table.groups[id] < |ss[i].insts| && ss[i].insts[ss[i].table.groups[id]].handle != h
  {
    RunInv(ss, es, i);
    RunDisjoint(ss, es, i);
    assert InstOk(ss[i], ss[i].table.groups[id]);
  }

  // ---- at most once for each handle ----

  function Rank(c: Closer): nat {
    match c
    case Idle => 0
    case Draining => 1
    case TimedOut => 2
    case Drained => 3
    case Replaying(_, _) => 4
    case RemovingGroups(_, _) => 5
    case ReleasingServer => 6
    case StoppingPing => 7
    case ClosingTransport => 8
    case TransportClosed => 9
  }

  lemma TeardownAdvances(s: State, e: Event)
    requires Enabled(s, e)
    ensures Advanced(s, Apply(s, e))
  {
    if e.Close? {
      CloserAdvances(s, e.c);
    } else {
      ReplaysFrame(s, e);
    }
  }

  lemma CloserAdvances(s: State, c: CloseEvent)
    requires CloseEnabled(s, c)
    ensures Advanced(s, CloseApply(s, c))
  {}

  /** Teardown only goes forward, and what was replayed stays so. */
  predicate Advanced(s: State, r: State) {
    Rank(s.closer) <= Rank(r.closer) && s.replays.Keys <= r.replays.Keys
  }

  lemma AdvancesAt(ss: seq<State>, es: seq<Event>, k: nat)
    requires IsRun(ss, es) && k < |es|
    ensures Advanced(ss[k], ss[k + 1])
  {
    TeardownAdvances(ss[k], es[k]);
  }

  lemma AdvancesAlong(ss: seq<State>, i: nat, j: nat)
    requires i <= j < |ss| && forall k :: i <= k < j ==> Advanced(ss[k], ss[k + 1])
    ensures Advanced(ss[i], ss[j])
  {
    Runs.Lasts(ss, (s: State) => Advanced(ss[i], s), i, j);
  }

  lemma RunAdvances(ss: seq<State>, es: seq<Event>, i: nat, j: nat)
    requires IsRun(ss, es) && i <= j < |ss|
    ensures Advanced(ss[i], ss[j])
  {
    forall k | i <= k < j
      ensures Advanced(ss[k], ss[k + 1])
    {
      AdvancesAt(ss, es, k);
    }
    AdvancesAlong(ss, i, j);
  }

  /** A removal sent for a group during teardown: the group is unsent and held until then, and
      its handle is not replayed. */
  lemma SendsHeld(s: State, e: Event)
    requires Inv(s) && Disjoint(s) && e.Remove? && e.r.DisposeRemove? && RemoveEnabled(s, e.op, e.r)
    requires TeardownOf(s.threads[e.op])
    ensures s.closer.RemovingGroups? && s.insts[s.threads[e.op].g].request.Unsent?
  {
    assert ThreadOk(s, e.op);
  }

  lemma UnsentShareNoHandle(s: State, g: nat, k: nat)
    requires Inv(s) && Disjoint(s) && PastSnapshot(s.closer) && g < |s.insts| && k < |s.insts|
    requires s.insts[g].request.Unsent? && s.insts[k].request.Unsent? && s.insts[g].handle == s.insts[k].handle
    ensures g == k
  {
    assert Held(s, g) && Held(s, k);
  }

  /** A replay is followed by no other removal of its handle. */
  lemma NothingAfterReplay(ss: seq<State>, es: seq<Event>, a: nat, b: nat, h: nat)
    requires IsRun(ss, es) && a < b < |es| && es[a] == Close(ReplaySend(h))
    ensures !TeardownSends(ss[b], es[b], h)
  {
    RunInv(ss, es, b);
    RunDisjoint(ss, es, b);
    assert Enabled(ss[a], es[a]) && ss[a + 1] == Apply(ss[a], es[a]) && Enabled(ss[b], es[b]);
    RunAdvances(ss, es, a + 1, b);
    assert h in ss[b].replays;
    if es[b].Remove? && TeardownSends(ss[b], es[b], h) {
      SendsHeld(ss[b], es[b]);
    }
  }

  /** The removal of a group is followed by no removal of another group with its handle. */
  lemma NothingAfterRemoval(ss: seq<State>, es: seq<Event>, a: nat, b: nat, h: nat)
    requires IsRun(ss, es) && a < b < |es| && es[a].Remove? && es[b].Remove?
    requires TeardownSends(ss[a], es[a], h)
    ensures !TeardownSends(ss[b], es[b], h)
  {
    RunInv(ss, es, a);
    RunInv(ss, es, b);
    RunDisjoint(ss, es, a);
    RunDisjoint(ss, es, b);
    SendsHeld(ss[a], es[a]);
    PastDrainRun(ss, es, a, b);
    if TeardownSends(ss[b], es[b], h) {
      var g, k := ss[a].threads[es[a].op].g, ss[b].threads[es[b].op].g;
      SendsHeld(ss[b], es[b]);
      RemovedOnce(ss, es, a, b, g);
      RunLasts(ss, es, a, b, k);
      UnsentShareNoHandle(ss[a], g, k);
    }
  }

  /** The removal of a group is followed by no replay. */
  lemma NoReplayAfterRemoval(ss: seq<State>, es: seq<Event>, a: nat, b: nat, h: nat)
    requires IsRun(ss, es) && a < b < |es| && es[a].Remove? && es[b].Close?
    requires TeardownSends(ss[a], es[a], h)
    ensures !TeardownSends(ss[b], es[b], h)
  {
    RunInv(ss, es, a);
    RunDisjoint(ss, es, a);
    RunAdvances(ss, es, a, b);
    SendsHeld(ss[a], es[a]);
    assert Enabled(ss[b], es[b]);
  }

  /** Teardown sends RemoveGroup at most once for each remote handle. */
  lemma OneRemovalPerHandle(ss: seq<State>, es: seq<Event>, a: nat, b: nat, h: nat)
    requires IsRun(ss, es) && a < b < |es|
    ensures !(TeardownSends(ss[a], es[a], h) && TeardownSends(ss[b], es[b], h))
  {
    if TeardownSends(ss[a], es[a], h) {
      if es[a].Close? {
        NothingAfterReplay(ss, es, a, b, h);
      } else if es[b].Remove? {
        NothingAfterRemoval(ss, es, a, b, h);
      } else if es[b].Close? {
        NoReplayAfterRemoval(ss, es, a, b, h);
      }
    }
  }

  // ---- nothing is left out ----

  /** The context of teardown ends while it waits for the gate of a group. */
  predicate TeardownGivesUp(s: State, e: Event) {
    || (e.Op? && e.o.GiveUp? && e.op in s.threads && TeardownOf(s.threads[e.op]))
    || (e.Remove? && e.r.RemoveAcquire? && e.r.cancelled && e.op in s.threads && TeardownOf(s.threads[e.op]))
  }

  predicate Listed(s: State, id: nat, g: nat) {
    && id in s.table.groups && s.table.groups[id] == g
    && ((s.closer.Replaying? && id in s.closer.ids) || (s.closer.RemovingGroups? && id in s.closer.ids))
  }

  predicate OnJob(s: State, id: nat, g: nat) {
    && s.closer.RemovingGroups? && s.closer.current.Some? && s.closer.current.value in s.threads
    && var t := s.threads[s.closer.current.value];
       && TeardownOf(t)
       && match t
          case RemoveLookup(x, _) => x == id && id in s.table.groups && s.table.groups[id] == g
          case RemoveWaiting(x, y, _) => x == id && y == g && id in s.table.groups && s.table.groups[id] == g
          case RemoveOwning(x, y, _) => x == id && y == g && id in s.table.groups && s.table.groups[id] == g
          case Disposing(y, _, _) => y == g
          case _ => false
  }

  /** Teardown has removed the group, is removing it, or has it on its list. */
  predicate Covered(s: State, id: nat, g: nat) {
    g < |s.insts| && (s.insts[g].phase.Disposed? || Listed(s, id, g) || OnJob(s, id, g))
  }

  /** After the drain an operation outside teardown does not change the group table, and only
      the current worker belongs to teardown. */
  lemma OutsidersKeepGroups(s: State, e: Event)
    requires Inv(s) && Enabled(s, e) && PastDrain(s.closer)
    requires !e.Close? && !(e.Remove? && TeardownOf(s.threads[e.op]))
    ensures Apply(s, e).table.groups == s.table.groups
  {
    match e
    case Op(op, o) => OpIds(s, op, o);
    case Add(op, a) => AddIds(s, op, a);
      AdmittedCounts(s, op);
    case Remove(op, r) =>
      RemoveIds(s, op, r);
      if r.RemoveUnregister? {
        assert ThreadOk(s, op);
        AdmittedCounts(s, op);
      }
    case Server(v) => assert ServerApply(s, v).table == s.table;
  }

  predicate ActsFor(e: Event, o: nat) {
    match e
    case Op(op, _) => op == o
    case Add(op, _) => op == o
    case Remove(op, _) => op == o
    case _ => false
  }

  lemma AddKeepsThreads(s: State, op: nat, e: AddEvent, o: nat)
    requires AddEnabled(s, op, e) && o in s.threads && o != op
    ensures o in AddApply(s, op, e).threads && AddApply(s, op, e).threads[o] == s.threads[o]
  {
    AddMovesOne(s, op, e);
  }

  lemma RemoveKeepsThreads(s: State, op: nat, e: RemoveEvent, o: nat)
    requires RemoveEnabled(s, op, e) && o in s.threads && o != op
    ensures o in RemoveApply(s, op, e).threads && RemoveApply(s, op, e).threads[o] == s.threads[o]
  {}

  lemma OthersKeepThreads(s: State, e: Event, o: nat)
    requires Enabled(s, e) && !e.Close? && o in s.threads && !ActsFor(e, o)
    ensures o in Apply(s, e).threads && Apply(s, e).threads[o] == s.threads[o]
  {
    match e
    case Op(op, v) => assert OpApply(s, op, v).threads[o] == s.threads[o];
    case Add(op, a) => AddKeepsThreads(s, op, a, o);
    case Remove(op, r) => RemoveKeepsThreads(s, op, r, o);
    case Server(v) => assert ServerApply(s, v).threads == s.threads;
  }

  /** What is known of the worker and of the group. */
  predicate WorkerFacts(s: State, op: nat, g: nat) {
    op in s.threads && ThreadOk(s, op) && g < |s.insts| && InstOk(s, g)
  }

  /** The worker itself moves the group towards disposal. */
  lemma RemoverCovers(s: State, op: nat, e: RemoveEvent, id: nat, g: nat)
    requires TableOk(s) && WorkerFacts(s, op, g) && RemoveEnabled(s, op, e) && OnJob(s, id, g)
    requires s.closer.current.value == op
    requires !TeardownGivesUp(s, Remove(op, e))
    requires e.RemoveFind? || e.RemoveAcquire? || e.RemoveUnregister?
    ensures Covered(RemoveApply(s, op, e), id, g)
  {}

  lemma DisposerCovers(s: State, op: nat, e: RemoveEvent, id: nat, g: nat)
    requires WorkerFacts(s, op, g) && RemoveEnabled(s, op, e) && OnJob(s, id, g) && s.closer.current.value == op
    requires !TeardownGivesUp(s, Remove(op, e))
    requires !e.RemoveFind? && !e.RemoveAcquire? && !e.RemoveUnregister?
    ensures Covered(RemoveApply(s, op, e), id, g)
  {}

  lemma WorkerCovers(s: State, op: nat, e: RemoveEvent, id: nat, g: nat)
    requires TableOk(s) && WorkerFacts(s, op, g) && RemoveEnabled(s, op, e) && OnJob(s, id, g)
    requires s.closer.current.value == op
    requires !TeardownGivesUp(s, Remove(op, e))
    ensures Covered(RemoveApply(s, op, e), id, g)
  {
    if e.RemoveFind? || e.RemoveAcquire? || e.RemoveUnregister? {
      RemoverCovers(s, op, e, id, g);
    } else {
      DisposerCovers(s, op, e, id, g);
    }
  }

  lemma CloseCovers(s: State, c: CloseEvent, id: nat, g: nat)
    requires CloseEnabled(s, c) && Covered(s, id, g)
    requires PastSnapshot(s.closer) && PastSnapshot(CloseApply(s, c).closer)
    ensures Covered(CloseApply(s, c), id, g)
  {}

  /** The worker leaves the groups on the list alone. */
  lemma WorkerOther(s: State, op: nat, e: RemoveEvent, id: nat, g: nat)
    requires TableOk(s) && WorkerFacts(s, op, g) && RemoveEnabled(s, op, e) && Listed(s, id, g)
    requires TeardownOf(s.threads[op]) && s.closer.RemovingGroups? && s.closer.current == Some(op)
    ensures Covered(RemoveApply(s, op, e), id, g)
  {
    if e.RemoveUnregister? {
      WorkerUnregisters(s, op, id, g);
    } else {
      RemoveIds(s, op, e);
      RemoveReplays(s, op, e);
    }
  }

  lemma WorkerUnregisters(s: State, op: nat, id: nat, g: nat)
    requires TableOk(s) && WorkerFacts(s, op, g) && RemoveEnabled(s, op, RemoveUnregister) && Listed(s, id, g)
    requires TeardownOf(s.threads[op]) && s.closer.RemovingGroups? && s.closer.current == Some(op)
    ensures Covered(RemoveApply(s, op, RemoveUnregister), id, g)
  {
    if s.threads[op].id == id {
      assert s.insts[s.threads[op].g].id == s.insts[g].id;
      assert g == s.threads[op].g;
    }
  }

  /** What others do leaves the lists and the worker alone. */
  lemma OutsiderCovers(s: State, e: Event, id: nat, g: nat)
    requires Inv(s) && Enabled(s, e) && Covered(s, id, g) && PastSnapshot(s.closer)
    requires !e.Close? && !(e.Remove? && TeardownOf(s.threads[e.op])) && !TeardownGivesUp(s, e)
    ensures Covered(Apply(s, e), id, g)
  {
    StepLasts(s, e, g);
    OutsidersKeepGroups(s, e);
    CloserLasts(s, e);
    if OnJob(s, id, g) {
      assert !ActsFor(e, s.closer.current.value);
      OthersKeepThreads(s, e, s.closer.current.value);
    }
  }

  lemma WorkerStepCovers(s: State, op: nat, e: RemoveEvent, id: nat, g: nat)
    requires Inv(s) && RemoveEnabled(s, op, e) && TeardownOf(s.threads[op]) && Covered(s, id, g)
    requires !TeardownGivesUp(s, Remove(op, e))
    ensures Covered(RemoveApply(s, op, e), id, g)
  {
    StepLasts(s, Remove(op, e), g);
    assert ThreadOk(s, op) && InstOk(s, g);
    if OnJob(s, id, g) {
      WorkerCovers(s, op, e, id, g);
    } else if Listed(s, id, g) {
      WorkerOther(s, op, e, id, g);
    }
  }

  lemma CoveredStep(s: State, e: Event, id: nat, g: nat)
    requires Inv(s) && Enabled(s, e) && Covered(s, id, g) && !TeardownGivesUp(s, e)
    requires PastSnapshot(s.closer) && PastSnapshot(Apply(s, e).closer)
    ensures Covered(Apply(s, e), id, g)
  {
    if e.Close? {
      CloseCovers(s, e.c, id, g);
    } else if e.Remove? && TeardownOf(s.threads[e.op]) {
      WorkerStepCovers(s, e.op, e.r, id, g);
    } else {
      OutsiderCovers(s, e, id, g);
    }
  }

  /** The replay list is worked off. */
  predicate ReplayCovered(s: State, h: nat) {
    h in s.replays || (s.closer.Replaying? && h in s.closer.pend)
  }

  lemma ReplayCoveredStep(s: State, e: Event, h: nat)
    requires Inv(s) && Enabled(s, e) && ReplayCovered(s, h)
    requires PastSnapshot(s.closer) && PastSnapshot(Apply(s, e).closer)
    ensures ReplayCovered(Apply(s, e), h)
  {
    TeardownAdvances(s, e);
    if !e.Close? {
      ReplaysFrame(s, e);
    }
  }

  /** What the snapshot promises: its groups and its replays are on the lists of teardown. */
  predicate Promised(first: State, s: State, id: nat, h: nat) {
    && PastSnapshot(s.closer)
    && (id in Targeted(first).ids ==> Covered(s, id, first.table.groups[id]))
    && (h in Targeted(first).replays ==> ReplayCovered(s, h))
  }

  lemma SnapshotPromises(s: State, id: nat, h: nat)
    requires Inv(s) && CloseEnabled(s, CloseSnapshot)
    ensures Promised(s, CloseApply(s, CloseSnapshot), id, h)
  {}

  lemma PromiseStep(first: State, s: State, e: Event, id: nat, h: nat)
    requires Inv(s) && Enabled(s, e) && Promised(first, s, id, h) && !TeardownGivesUp(s, e)
    requires PastSnapshot(Apply(s, e).closer)
    ensures Promised(first, Apply(s, e), id, h)
  {
    if id in first.table.groups {
      CoveredStep(s, e, id, first.table.groups[id]);
    }
    if h in Targeted(first).replays {
      ReplayCoveredStep(s, e, h);
    }
  }

  /** From the snapshot to the last group teardown stays on its lists. */
  lemma StillListed(ss: seq<State>, es: seq<Event>, i: nat, k: nat, j: nat)
    requires IsRun(ss, es) && i < k <= j < |es| && es[i] == Close(CloseSnapshot) && es[j] == Close(TeardownDone)
    ensures PastSnapshot(ss[k].closer)
  {
    assert Enabled(ss[i], es[i]) && ss[i + 1] == Apply(ss[i], es[i]) && Enabled(ss[j], es[j]);
    RunAdvances(ss, es, i + 1, k);
    RunAdvances(ss, es, k, j);
  }

  lemma PromisedAt(ss: seq<State>, es: seq<Event>, first: State, k: nat, id: nat, h: nat)
    requires IsRun(ss, es) && k < |es| && Promised(first, ss[k], id, h) && !TeardownGivesUp(ss[k], es[k])
    requires PastSnapshot(ss[k + 1].closer)
    ensures Promised(first, ss[k + 1], id, h)
  {
    RunInv(ss, es, k);
    PromiseStep(first, ss[k], es[k], id, h);
  }

  lemma PromisedFirst(ss: seq<State>, es: seq<Event>, i: nat, id: nat, h: nat)
    requires IsRun(ss, es) && i < |es| && es[i] == Close(CloseSnapshot)
    ensures Promised(ss[i], ss[i + 1], id, h)
  {
    RunInv(ss, es, i);
    assert Enabled(ss[i], es[i]) && ss[i + 1] == Apply(ss[i], es[i]);
    SnapshotPromises(ss[i], id, h);
  }

  /** The promise is kept until the last group of teardown is done. */
  lemma SnapshotKept(ss: seq<State>, es: seq<Event>, i: nat, j: nat, id: nat, h: nat)
    requires IsRun(ss, es) && i < j < |es| && es[i] == Close(CloseSnapshot) && es[j] == Close(TeardownDone)
    requires forall m :: i < m < j ==> !TeardownGivesUp(ss[m], es[m])
    ensures Promised(ss[i], ss[j], id, h)
  {
    var first := ss[i];
    PromisedFirst(ss, es, i, id, h);
    forall k | i < k < j && Promised(first, ss[k], id, h)
      ensures Promised(first, ss[k + 1], id, h)
    {
      StillListed(ss, es, i, k + 1, j);
      PromisedAt(ss, es, first, k, id, h);
    }
    Runs.Lasts(ss, (s: State) => Promised(first, s, id, h), i + 1, j);
  }

  /** After the drain a group is registered or its disposal is complete. */
  lemma SettledAtDrain(s: State, g: nat)
    requires Inv(s) && s.closer.Drained? && g < |s.insts|
    ensures s.insts[g].phase.Registered? || s.insts[g].phase.Disposed?
  {
    assert InstOk(s, g);
    var op := if s.insts[g].phase.Building? || s.insts[g].phase.Disposal? then s.insts[g].phase.op else 0;
    if op in s.threads {
      assert ThreadOk(s, op);
      assert op !in AdmittedOps(s);
    }
  }

  /** A teardown that does not time out sends RemoveGroup for every registered group and for
      every pending handle that no registered group owns.  So when the pending table was
      complete, it reaches every group that the server still held at the snapshot. */
  lemma TeardownReachesEverything(ss: seq<State>, es: seq<Event>, i: nat, j: nat, g: nat, id: nat, h: nat)
    requires IsRun(ss, es) && i < j < |es| && es[i] == Close(CloseSnapshot) && es[j] == Close(TeardownDone)
    requires forall m :: i < m < j ==> !TeardownGivesUp(ss[m], es[m])
    ensures id in ss[i].table.groups ==>
              ss[i].table.groups[id] < |ss[j].insts| && ss[j].insts[ss[i].table.groups[id]].phase.Disposed?
    ensures h in Targeted(ss[i]).replays ==> h in ss[j].replays
    ensures Tracked(ss[i]) && Held(ss[i], g) ==>
              RemovalSent(ss[j], g) && (RemovalSent(ss[i], g) ==> ss[i].insts[g].handle in ss[j].replays)
  {
    RunInv(ss, es, i);
    RunInv(ss, es, j);
    assert Enabled(ss[j], es[j]) && Enabled(ss[i], es[i]);
    SnapshotKept(ss, es, i, j, id, h);
    if Tracked(ss[i]) && Held(ss[i], g) {
      HeldIsReached(ss, es, i, j, g);
    }
  }

  lemma RegisteredIsReached(ss: seq<State>, es: seq<Event>, i: nat, j: nat, g: nat)
    requires IsRun(ss, es) && i < j < |es| && es[i] == Close(CloseSnapshot) && es[j] == Close(TeardownDone)
    requires forall m :: i < m < j ==> !TeardownGivesUp(ss[m], es[m])
    requires Held(ss[i], g) && ss[i].insts[g].phase.Registered?
    ensures RemovalSent(ss[j], g) && !RemovalSent(ss[i], g)
  {
    RunInv(ss, es, i);
    RunInv(ss, es, j);
    assert Enabled(ss[j], es[j]);
    assert InstOk(ss[i], g);
    SnapshotKept(ss, es, i, j, ss[i].insts[g].phase.id, 0);
    assert InstOk(ss[j], g);
  }

  lemma HeldIsReached(ss: seq<State>, es: seq<Event>, i: nat, j: nat, g: nat)
    requires IsRun(ss, es) && i < j < |es| && es[i] == Close(CloseSnapshot) && es[j] == Close(TeardownDone)
    requires forall m :: i < m < j ==> !TeardownGivesUp(ss[m], es[m])
    requires Tracked(ss[i]) && Held(ss[i], g)
    ensures RemovalSent(ss[j], g) && (RemovalSent(ss[i], g) ==> ss[i].insts[g].handle in ss[j].replays)
  {
    RunInv(ss, es, i);
    assert Enabled(ss[i], es[i]) && Enabled(ss[j], es[j]);
    SettledAtDrain(ss[i], g);
    if ss[i].insts[g].phase.Registered? {
      RegisteredIsReached(ss, es, i, j, g);
    } else {
      assert InstOk(ss[i], g);
      RunLasts(ss, es, i, j, g);
      HeldIsInactive(ss[i], g);
      SnapshotKept(ss, es, i, j, 0, ss[i].insts[g].handle);
    }
  }

  /** A held group whose disposal is over shares its handle with no registered group. */
  lemma HeldIsInactive(s: State, g: nat)
    requires Inv(s) && Held(s, g) && s.insts[g].phase.Disposed?
    ensures s.insts[g].handle !in ActiveHandles(s.table, HandleOf(s))
  {
    forall id | id in s.table.groups
      ensures s.table.groups[id] < |s.insts| && s.insts[s.table.groups[id]].handle != s.insts[g].handle
    {
      var k := s.table.groups[id];
      assert InstOk(s, k) && InstOk(s, g);
      assert Held(s, k) <==> !ReplayExecuted(s, s.insts[k].handle);
      assert Held(s, g) ==> !ReplayExecuted(s, s.insts[g].handle);
    }
  }
}
