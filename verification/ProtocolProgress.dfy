/** Nobody waits for ever: a gate is held only by an operation that still has to return it, every
    operation can go on, and teardown can go on. */
module ProtocolProgress {
  import opened Wrappers
  import opened SessionTable
  import opened Keepalive
  import opened Protocol
  import opened ProtocolInvariant
  import Runs

  // ---- gates ----

  /** The operation is between acquiring and releasing the gate of group g. */
  predicate HoldsGate(t: Thread, g: nat) {
    match t
    case RemoveOwning(_, k, _) => k == g
    case Disposing(k, _, o) => k == g && !o.Creator?
    case CallHolding(k) => k == g
    case Leaving(k, _) => k == g
    case _ => false
  }

  /** A gate that is held is held by an operation that will release it, and the worker of teardown
      exists. */
  ghost predicate Accounted(s: State) {
    && (forall g :: 0 <= g < |s.insts| ==> GateAccounted(s, g))
    && (s.closer.RemovingGroups? && s.closer.current.Some? ==> s.closer.current.value in s.threads)
  }

  predicate GateAccounted(s: State, g: nat)
    requires g < |s.insts|
  {
    var o := s.insts[g].gate;
    o.Some? ==> o.value in s.threads && HoldsGate(s.threads[o.value], g)
  }

  lemma OpAccounted(s: State, op: nat, e: OpEvent, g: nat)
    requires OpEnabled(s, op, e) && g < |s.insts| && GateAccounted(s, g)
    ensures g < |OpApply(s, op, e).insts| && GateAccounted(OpApply(s, op, e), g)
  {}

  lemma AddAccounted(s: State, op: nat, e: AddEvent, g: nat)
    requires AddEnabled(s, op, e) && g < |s.insts| && GateAccounted(s, g)
    ensures g < |AddApply(s, op, e).insts| && GateAccounted(AddApply(s, op, e), g)
  {
    match e
    case BuildPin(noPing, a) => PinAccounted(s, op, noPing, a, g);
    case BuildInterfaces(found) => InterfacesAccounted(s, op, found, g);
    case RegisterReady => RegisterAccounted(s, op, g);
    case _ =>
  }

  lemma PinAccounted(s: State, op: nat, noPing: bool, a: Attempt, g: nat)
    requires AddEnabled(s, op, BuildPin(noPing, a)) && g < |s.insts| && GateAccounted(s, g)
    ensures var r := AddApply(s, op, BuildPin(noPing, a)); g < |r.insts| && GateAccounted(r, g)
  {}

  lemma InterfacesAccounted(s: State, op: nat, found: nat, g: nat)
    requires AddEnabled(s, op, BuildInterfaces(found)) && g < |s.insts| && GateAccounted(s, g)
    ensures var r := AddApply(s, op, BuildInterfaces(found)); g < |r.insts| && GateAccounted(r, g)
  {}

  lemma RegisterAccounted(s: State, op: nat, g: nat)
    requires AddEnabled(s, op, RegisterReady) && g < |s.insts| && GateAccounted(s, g)
    ensures var r := AddApply(s, op, RegisterReady); g < |r.insts| && GateAccounted(r, g)
  {}

  lemma RemoveAccounted(s: State, op: nat, e: RemoveEvent, g: nat)
    requires RemoveEnabled(s, op, e) && g < |s.insts| && GateAccounted(s, g) && ThreadOk(s, op)
    ensures g < |RemoveApply(s, op, e).insts| && GateAccounted(RemoveApply(s, op, e), g)
  {
    if e.DisposeUnpin? {
      UnpinAccounted(s, op, e.a, g);
    }
  }

  lemma UnpinAccounted(s: State, op: nat, a: Attempt, g: nat)
    requires RemoveEnabled(s, op, DisposeUnpin(a)) && g < |s.insts| && GateAccounted(s, g)
    ensures var r := RemoveApply(s, op, DisposeUnpin(a)); g < |r.insts| && GateAccounted(r, g)
  {}

  lemma ServerAccounted(s: State, e: ServerEvent, g: nat)
    requires ServerEnabled(s, e) && g < |s.insts| && GateAccounted(s, g)
    ensures g < |ServerApply(s, e).insts| && GateAccounted(ServerApply(s, e), g)
  {}

  lemma CloseAccounted(s: State, e: CloseEvent, g: nat)
    requires CloseEnabled(s, e) && g < |s.insts| && GateAccounted(s, g)
    ensures g < |CloseApply(s, e).insts| && GateAccounted(CloseApply(s, e), g)
  {}

  // ---- what the steps of each kind leave alone ----

  lemma OpFrame(s: State, op: nat, e: OpEvent)
    requires OpEnabled(s, op, e)
    ensures var r := OpApply(s, op, e);
            |r.insts| == |s.insts| && r.closer == s.closer && s.threads.Keys <= r.threads.Keys
  {}

  lemma AddFrame(s: State, op: nat, e: AddEvent)
    requires AddEnabled(s, op, e)
    ensures AddApply(s, op, e).closer == s.closer && AddApply(s, op, e).threads.Keys == s.threads.Keys
  {}

  lemma RemoveFrame(s: State, op: nat, e: RemoveEvent)
    requires RemoveEnabled(s, op, e)
    ensures var r := RemoveApply(s, op, e);
            |r.insts| == |s.insts| && r.closer == s.closer && r.threads.Keys == s.threads.Keys
  {}

  lemma ServerFrame(s: State, e: ServerEvent)
    requires ServerEnabled(s, e)
    ensures var r := ServerApply(s, e);
            |r.insts| == |s.insts| && r.closer == s.closer && r.threads == s.threads
  {}

  lemma CloseFrame(s: State, e: CloseEvent)
    requires CloseEnabled(s, e)
    ensures var r := CloseApply(s, e); r.insts == s.insts && s.threads.Keys <= r.threads.Keys
  {}

  /** A new group starts with a free gate. */
  lemma NewGroups(s: State, e: Event, g: nat)
    requires Enabled(s, e) && |s.insts| <= g < |Apply(s, e).insts|
    ensures Apply(s, e).insts[g].gate.None?
  {
    match e
    case Op(op, o) => OpFrame(s, op, o);
    case Add(op, a) => NewGroup(s, op, a, g);
    case Remove(op, r) => RemoveFrame(s, op, r);
    case Server(v) => ServerFrame(s, v);
    case Close(c) => CloseFrame(s, c);
  }

  lemma NewGroup(s: State, op: nat, a: AddEvent, g: nat)
    requires AddEnabled(s, op, a) && |s.insts| <= g < |AddApply(s, op, a).insts|
    ensures AddApply(s, op, a).insts[g].gate.None?
  {}

  lemma StepAccounted(s: State, e: Event, g: nat)
    requires ThreadsOk(s) && Enabled(s, e) && g < |s.insts| && GateAccounted(s, g)
    ensures g < |Apply(s, e).insts| && GateAccounted(Apply(s, e), g)
  {
    match e
    case Op(op, o) => OpAccounted(s, op, o, g);
    case Add(op, a) => AddAccounted(s, op, a, g);
    case Remove(op, r) => RemoveAccounted(s, op, r, g);
    case Server(v) => ServerAccounted(s, v, g);
    case Close(c) => CloseAccounted(s, c, g);
  }

  lemma CloserWorker(s: State, e: CloseEvent)
    requires CloseEnabled(s, e)
    requires s.closer.RemovingGroups? && s.closer.current.Some? ==> s.closer.current.value in s.threads
    ensures var r := CloseApply(s, e);
            r.closer.RemovingGroups? && r.closer.current.Some? ==> r.closer.current.value in r.threads
  {}

  lemma WorkerStays(s: State, e: Event)
    requires Enabled(s, e)
    requires s.closer.RemovingGroups? && s.closer.current.Some? ==> s.closer.current.value in s.threads
    ensures var c := Apply(s, e).closer;
            c.RemovingGroups? && c.current.Some? ==> c.current.value in Apply(s, e).threads
  {
    match e
    case Op(op, o) => OpFrame(s, op, o);
    case Add(op, a) => AddFrame(s, op, a);
    case Remove(op, r) => RemoveFrame(s, op, r);
    case Server(v) => ServerFrame(s, v);
    case Close(c) => CloserWorker(s, c);
  }

  lemma GateStays(s: State, e: Event, g: nat)
    requires Enabled(s, e) && ThreadsOk(s) && g < |Apply(s, e).insts|
    requires g < |s.insts| ==> GateAccounted(s, g)
    ensures GateAccounted(Apply(s, e), g)
  {
    if g < |s.insts| {
      StepAccounted(s, e, g);
    } else {
      NewGroups(s, e, g);
    }
  }

  lemma AccountsKeep(s: State, e: Event, r: State)
    requires ThreadsOk(s) && Accounted(s) && Enabled(s, e) && r == Apply(s, e)
    ensures Accounted(r)
  {
    WorkerStays(s, e);
    forall g | 0 <= g < |r.insts|
      ensures GateAccounted(r, g)
    {
      GateStays(s, e, g);
    }
  }

  /** In every state of every run each held gate has a holder. */
  lemma {:induction false} RunAccounted(ss: seq<State>, es: seq<Event>, i: nat)
    requires IsRun(ss, es) && i < |ss|
    ensures Accounted(ss[i])
  {
    if i > 0 {
      RunAccounted(ss, es, i - 1);
      RunInv(ss, es, i - 1);
      AccountsKeep(ss[i - 1], es[i - 1], ss[i]);
    }
  }

  // ---- no operation is stuck ----

  /** The operation whose own step an event is. */
  predicate OwnEvent(e: Event, op: nat) {
    match e
    case Op(o, _) => o == op
    case Add(o, _) => o == op
    case Remove(o, _) => o == op
    case _ => false
  }

  predicate CanStep(s: State, op: nat, e: Event) {
    OwnEvent(e, op) && Enabled(s, e) && e != Op(op, GiveUp)
  }

  /** The group whose gate an operation waits for. */
  function AwaitedGate(t: Thread): Option<nat> {
    match t
    case RemoveWaiting(_, g, _) => Some(g)
    case CallWaiting(g) => Some(g)
    case _ => None
  }

  /** The operation that comes only to an open session. */
  predicate Knocking(t: Thread) {
    t.AddIdle? || t.RemoveIdle? || t.ItemIdle?
  }

  /** The step of an operation that neither waits nor has finished. */
  function OwnStep(s: State, op: nat): Event
    requires op in s.threads
  {
    match s.threads[op]
    case AddOpening => Add(op, AddDispatch)
    case AddCalling(_) => Add(op, AddFailed)
    case AddBuilding(_) => Add(op, BuildFailed)
    case AddReady(_) => Add(op, RegisterReady)
    case RemoveLookup(_, _) => Remove(op, RemoveFind)
    case RemoveWaiting(_, _, _) => Remove(op, RemoveAcquire(false))
    case RemoveOwning(_, _, _) => Remove(op, RemoveUnregister)
    case Disposing(_, stage, _) =>
      (match stage
       case Releasing => Remove(op, DisposeRelease)
       case Removing => Remove(op, DisposeRemove)
       case Awaiting => Remove(op, DisposeReply(false))
       case Booking(_) => Remove(op, DisposeBook)
       case Unpinning => Remove(op, DisposeUnpin(NoGate)))
    case ItemRunning => Op(op, ItemRpc)
    case CallIdle(_) => Op(op, CallFind)
    case CallWaiting(_) => Op(op, CallAcquire(false))
    case CallHolding(_) => Op(op, CallFinish)
    case Leaving(_, _) => Op(op, GateRelease)
    case Exiting => Op(op, OpDone)
    case _ => Op(op, Admission)
  }

  lemma CanGoOn(s: State, op: nat)
    requires op in s.threads && ThreadOk(s, op) && !s.threads[op].Finished? && AwaitedGate(s.threads[op]).None?
    requires s.threads[op].Exiting? ==> s.table.groupOps > 0
    requires Knocking(s.threads[op]) ==> !s.table.closed
    ensures CanStep(s, op, OwnStep(s, op))
  {}

  lemma CanAcquire(s: State, op: nat)
    requires op in s.threads && ThreadOk(s, op) && AwaitedGate(s.threads[op]).Some?
    ensures var g := AwaitedGate(s.threads[op]).value;
            g < |s.insts| && (s.insts[g].gate.None? ==> CanStep(s, op, OwnStep(s, op)))
  {}

  lemma HolderGoesOn(s: State, g: nat)
    requires Accounted(s) && ThreadsOk(s) && g < |s.insts| && s.insts[g].gate.Some?
    ensures s.insts[g].gate.value in s.threads
    ensures CanStep(s, s.insts[g].gate.value, OwnStep(s, s.insts[g].gate.value))
  {
    assert GateAccounted(s, g);
    CanGoOn(s, s.insts[g].gate.value);
  }

  /** No deadlock.  In every state of every run, an operation that has not finished can take a step
      of its own, unless it has not been admitted and the session is closed, or it waits for a gate;
      and then the gate is free for it or its holder can take a step. */
  lemma NoDeadlock(ss: seq<State>, es: seq<Event>, i: nat, op: nat)
    requires IsRun(ss, es) && i < |ss| && op in ss[i].threads && !ss[i].threads[op].Finished?
    ensures var s := ss[i];
            var w := AwaitedGate(s.threads[op]);
            || (Knocking(s.threads[op]) && s.table.closed)
            || (exists e :: CanStep(s, op, e))
            || (w.Some? && w.value < |s.insts| && s.insts[w.value].gate.Some? &&
                exists e :: CanStep(s, s.insts[w.value].gate.value, e))
  {
    var s := ss[i];
    RunInv(ss, es, i);
    RunAccounted(ss, es, i);
    assert ThreadOk(s, op);
    var w := AwaitedGate(s.threads[op]);
    if w.None? {
      if s.threads[op].Exiting? {
        AdmittedCounts(s, op);
      }
      if !Knocking(s.threads[op]) || !s.table.closed {
        CanGoOn(s, op);
      }
    } else {
      CanAcquire(s, op);
      if s.insts[w.value].gate.Some? {
        HolderGoesOn(s, w.value);
      }
    }
  }

  // ---- every operation runs out of steps ----

  /** A bound on the steps that an operation can still take, RPCs of calls aside. */
  function StepsLeft(s: State, op: nat): nat {
    if op !in s.threads then 31
    else
      match s.threads[op]
      case AddIdle => 30
      case AddOpening => 29
      case AddCalling(created) => if created.None? then 28 else 27
      case AddBuilding(g) => if g < |s.insts| && s.insts[g].refs < 3 then 23 - s.insts[g].refs else 20
      case AddReady(_) => 19
      case RemoveIdle(_) => 30
      case RemoveLookup(_, _) => 29
      case RemoveWaiting(_, _, _) => 28
      case RemoveOwning(_, _, _) => 27
      case Disposing(_, stage, _) =>
        (match stage
         case Releasing => 18
         case Removing => 17
         case Awaiting => 16
         case Booking(_) => 15
         case Unpinning => 14)
      case ItemIdle => 30
      case ItemRunning => 29
      case CallIdle(_) => 30
      case CallWaiting(_) => 29
      case CallHolding(_) => 28
      case Leaving(_, _) => 13
      case Exiting => 1
      case Finished => 0
  }

  /** The RPCs of a call can be repeated. */
  predicate Repeats(e: Event) {
    e.Op? && (e.o.CallRpc? || e.o.ItemRpc?)
  }

  lemma OpAdvances(s: State, op: nat, e: OpEvent)
    requires OpEnabled(s, op, e) && !e.CallRpc? && !e.ItemRpc?
    ensures StepsLeft(OpApply(s, op, e), op) < StepsLeft(s, op)
  {}

  lemma AddAdvances(s: State, op: nat, e: AddEvent)
    requires AddEnabled(s, op, e)
    ensures StepsLeft(AddApply(s, op, e), op) < StepsLeft(s, op)
  {}

  lemma RemoveAdvances(s: State, op: nat, e: RemoveEvent)
    requires RemoveEnabled(s, op, e)
    ensures StepsLeft(RemoveApply(s, op, e), op) < StepsLeft(s, op)
  {}

  /** Each step of an operation, except a repeatable RPC, leaves it fewer. */
  lemma OwnStepAdvances(s: State, op: nat, e: Event)
    requires Enabled(s, e) && OwnEvent(e, op) && !Repeats(e)
    ensures StepsLeft(Apply(s, e), op) < StepsLeft(s, op)
  {
    match e
    case Op(_, o) => OpAdvances(s, op, o);
    case Add(_, a) => AddAdvances(s, op, a);
    case Remove(_, r) => RemoveAdvances(s, op, r);
  }

  // ---- teardown ----

  function Rank(c: Closer): nat {
    match c
    case Idle => 10
    case Draining => 9
    case TimedOut => 8
    case Drained => 7
    case Replaying(_, _) => 6
    case RemovingGroups(_, _) => 5
    case ReleasingServer => 4
    case StoppingPing => 3
    case ClosingTransport => 2
    case TransportClosed => 1
  }

  /** What is left to do in the two loops of teardown. */
  function Work(c: Closer): nat {
    match c
    case Replaying(pend, _) => |pend|
    case RemovingGroups(ids, current) => 2 * |ids| + if current.Some? then 1 else 0
    case _ => 0
  }

  predicate Advances(c: Closer, d: Closer) {
    Rank(d) < Rank(c) || (Rank(d) == Rank(c) && Work(d) < Work(c))
  }

  lemma ReplayAdvances(c: Closer, h: nat)
    requires c.Replaying? && h in c.pend
    ensures Advances(c, c.(pend := c.pend - {h}))
  {
    Take(c.pend, h);
  }

  lemma WorkerAdvances(c: Closer, id: nat, worker: nat)
    requires c.RemovingGroups? && c.current.None? && id in c.ids
    ensures Advances(c, RemovingGroups(c.ids - {id}, Some(worker)))
  {
    Take(c.ids, id);
  }

  /** Teardown never goes back, and each of its loops runs out of work. */
  lemma CloseAdvances(s: State, e: CloseEvent)
    requires CloseEnabled(s, e)
    ensures Advances(s.closer, CloseApply(s, e).closer)
  {
    match e
    case ReplaySend(h) => ReplayAdvances(s.closer, h);
    case TeardownStart(id, worker) => WorkerAdvances(s.closer, id, worker);
    case _ =>
  }

  /** No finite table of operations uses up all numbers. */
  lemma {:induction false} FreshOperation(used: set<nat>) returns (op: nat)
    ensures op !in used && forall x :: x in used ==> x < op
  {
    if used == {} {
      op := 0;
    } else {
      var x :| x in used;
      var y := FreshOperation(used - {x});
      op := if y > x then y else x + 1;
      forall z | z in used
        ensures z < op
      {
        assert z == x || z in used - {x};
      }
    }
  }

  /** The operations that teardown waits for. */
  predicate Awaited(s: State, op: nat) {
    && op in s.threads
    && ((s.closer.TimedOut? && Admitted(s.threads[op])) ||
        (s.closer.RemovingGroups? && s.closer.current == Some(op) && !s.threads[op].Finished?))
  }

  lemma SomeAdmitted(s: State)
    requires DrainOk(s) && s.table.groupOps > 0
    ensures exists op :: op in s.threads && Admitted(s.threads[op])
  {
    assert AdmittedOps(s) != {};
    var op :| op in AdmittedOps(s);
  }

  lemma LoopsGoOn(s: State)
    requires s.closer.Replaying? || (s.closer.RemovingGroups? && s.closer.current.None?)
    ensures exists e :: CloseEnabled(s, e)
  {
    if s.closer.Replaying? {
      if s.closer.pend == {} {
        assert CloseEnabled(s, ReplayDone);
      } else {
        var h :| h in s.closer.pend;
        assert CloseEnabled(s, ReplaySend(h));
      }
    } else if s.closer.ids == {} {
      assert CloseEnabled(s, TeardownDone);
    } else {
      var id :| id in s.closer.ids;
      var worker := FreshOperation(s.threads.Keys);
      assert CloseEnabled(s, TeardownStart(id, worker));
    }
  }

  /** In every state of every run, a close that has begun and has not ended can go on, or waits for
      an operation that has not finished. */
  lemma TeardownGoesOn(ss: seq<State>, es: seq<Event>, i: nat)
    requires IsRun(ss, es) && i < |ss| && !ss[i].closer.Idle? && !ss[i].closer.TransportClosed?
    ensures (exists e :: CloseEnabled(ss[i], e)) || (exists op :: Awaited(ss[i], op))
  {
    var s := ss[i];
    RunInv(ss, es, i);
    RunAccounted(ss, es, i);
    match s.closer
    case Draining => assert CloseEnabled(s, CloseTimeout);
    case TimedOut =>
      if s.table.groupOps == 0 {
        assert CloseEnabled(s, CloseDrained);
      } else {
        SomeAdmitted(s);
        var op :| op in s.threads && Admitted(s.threads[op]);
        assert Awaited(s, op);
      }
    case Drained => assert CloseEnabled(s, CloseSnapshot);
    case RemovingGroups(_, current) =>
      if current.None? {
        LoopsGoOn(s);
      } else if s.threads[current.value].Finished? {
        assert CloseEnabled(s, TeardownNext);
      } else {
        assert Awaited(s, current.value);
      }
    case Replaying(_, _) => LoopsGoOn(s);
    case ReleasingServer => assert CloseEnabled(s, CloseReleaseServer);
    case StoppingPing => assert CloseEnabled(s, CloseStopPing);
    case ClosingTransport => assert CloseEnabled(s, CloseTransport);
  }

  /** Teardown is past the point where it removes groups, without having got there. */
  predicate GaveUp(s: State) {
    s.closer.TimedOut? || s.closer.StoppingPing? || s.closer.ClosingTransport? || s.closer.TransportClosed?
  }

  lemma GaveUpStep(s: State, e: Event)
    requires Enabled(s, e) && GaveUp(s)
    ensures GaveUp(Apply(s, e))
  {
    match e
    case Op(op, o) => OpFrame(s, op, o);
    case Add(op, a) => AddFrame(s, op, a);
    case Remove(op, r) => RemoveFrame(s, op, r);
    case Server(v) => ServerFrame(s, v);
    case Close(c) => GaveUpClose(s, c);
  }

  lemma GaveUpClose(s: State, e: CloseEvent)
    requires CloseEnabled(s, e) && GaveUp(s)
    ensures GaveUp(CloseApply(s, e))
  {}

  /** A close whose wait for the operations timed out removes no group and does not release the
      server; it only stops the pinger and closes the transport. */
  lemma LateCloseSkips(ss: seq<State>, es: seq<Event>, i: nat, j: nat)
    requires IsRun(ss, es) && i <= j < |ss| && ss[i].closer.TimedOut?
    ensures GaveUp(ss[j])
    ensures j < |es| && es[j].Close? ==> es[j].c in {CloseDrained, CloseStopPing, CloseTransport}
  {
    forall k | i <= k < j && GaveUp(ss[k])
      ensures GaveUp(ss[k + 1])
    {
      GaveUpStep(ss[k], es[k]);
    }
    Runs.Lasts(ss, (s: State) => GaveUp(s), i, j);
  }
}
