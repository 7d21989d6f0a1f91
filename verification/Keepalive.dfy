/** The DCOM object pinger: reference counts for the objects of one session, mirrored in a
    ping set that the remote object exporter keeps (section 3.1.2.5.1.3 of MS-DCOM).

    The counts live in a class, as in keepalive.go.  Every method of the class is proved
    against a function on the value type Ping, and the properties are proved about those
    functions.  A ComplexPing call can fail after taking effect, so the remote set is part of
    Ping: it is what the exporter really holds, which the client never sees. */
module Keepalive {
  import opened Collections

  /** What happens to one call that needs the pinger.  A ping set update that was dispatched
      and not answered may or may not have been applied. */
  datatype Attempt =
    | NoGate                  // the context ended before the pinger's gate was acquired
    | Cancelled               // the context ended between the gate and the dispatch
    | Lost(applied: bool)     // dispatched, and the call reported an error
    | Answered(setId: nat)    // dispatched and acknowledged

  datatype Ping = Ping(
    objects: map<nat, nat>,   // object id to reference count
    set_: nat,                // set id chosen by the exporter, 0 before the first update
    sequence: nat,            // 16-bit sequence number of the last update
    failed: bool,             // an error was recorded
    remote: set<nat>,         // the exporter's set
    dispatched: nat           // updates put on the wire so far
  )

  const SEQUENCE_RANGE := 0x1_0000

  const NEW_PING := Ping(map[], 0, 0, false, {}, 0)

  function Count(p: Ping, oid: nat): nat {
    if oid in p.objects then p.objects[oid] else 0
  }

  function Change(p: Ping, add: set<nat>, del: set<nat>, a: Attempt): (Ping, bool) {
    var sent := p.(sequence := (p.sequence + 1) % SEQUENCE_RANGE, dispatched := p.dispatched + 1);
    var updated := (p.remote + add) - del;
    match a
    case NoGate => (p, false)
    case Cancelled => (p, false)
    case Lost(applied) => (sent.(failed := true, remote := if applied then updated else p.remote), false)
    case Answered(id) => (sent.(set_ := id, remote := updated), true)
  }

  function Retain(p: Ping, oid: nat, a: Attempt): (Ping, bool) {
    if a.NoGate? || oid == 0 || p.failed then (p, false)
    else if Count(p, oid) > 0 then (p.(objects := p.objects[oid := p.objects[oid] + 1]), true)
    else
      var (changed, ok) := Change(p, {oid}, {}, a);
      if ok then (changed.(objects := changed.objects[oid := 1]), true) else (changed, false)
  }

  function Release(p: Ping, oid: nat, a: Attempt): (Ping, bool) {
    if a.NoGate? then (p, false)
    else if Count(p, oid) > 1 then (p.(objects := p.objects[oid := p.objects[oid] - 1]), true)
    else if Count(p, oid) == 0 then (p, true)
    else
      var (changed, ok) := Change(p, {}, {oid}, a);
      if ok then (changed.(objects := changed.objects - {oid}), true) else (changed, false)
  }

  /** The final update, which removes every object that still has a count. */
  function Shutdown(p: Ping, a: Attempt): (Ping, bool) {
    if a.NoGate? then (p, false)
    else if p.objects.Keys == {} then (p, true)
    else Change(p, {}, p.objects.Keys, a)
  }

  /** A failed periodic SimplePing records an error and changes nothing else. */
  function PingFailed(p: Ping): Ping {
    p.(failed := true)
  }

  /** What every reachable pinger satisfies until it is shut down. */
  ghost predicate Consistent(p: Ping) {
    && (forall oid :: oid in p.objects ==> p.objects[oid] > 0)
    && 0 !in p.objects
    && p.sequence == p.dispatched % SEQUENCE_RANGE
    && (!p.failed ==> p.remote == p.objects.Keys)
  }

  datatype PingEvent =
    | Retained(oid: nat, a: Attempt)
    | Released(oid: nat, a: Attempt)
    | LoopFailed

  function Step(p: Ping, e: PingEvent): Ping {
    match e
    case Retained(oid, a) => Retain(p, oid, a).0
    case Released(oid, a) => Release(p, oid, a).0
    case LoopFailed => PingFailed(p)
  }

  /** The pinger after a sequence of gate-protected sections, in the order the gate admits them. */
  function After(p: Ping, es: seq<PingEvent>): Ping {
    if es == [] then p else Step(After(p, es[..|es| - 1]), es[|es| - 1])
  }

  lemma ChangeAtWrap(n: nat)
    ensures ((n % SEQUENCE_RANGE) + 1) % SEQUENCE_RANGE == (n + 1) % SEQUENCE_RANGE
  {}

  lemma StepConsistent(p: Ping, e: PingEvent)
    requires Consistent(p)
    ensures Consistent(Step(p, e))
    ensures p.failed ==> Step(p, e).failed
    ensures p.dispatched <= Step(p, e).dispatched <= p.dispatched + 1
  {
    ChangeAtWrap(p.dispatched);
    var q := Step(p, e);
    if e.Retained? && q != p {
      assert q.objects.Keys == p.objects.Keys + {e.oid} || q.objects == p.objects;
    }
  }

  /** The ping set theorem.  Over every run: counts stay positive, the sequence number counts
      the dispatched updates modulo 65536, an error never clears, and while there is no error
      the exporter's set is exactly the set of objects with a positive count. */
  lemma {:induction false} RunConsistent(es: seq<PingEvent>)
    ensures Consistent(After(NEW_PING, es))
    ensures !After(NEW_PING, es).failed ==>
              forall oid :: oid in After(NEW_PING, es).remote <==> Count(After(NEW_PING, es), oid) > 0
    ensures forall k :: 0 <= k <= |es| && After(NEW_PING, es[..k]).failed ==> After(NEW_PING, es).failed
  {
    if es == [] {
    } else {
      var front := es[..|es| - 1];
      RunConsistent(front);
      StepConsistent(After(NEW_PING, front), es[|es| - 1]);
      forall k | 0 <= k <= |es| && After(NEW_PING, es[..k]).failed
        ensures After(NEW_PING, es).failed
      {
        if k < |es| {
          assert front[..k] == es[..k];
        } else {
          assert es[..k] == es;
        }
      }
    }
  }

  /** A call whose context ends before dispatch leaves counts, set and sequence number alone,
      and a release of an object held more than once sends nothing. */
  lemma OnlyDispatchedCallsCount(p: Ping, oid: nat, a: Attempt)
    requires Consistent(p)
    ensures a.NoGate? ==> Retain(p, oid, a) == (p, false) && Release(p, oid, a) == (p, false)
    ensures a.Cancelled? ==>
              && Retain(p, oid, a).0.(objects := p.objects) == p
              && Release(p, oid, a).0.(objects := p.objects) == p
              && (Retain(p, oid, a).0 != p ==> Count(p, oid) > 0 && Retain(p, oid, a).1)
    ensures Retain(p, oid, a).1 ==> Count(Retain(p, oid, a).0, oid) == Count(p, oid) + 1
    ensures Release(p, oid, a).1 && Count(p, oid) > 0 ==> Count(Release(p, oid, a).0, oid) == Count(p, oid) - 1
    ensures !Retain(p, oid, a).1 ==> Retain(p, oid, a).0.objects == p.objects
    ensures !Release(p, oid, a).1 ==> Release(p, oid, a).0.objects == p.objects
    ensures Count(p, oid) > 1 ==>
              Release(p, oid, a).0.remote == p.remote && Release(p, oid, a).0.dispatched == p.dispatched
    ensures forall other :: other != oid ==>
              && Count(Retain(p, oid, a).0, other) == Count(p, other)
              && Count(Release(p, oid, a).0, other) == Count(p, other)
  {}

  /** Nothing was put on the wire. */
  predicate Silent(p: Ping, q: Ping) {
    q.(objects := p.objects) == p
  }

  /** One update was acknowledged: the exporter's set is now remote, and its set id is kept. */
  predicate Acknowledged(p: Ping, q: Ping, setId: nat, remote: set<nat>) {
    && q.dispatched == p.dispatched + 1 && q.failed == p.failed
    && q.set_ == setId && q.remote == remote
  }

  /** One update was sent without an answer: the error stays, and the exporter may have applied it. */
  predicate InDoubt(p: Ping, q: Ping, applied: bool, remote: set<nat>) {
    && q.dispatched == p.dispatched + 1 && q.failed && q.set_ == p.set_
    && q.remote == if applied then remote else p.remote
  }

  /** Exactly when a reference is taken, and what happens to the ping set. */
  lemma RetainOutcome(p: Ping, oid: nat, a: Attempt)
    requires Consistent(p)
    ensures var (q, ok) := Retain(p, oid, a);
            && (ok <==> oid != 0 && !p.failed && (a.Answered? || (Count(p, oid) > 0 && !a.NoGate?)))
            && (forall other :: Count(q, other) == Count(p, other) + if ok && other == oid then 1 else 0)
            && (oid == 0 || p.failed || Count(p, oid) > 0 || a.NoGate? || a.Cancelled? ==> Silent(p, q))
            && (oid != 0 && !p.failed && Count(p, oid) == 0 ==>
                  && (a.Answered? ==> Acknowledged(p, q, a.setId, p.remote + {oid}))
                  && (a.Lost? ==> InDoubt(p, q, a.applied, p.remote + {oid})))
  {}

  /** Exactly when a reference is given back, and what happens to the ping set. */
  lemma ReleaseOutcome(p: Ping, oid: nat, a: Attempt)
    requires Consistent(p)
    ensures var (q, ok) := Release(p, oid, a);
            && (ok <==> a.Answered? || (Count(p, oid) != 1 && !a.NoGate?))
            && (forall other ::
                  Count(q, other) == Count(p, other) - if ok && other == oid && Count(p, oid) > 0 then 1 else 0)
            && (Count(p, oid) != 1 || a.NoGate? || a.Cancelled? ==> Silent(p, q))
            && (Count(p, oid) == 1 ==>
                  && (a.Answered? ==> Acknowledged(p, q, a.setId, p.remote - {oid}))
                  && (a.Lost? ==> InDoubt(p, q, a.applied, p.remote - {oid})))
  {}

  /** The final update removes all objects, unless there is none. */
  lemma ShutdownOutcome(p: Ping, a: Attempt)
    requires Consistent(p)
    ensures var (q, ok) := Shutdown(p, a);
            && q.objects == p.objects
            && (ok <==> a.Answered? || (p.objects == map[] && !a.NoGate?))
            && (p.objects == map[] || a.NoGate? || a.Cancelled? ==> q == p)
            && (p.objects != map[] ==>
                  && (a.Answered? ==> Acknowledged(p, q, a.setId, p.remote - p.objects.Keys))
                  && (a.Lost? ==> InDoubt(p, q, a.applied, p.remote - p.objects.Keys)))
  {}

  /** Shutting down a healthy pinger with an acknowledged update empties the exporter's set. */
  lemma ShutdownEmptiesSet(p: Ping, a: Attempt)
    requires Consistent(p) && !p.failed
    ensures Shutdown(p, a).1 ==> Shutdown(p, a).0.remote == {}
    ensures !Shutdown(p, a).1 ==> Shutdown(p, a).0.remote == p.remote || Shutdown(p, a).0.failed
  {}

  /** The pinger itself.  The two ghost fields follow the exporter and the wire. */
  class ObjectPinger {
    var objects: map<nat, nat>
    var set_: nat
    var sequence: nat
    var failed: bool
    ghost var remote: set<nat>
    ghost var dispatched: nat

    ghost function View(): Ping
      reads this
    {
      Ping(objects, set_, sequence, failed, remote, dispatched)
    }

    constructor ()
      ensures View() == NEW_PING
    {
      objects, set_, sequence, failed := map[], 0, 0, false;
      remote, dispatched := {}, 0;
    }

    method ComplexPing(add: seq<nat>, del: seq<nat>, a: Attempt) returns (ok: bool)
      requires !a.NoGate?
      modifies this
      ensures (View(), ok) == Change(old(View()), Elements(add), Elements(del), a)
    {
      if a.Cancelled? {
        return false;
      }
      sequence := (sequence + 1) % SEQUENCE_RANGE;
      dispatched := dispatched + 1;
      if a.Answered? || a.applied {
        remote := (remote + Elements(add)) - Elements(del);
      }
      if a.Lost? {
        failed := true;
        return false;
      }
      set_ := a.setId;
      return true;
    }

    method Add(oid: nat, a: Attempt) returns (ok: bool)
      requires Consistent(View())
      modifies this
      ensures (View(), ok) == Retain(old(View()), oid, a)
    {
      if a.NoGate? || oid == 0 || failed {
        return false;
      }
      if oid !in objects {
        assert Elements([oid]) == {oid} && Elements<nat>([]) == {};
        var changed := ComplexPing([oid], [], a);
        if !changed {
          return false;
        }
        objects := objects[oid := 1];
      } else {
        objects := objects[oid := objects[oid] + 1];
      }
      return true;
    }

    method Remove(oid: nat, a: Attempt) returns (ok: bool)
      requires Consistent(View())
      modifies this
      ensures (View(), ok) == Release(old(View()), oid, a)
    {
      if a.NoGate? {
        return false;
      }
      if oid in objects && objects[oid] > 1 {
        objects := objects[oid := objects[oid] - 1];
        return true;
      }
      if oid !in objects {
        return true;
      }
      assert Elements([oid]) == {oid} && Elements<nat>([]) == {};
      var changed := ComplexPing([], [oid], a);
      if !changed {
        return false;
      }
      objects := objects - {oid};
      return true;
    }

    method SetError()
      modifies this
      ensures View() == PingFailed(old(View()))
    {
      failed := true;
    }

    method Close(a: Attempt) returns (ok: bool)
      modifies this
      ensures (View(), ok) == Shutdown(old(View()), a)
    {
      if a.NoGate? {
        return false;
      }
      var ids: seq<nat> := [];
      var rest := objects.Keys;
      while rest != {}
        invariant View() == old(View())
        invariant rest <= objects.Keys
        invariant Elements(ids) == objects.Keys - rest
      {
        var oid :| oid in rest;
        assert Elements(ids + [oid]) == Elements(ids) + {oid};
        ids := ids + [oid];
        rest := rest - {oid};
      }
      assert Elements(ids) == objects.Keys;
      ok := true;
      if |ids| > 0 {
        assert ids[0] in Elements(ids);
        assert Elements<nat>([]) == {};
        ok := ComplexPing([], ids, a);
      } else {
        assert objects.Keys == {};
      }
    }
  }
}
