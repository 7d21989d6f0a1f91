/** A run in which the pending table loses a group that the server still holds. */
module ProtocolCounterexample {
  import opened Wrappers
  import opened SessionTable
  import opened Keepalive
  import opened Protocol
  import opened ProtocolInvariant
  import opened ProtocolTheorems
  import opened ProtocolTeardown

  /** The events es lead from s to t. */
  ghost predicate Leads(s: State, es: seq<Event>, t: State)
    decreases |es|
  {
    if es == [] then s == t else Enabled(s, es[0]) && Leads(Apply(s, es[0]), es[1..], t)
  }

  lemma LeadsCons(s: State, e: Event, es: seq<Event>, t: State)
    requires Enabled(s, e) && Leads(Apply(s, e), es, t)
    ensures Leads(s, [e] + es, t)
  {
    assert ([e] + es)[1..] == es;
  }

  lemma {:induction false} LeadsAppend(s: State, es: seq<Event>, t: State, fs: seq<Event>, u: State)
    requires Leads(s, es, t) && Leads(t, fs, u)
    ensures Leads(s, es + fs, u)
    decreases |es|
  {
    if es == [] {
      assert es + fs == fs;
    } else {
      LeadsAppend(Apply(s, es[0]), es[1..], t, fs, u);
      assert (es + fs)[1..] == es[1..] + fs;
    }
  }

  lemma {:induction false} LeadsIsRun(s: State, es: seq<Event>, t: State) returns (ss: seq<State>)
    requires Leads(s, es, t)
    ensures |ss| == |es| + 1 && ss[0] == s && ss[|es|] == t
    ensures forall i :: 0 <= i < |es| ==> Enabled(ss[i], es[i]) && ss[i + 1] == Apply(ss[i], es[i])
    decreases |es|
  {
    if es == [] {
      ss := [s];
    } else {
      var rest := LeadsIsRun(Apply(s, es[0]), es[1..], t);
      ss := [s] + rest;
      forall i | 0 <= i < |es|
        ensures Enabled(ss[i], es[i]) && ss[i + 1] == Apply(ss[i], es[i])
      {
        if i > 0 {
          assert es[i] == es[1..][i - 1];
        }
      }
    }
  }

  /** An addGroup that creates a group under handle h, fails to set it up, and has dispatched
      the RemoveGroup of its disposal. */
  function FailedSetup(op: nat, h: nat): seq<Event> {
    Admitting(op) + Opening(op, h) + Undoing(op)
  }

  function Admitting(op: nat): seq<Event> {
    [Op(op, Arrive(AddIdle)), Op(op, Admission)]
  }

  function Opening(op: nat, h: nat): seq<Event> {
    [Add(op, AddDispatch), Add(op, ServerCreate(h)), Add(op, AddAnswered)]
  }

  function Undoing(op: nat): seq<Event> {
    [Add(op, BuildFailed), Remove(op, DisposeRelease), Remove(op, DisposeRemove)]
  }

  function WithThread(s: State, op: nat, t: Thread, admitted: nat): State {
    s.(threads := s.threads[op := t], table := s.table.(groupOps := s.table.groupOps + admitted))
  }

  function Created(s: State, op: nat, h: nat, t: Thread, i: Instance): State {
    WithThread(s, op, t, 1).(insts := s.insts + [i], live := s.live[h := Owned(|s.insts|)])
  }

  lemma AdmittingLeads(s: State, op: nat)
    requires op !in s.threads && !s.table.closed
    ensures Leads(s, Admitting(op), WithThread(s, op, AddOpening, 1))
  {
    var t := WithThread(s, op, AddOpening, 1);
    var a := Go(s, op, AddIdle);
    assert Apply(s, Op(op, Arrive(AddIdle))) == a;
    assert Apply(a, Op(op, Admission)) == t by {
      assert a.threads[op := AddOpening] == t.threads;
    }
    LeadsCons(a, Op(op, Admission), [], t);
    LeadsCons(s, Op(op, Arrive(AddIdle)), [Op(op, Admission)], t);
  }

  lemma OpeningDispatch(s: State, op: nat)
    requires op !in s.threads
    ensures Enabled(WithThread(s, op, AddOpening, 1), Add(op, AddDispatch))
    ensures Apply(WithThread(s, op, AddOpening, 1), Add(op, AddDispatch)) == WithThread(s, op, AddCalling(None), 1)
  {
    var a, b := WithThread(s, op, AddOpening, 1), WithThread(s, op, AddCalling(None), 1);
    assert a.threads[op := AddCalling(None)] == b.threads;
  }

  /** The server has created the group; its answer is on the way. */
  function Served(s: State, op: nat, h: nat): State {
    WithThread(s, op, AddCalling(Some(h)), 1).(live := s.live[h := Creating(op)])
  }

  lemma OpeningServed(s: State, op: nat, h: nat)
    requires op !in s.threads && h !in s.live
    ensures Enabled(WithThread(s, op, AddCalling(None), 1), Add(op, ServerCreate(h)))
    ensures Apply(WithThread(s, op, AddCalling(None), 1), Add(op, ServerCreate(h))) == Served(s, op, h)
  {
    assert WithThread(s, op, AddCalling(None), 1).threads[op := AddCalling(Some(h))] == Served(s, op, h).threads;
  }

  lemma OpeningAnswered(s: State, op: nat, h: nat)
    requires op !in s.threads && h !in s.live
    ensures Enabled(Served(s, op, h), Add(op, AddAnswered))
    ensures Apply(Served(s, op, h), Add(op, AddAnswered)) ==
              Created(s, op, h, AddBuilding(|s.insts|), NewInstance(op, h))
  {
    var c, t := Served(s, op, h), Created(s, op, h, AddBuilding(|s.insts|), NewInstance(op, h));
    assert c.threads[op := AddBuilding(|s.insts|)] == t.threads;
    assert c.live[h := Owned(|s.insts|)] == t.live;
  }

  lemma OpeningLeads(s: State, op: nat, h: nat)
    requires op !in s.threads && h !in s.live
    ensures Leads(WithThread(s, op, AddOpening, 1), Opening(op, h),
                  Created(s, op, h, AddBuilding(|s.insts|), NewInstance(op, h)))
  {
    var t := Created(s, op, h, AddBuilding(|s.insts|), NewInstance(op, h));
    var a := WithThread(s, op, AddOpening, 1);
    var b := WithThread(s, op, AddCalling(None), 1);
    var c := Served(s, op, h);
    OpeningDispatch(s, op);
    OpeningServed(s, op, h);
    OpeningAnswered(s, op, h);
    LeadsCons(c, Add(op, AddAnswered), [], t);
    LeadsCons(b, Add(op, ServerCreate(h)), [Add(op, AddAnswered)], t);
    LeadsCons(a, Add(op, AddDispatch), [Add(op, ServerCreate(h)), Add(op, AddAnswered)], t);
  }

  function Condemned(op: nat, h: nat, request: Request): Instance {
    NewInstance(op, h).(phase := Disposal(op), request := request)
  }

  /** The creator disposes of the group it could not set up. */
  function UndoingAt(s: State, op: nat, h: nat, stage: Stage, request: Request): State {
    Created(s, op, h, Disposing(|s.insts|, stage, Creator), Condemned(op, h, request))
  }

  lemma UndoingStarts(s: State, op: nat, h: nat)
    requires op !in s.threads
    ensures Enabled(Created(s, op, h, AddBuilding(|s.insts|), NewInstance(op, h)), Add(op, BuildFailed))
    ensures Apply(Created(s, op, h, AddBuilding(|s.insts|), NewInstance(op, h)), Add(op, BuildFailed)) ==
              UndoingAt(s, op, h, Releasing, Unsent)
  {
    var g := |s.insts|;
    var a := Created(s, op, h, AddBuilding(g), NewInstance(op, h));
    var b := UndoingAt(s, op, h, Releasing, Unsent);
    assert a.threads[op := Disposing(g, Releasing, Creator)] == b.threads;
    assert a.insts[g := Condemned(op, h, Unsent)] == b.insts;
  }

  lemma UndoingReleases(s: State, op: nat, h: nat)
    requires op !in s.threads
    ensures Enabled(UndoingAt(s, op, h, Releasing, Unsent), Remove(op, DisposeRelease))
    ensures Apply(UndoingAt(s, op, h, Releasing, Unsent), Remove(op, DisposeRelease)) ==
              UndoingAt(s, op, h, Removing, Unsent)
  {
    var b := UndoingAt(s, op, h, Releasing, Unsent);
    var c := UndoingAt(s, op, h, Removing, Unsent);
    assert b.threads[op := Disposing(|s.insts|, Removing, Creator)] == c.threads;
  }

  lemma UndoingAsks(s: State, op: nat, h: nat)
    requires op !in s.threads
    ensures Enabled(UndoingAt(s, op, h, Removing, Unsent), Remove(op, DisposeRemove))
    ensures Apply(UndoingAt(s, op, h, Removing, Unsent), Remove(op, DisposeRemove)) ==
              UndoingAt(s, op, h, Awaiting, InFlight)
  {
    var g := |s.insts|;
    var c := UndoingAt(s, op, h, Removing, Unsent);
    var t := UndoingAt(s, op, h, Awaiting, InFlight);
    assert c.threads[op := Disposing(g, Awaiting, Creator)] == t.threads;
    assert c.insts[g := Condemned(op, h, InFlight)] == t.insts;
  }

  lemma UndoingLeads(s: State, op: nat, h: nat)
    requires op !in s.threads
    ensures Leads(Created(s, op, h, AddBuilding(|s.insts|), NewInstance(op, h)), Undoing(op),
                  UndoingAt(s, op, h, Awaiting, InFlight))
  {
    var g := |s.insts|;
    var a := Created(s, op, h, AddBuilding(g), NewInstance(op, h));
    var b := UndoingAt(s, op, h, Releasing, Unsent);
    var c := UndoingAt(s, op, h, Removing, Unsent);
    var t := UndoingAt(s, op, h, Awaiting, InFlight);
    UndoingStarts(s, op, h);
    UndoingReleases(s, op, h);
    UndoingAsks(s, op, h);
    LeadsCons(c, Remove(op, DisposeRemove), [], t);
    LeadsCons(b, Remove(op, DisposeRelease), [Remove(op, DisposeRemove)], t);
    LeadsCons(a, Add(op, BuildFailed), [Remove(op, DisposeRelease), Remove(op, DisposeRemove)], t);
  }

  lemma FailedSetupLeads(s: State, op: nat, h: nat)
    requires op !in s.threads && h !in s.live && !s.table.closed
    ensures Leads(s, FailedSetup(op, h),
                  UndoingAt(s, op, h, Awaiting, InFlight))
  {
    AdmittingLeads(s, op);
    OpeningLeads(s, op, h);
    UndoingLeads(s, op, h);
    var m := Created(s, op, h, AddBuilding(|s.insts|), NewInstance(op, h));
    LeadsAppend(s, Admitting(op), WithThread(s, op, AddOpening, 1), Opening(op, h), m);
    LeadsAppend(s, Admitting(op) + Opening(op, h), m, Undoing(op),
                UndoingAt(s, op, h, Awaiting, InFlight));
  }

  const NEW_SESSION := State(0, false, NewTable(), [], map[], Idle, map[], map[], Some(NEW_PING))

  /** The first removal takes effect and is answered; its outcome is not booked yet. */
  const FIRST_REMOVED: seq<Event> := [Server(ServerRemove(0)), Remove(1, DisposeReply(true))]

  /** The second removal fails and is booked, then the first success is booked. */
  const LATE_BOOKING: seq<Event> := [Remove(2, DisposeReply(false)), Remove(2, DisposeBook), Remove(1, DisposeBook)]

  function FirstDone(): State {
    Created(NEW_SESSION, 1, 73, Disposing(0, Booking(true), Creator), Condemned(1, 73, Executed(true))).(live := map[])
  }

  lemma FirstRemovedLeads()
    ensures Leads(Created(NEW_SESSION, 1, 73, Disposing(0, Awaiting, Creator), Condemned(1, 73, InFlight)),
                  FIRST_REMOVED, FirstDone())
  {
    var a := Created(NEW_SESSION, 1, 73, Disposing(0, Awaiting, Creator), Condemned(1, 73, InFlight));
    var b := Created(NEW_SESSION, 1, 73, Disposing(0, Awaiting, Creator), Condemned(1, 73, Executed(true)))
             .(live := map[]);
    assert a.insts == [Condemned(1, 73, InFlight)] && b.insts == [Condemned(1, 73, Executed(true))];
    assert Apply(a, FIRST_REMOVED[0]) == b by {
      assert a.live - {73} == map[];
    }
    assert Apply(b, FIRST_REMOVED[1]) == FirstDone() by {
      assert b.threads[1 := Disposing(0, Booking(true), Creator)] == FirstDone().threads;
    }
    LeadsCons(b, FIRST_REMOVED[1], [], FirstDone());
    LeadsCons(a, FIRST_REMOVED[0], [FIRST_REMOVED[1]], FirstDone());
    assert FIRST_REMOVED == [FIRST_REMOVED[0]] + [FIRST_REMOVED[1]];
  }

  /** A late success erases a failed removal: a run after which the server holds group 1 under
      handle 73, its failed removal has been booked, and 73 is not pending. */
  lemma PendingRemovalLost() returns (ss: seq<State>, es: seq<Event>)
    ensures IsRun(ss, es)
    ensures var s := ss[|es|];
            Held(s, 1) && Booked(s, 1) && s.insts[1].handle == 73 && s.table.pending == {} && !Tracked(s)
  {
    FailedSetupLeads(NEW_SESSION, 1, 73);
    FirstRemovedLeads();
    var m := Created(NEW_SESSION, 1, 73, Disposing(0, Awaiting, Creator), Condemned(1, 73, InFlight));
    LeadsAppend(NEW_SESSION, FailedSetup(1, 73), m, FIRST_REMOVED, FirstDone());
    FailedSetupLeads(FirstDone(), 2, 73);
    var n := SecondCondemned();
    LeadsAppend(NEW_SESSION, FailedSetup(1, 73) + FIRST_REMOVED, FirstDone(), FailedSetup(2, 73), n);
    LateBookingLeads();
    LateBookingLoses();
    var t := Late(n, 3);
    LeadsAppend(NEW_SESSION, FailedSetup(1, 73) + FIRST_REMOVED + FailedSetup(2, 73), n, LATE_BOOKING, t);
    es := FailedSetup(1, 73) + FIRST_REMOVED + FailedSetup(2, 73) + LATE_BOOKING;
    ss := LeadsIsRun(NEW_SESSION, es, t);
  }

  /** The state after the first k late events. */
  function Late(n: State, k: nat): (t: State)
    requires n == SecondCondemned() && k <= 3
  {
    if k == 0 then n
    else if k == 1 then Go(n, 2, Disposing(1, Booking(false), Creator))
    else if k == 2 then Go(n.(table := Book(n.table, 73, false)), 2, Disposing(1, Unpinning, Creator))
    else
      Go(n.(table := Book(Book(n.table, 73, false), 73, true), threads := Late(n, 2).threads), 1,
         Disposing(0, Unpinning, Creator))
  }

  function SecondCondemned(): State {
    Created(FirstDone(), 2, 73, Disposing(1, Awaiting, Creator), Condemned(2, 73, InFlight))
  }

  /** The k-th late event leads to the next of these states. */
  ghost predicate Follows(k: nat)
    requires k < 3
  {
    && Enabled(Late(SecondCondemned(), k), LATE_BOOKING[k])
    && Apply(Late(SecondCondemned(), k), LATE_BOOKING[k]) == Late(SecondCondemned(), k + 1)
  }

  lemma ReplyFollows()
    ensures Follows(0)
  {
    assert SecondCondemned().insts == [Condemned(1, 73, Executed(true)), Condemned(2, 73, InFlight)];
  }

  lemma FailureFollows()
    ensures Follows(1)
  {
    assert SecondCondemned().insts == [Condemned(1, 73, Executed(true)), Condemned(2, 73, InFlight)];
  }

  lemma SuccessFollows()
    ensures Follows(2)
  {
    assert SecondCondemned().insts == [Condemned(1, 73, Executed(true)), Condemned(2, 73, InFlight)];
  }

  lemma LateBookingLeads()
    ensures Leads(SecondCondemned(), LATE_BOOKING, Late(SecondCondemned(), 3))
  {
    var n := SecondCondemned();
    ReplyFollows();
    FailureFollows();
    SuccessFollows();
    LeadsCons(Late(n, 2), LATE_BOOKING[2], [], Late(n, 3));
    LeadsCons(Late(n, 1), LATE_BOOKING[1], [LATE_BOOKING[2]], Late(n, 3));
    LeadsCons(Late(n, 0), LATE_BOOKING[0], [LATE_BOOKING[1], LATE_BOOKING[2]], Late(n, 3));
    assert LATE_BOOKING == [LATE_BOOKING[0]] + [LATE_BOOKING[1], LATE_BOOKING[2]];
    assert [LATE_BOOKING[1], LATE_BOOKING[2]] == [LATE_BOOKING[1]] + [LATE_BOOKING[2]];
  }

  lemma LateBookingLoses()
    ensures var t := Late(SecondCondemned(), 3);
            Held(t, 1) && Booked(t, 1) && t.insts[1].handle == 73 && t.table.pending == {} && !Tracked(t)
  {
    var t := Late(SecondCondemned(), 3);
    assert t.insts == [Condemned(1, 73, Executed(true)), Condemned(2, 73, InFlight)];
    assert Held(t, 1) && Booked(t, 1);
  }
}
