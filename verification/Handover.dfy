/** Who may cancel a transport: the hand-over from the context of one operation to the lifetime of
    the session.

    A transport context is derived from the session's lifetime, and while the transport is being
    set up a hook also cancels it when the operation's context is done.  Cancellation can come at
    any moment, and a hook that has been launched runs in its own goroutine at any later moment.
    The machine is run in two ways: bindCleanupTransport binds one connection, and the setup of a
    group (addGroup around openPersistentGroup) covers the connections of the group. */
module Handover {
  import Runs

  datatype Kind = Bind | Group

  /** The hook that context.AfterFunc registers.  Stopping it works only while it is armed. */
  datatype Hook = Unarmed | Armed | Launched | Ran | Stopped

  datatype Conn = NoConn | Open | Closed

  datatype Pc =
    | Start
    | Checked                   // the operation's context was not done
    | Created                   // the transport context exists
    | Working                   // the hook is set and the connections are being bound
    | Worked(failed: bool)      // binding is over
    | Unhooked                  // the hook was stopped
    | ContextRead(done: bool)   // the operation's context was looked at once more
    | MustDiscard(unhook: bool) // something failed; the hook may still have to be stopped
    | Discarding(unhook: bool)  // the connections are closed
    | Discarded                 // the transport context is cancelled too
    | Failed
    | Succeeded
    | Released                  // the owner has finished its clean-up and cancelled the transport

  datatype State = State(
    kind: Kind,
    parentDone: bool,           // the operation's context
    lifetimeDone: bool,         // the session's context
    transportDone: bool,
    hook: Hook,
    conn: Conn,
    pc: Pc
  )

  datatype Event =
    | ParentCancel
    | LifetimeCancel
    | HookRuns
    | CheckContext
    | CreateTransport
    | SetHook
    | WorkReturns(connected: bool, failed: bool)
    | StopHook
    | ReadContext
    | ReadTransport
    | Register(ok: bool)
    | CloseConnections
    | CancelTransport
    | Release

  /** Between its creation and for ever after, the transport follows the session's lifetime. */
  predicate HasTransport(s: State) {
    !s.pc.Start? && !s.pc.Checked? && (s.pc.Failed? ==> s.hook != Unarmed)
  }

  predicate Enabled(s: State, e: Event) {
    match e
    case ParentCancel => true
    case LifetimeCancel => true
    case HookRuns => s.hook == Launched
    case CheckContext => s.pc == Start
    case CreateTransport => s.pc == Checked
    case SetHook => s.pc == Created
    case WorkReturns(_, _) => s.pc == Working
    case StopHook => s.pc.Worked? || s.pc == Discarded
    case ReadContext => s.pc == Unhooked
    case ReadTransport => s.kind == Bind && s.pc.ContextRead?
    case Register(_) => s.kind == Group && s.pc.ContextRead?
    case CloseConnections => s.pc.MustDiscard?
    case CancelTransport => s.pc.Discarding?
    case Release => s.pc == Succeeded
  }

  function Unhook(h: Hook): Hook {
    if h == Armed then Stopped else h
  }

  /** A failed bind stops the hook before it cleans up, a failed group setup afterwards. */
  function Apply(s: State, e: Event): State
    requires Enabled(s, e)
  {
    match e
    case ParentCancel => s.(parentDone := true, hook := if s.hook == Armed then Launched else s.hook)
    case LifetimeCancel => s.(lifetimeDone := true, transportDone := s.transportDone || HasTransport(s))
    case HookRuns => s.(transportDone := true, hook := Ran)
    case CheckContext => s.(pc := if s.parentDone then Failed else Checked)
    case CreateTransport => s.(transportDone := s.lifetimeDone, pc := Created)
    case SetHook => s.(hook := if s.parentDone then Launched else Armed, pc := Working)
    case WorkReturns(connected, failed) =>
      s.(conn := if connected then Open else NoConn,
         pc := if failed && s.kind == Group then MustDiscard(true) else Worked(failed))
    case StopHook =>
      s.(hook := Unhook(s.hook),
         pc := if s.pc == Discarded then Failed else if s.pc.failed then MustDiscard(false) else Unhooked)
    case ReadContext => s.(pc := ContextRead(s.parentDone))
    case ReadTransport => s.(pc := if s.pc.done || s.transportDone then MustDiscard(false) else Succeeded)
    case Register(ok) => s.(pc := if s.pc.done || !ok then MustDiscard(false) else Succeeded)
    case CloseConnections => s.(conn := if s.conn == Open then Closed else s.conn, pc := Discarding(s.pc.unhook))
    case CancelTransport => s.(transportDone := true, pc := if s.pc.unhook then Discarded else Failed)
    case Release => s.(transportDone := true, pc := Released)
  }

  predicate Initial(s: State) {
    s.pc == Start && s.hook == Unarmed && s.conn == NoConn && !s.transportDone
  }

  ghost predicate IsRun(states: seq<State>, events: seq<Event>) {
    && |states| == |events| + 1 && Initial(states[0])
    && forall i :: 0 <= i < |events| ==> Enabled(states[i], events[i]) && states[i + 1] == Apply(states[i], events[i])
  }

  predicate Inv(s: State) {
    && (s.hook == Unarmed <==>
          s.pc == Start || s.pc == Checked || s.pc == Created || (s.pc == Failed && !HasTransport(s)))
    && (s.hook == Armed ==> !s.parentDone)
    && (s.hook == Ran ==> s.transportDone)
    && (s.hook == Launched || s.hook == Ran ==> s.parentDone)
    && (s.hook == Armed ==>
          || s.pc == Working || s.pc.Worked?
          || s.pc == MustDiscard(true) || s.pc == Discarding(true) || s.pc == Discarded)
    && (s.hook == Stopped ==> !s.pc.Working? && !s.pc.Worked?)
    && (s.pc == ContextRead(false) || s.pc == Succeeded || s.pc == Released ==> s.hook == Stopped)
    && (s.conn == Open ==>
          || s.pc.Worked? || s.pc.Unhooked? || s.pc.ContextRead? || s.pc.MustDiscard?
          || s.pc.Succeeded? || s.pc.Released?)
    && (s.pc == Start || s.pc == Checked ==> !s.transportDone)
    && (HasTransport(s) && s.lifetimeDone ==> s.transportDone)
    && (s.pc == Discarded || s.pc == Released || (s.pc == Failed && HasTransport(s)) ==> s.transportDone)
    && (s.transportDone ==> s.lifetimeDone || s.hook == Ran || s.pc == Discarded || s.pc == Failed || s.pc == Released)
  }

  lemma StepKeeps(s: State, e: Event)
    requires Inv(s) && Enabled(s, e)
    ensures Inv(Apply(s, e))
  {}

  lemma {:induction false} RunInv(states: seq<State>, events: seq<Event>, i: nat)
    requires IsRun(states, events) && i < |states|
    ensures Inv(states[i])
  {
    if i > 0 {
      RunInv(states, events, i - 1);
      StepKeeps(states[i - 1], events[i - 1]);
    }
  }

  predicate HandedOver(s: State) {
    (s.pc == Succeeded || s.pc == Released) && s.hook == Stopped
  }

  lemma HandedOverStep(s: State, e: Event)
    requires Enabled(s, e) && HandedOver(s)
    ensures HandedOver(Apply(s, e))
  {}

  /** After success, however the operation's context is cancelled from then on, the transport is
      done only through the session's lifetime or through its owner. */
  lemma OnlyLifetimeCancels(states: seq<State>, events: seq<Event>, i: nat, j: nat)
    requires IsRun(states, events) && i <= j < |states| && states[i].pc == Succeeded
    ensures HandedOver(states[j])
    ensures states[j].transportDone ==> states[j].lifetimeDone || states[j].pc == Released
  {
    RunInv(states, events, i);
    RunInv(states, events, j);
    forall n | i <= n < j && HandedOver(states[n])
      ensures HandedOver(states[n + 1])
    {
      HandedOverStep(states[n], events[n]);
    }
    Runs.Lasts(states, (s: State) => HandedOver(s), i, j);
  }

  /** A bound connection is handed over with a transport that is not done. */
  lemma BoundAlive(states: seq<State>, events: seq<Event>, i: nat)
    requires IsRun(states, events) && i < |events| && events[i] == ReadTransport && states[i + 1].pc == Succeeded
    ensures !states[i + 1].transportDone && !states[i + 1].lifetimeDone
  {
    RunInv(states, events, i);
  }

  /** After a failure no connection is open, no hook is left armed, and the transport context is
      done if there ever was one. */
  lemma FailureLeavesNothing(states: seq<State>, events: seq<Event>, i: nat)
    requires IsRun(states, events) && i < |states| && states[i].pc == Failed
    ensures states[i].conn != Open && states[i].hook != Armed
    ensures HasTransport(states[i]) ==> states[i].transportDone
  {
    RunInv(states, events, i);
  }

  /** While the connections are being bound, a cancelled operation has its hook on the way. */
  lemma CancellationForwarded(states: seq<State>, events: seq<Event>, i: nat)
    requires IsRun(states, events) && i < |states| && states[i].parentDone
    requires states[i].pc == Working || states[i].pc.Worked?
    ensures states[i].transportDone || Enabled(states[i], HookRuns)
  {
    RunInv(states, events, i);
  }

  /** The operation's context is done and has yet to be looked at, or was found done. */
  predicate Doomed(s: State) {
    && s.parentDone && s.pc != Succeeded && s.pc != Released && s.pc != ContextRead(false)
  }

  lemma DoomedStep(s: State, e: Event)
    requires Enabled(s, e) && Doomed(s)
    ensures Doomed(Apply(s, e))
  {}

  /** A cancellation before the last look at the context always fails the operation. */
  lemma CancelledNeverSucceeds(states: seq<State>, events: seq<Event>, i: nat, j: nat)
    requires IsRun(states, events) && i <= j < |states| && Doomed(states[i])
    ensures states[j].pc != Succeeded
  {
    forall n | i <= n < j && Doomed(states[n])
      ensures Doomed(states[n + 1])
    {
      DoomedStep(states[n], events[n]);
    }
    Runs.Lasts(states, (s: State) => Doomed(s), i, j);
  }

  // ---- what an undisturbed hand-over does ----

  /** The events are possible one after the other from s, and end in t. */
  ghost predicate Leads(s: State, events: seq<Event>, t: State)
    decreases |events|
  {
    if events == [] then s == t else Enabled(s, events[0]) && Leads(Apply(s, events[0]), events[1..], t)
  }

  lemma First(s: State, e: Event, r: State, events: seq<Event>, t: State)
    requires Enabled(s, e) && Apply(s, e) == r && Leads(r, events, t)
    ensures Leads(s, [e] + events, t)
  {
    assert ([e] + events)[1..] == events;
  }

  /** The events up to the end of the work. */
  function Setup(connected: bool, failed: bool): seq<Event> {
    [CheckContext] + ([CreateTransport] + ([SetHook] + ([WorkReturns(connected, failed)] + [StopHook])))
  }

  lemma SetupLeads(s: State, connected: bool, failed: bool)
    requires Initial(s) && !s.parentDone && !s.lifetimeDone && !(failed && s.kind == Group)
    ensures Leads(s, Setup(connected, failed),
                  s.(hook := Stopped, conn := if connected then Open else NoConn,
                     pc := if failed then MustDiscard(false) else Unhooked))
  {
    var a, b, c := s.(pc := Checked), s.(pc := Created), s.(hook := Armed, pc := Working);
    var d := s.(hook := Armed, conn := if connected then Open else NoConn, pc := Worked(failed));
    var t := d.(hook := Stopped, pc := if failed then MustDiscard(false) else Unhooked);
    assert Leads(t, [], t) && [StopHook] + [] == [StopHook];
    First(d, StopHook, t, [], t);
    First(c, WorkReturns(connected, failed), d, [StopHook], t);
    First(b, SetHook, c, [WorkReturns(connected, failed)] + [StopHook], t);
    First(a, CreateTransport, b, [SetHook] + ([WorkReturns(connected, failed)] + [StopHook]), t);
    First(s, CheckContext, a, [CreateTransport] + ([SetHook] + ([WorkReturns(connected, failed)] + [StopHook])), t);
  }

  /** Nothing cancels and the connection is made: the hand-over succeeds, with the transport alive. */
  lemma UndisturbedSucceeds(s: State)
    requires Initial(s) && !s.parentDone && !s.lifetimeDone
    ensures Leads(s, Setup(true, false), s.(hook := Stopped, conn := Open, pc := Unhooked))
    ensures Leads(s.(hook := Stopped, conn := Open, pc := Unhooked),
                  [ReadContext] + [if s.kind == Bind then ReadTransport else Register(true)],
                  s.(hook := Stopped, conn := Open, pc := Succeeded))
  {
    SetupLeads(s, true, false);
    var a, b := s.(hook := Stopped, conn := Open, pc := Unhooked),
                s.(hook := Stopped, conn := Open, pc := ContextRead(false));
    var t := s.(hook := Stopped, conn := Open, pc := Succeeded);
    var last := if s.kind == Bind then ReadTransport else Register(true);
    assert Leads(t, [], t) && [last] + [] == [last];
    First(b, last, t, [], t);
    First(a, ReadContext, b, [last], t);
  }

  /** A bind that fails although nothing cancels closes its connection and cancels its transport. */
  lemma FailedBindCleansUp(s: State, connected: bool)
    requires Initial(s) && !s.parentDone && !s.lifetimeDone && s.kind == Bind
    ensures var failed := s.(hook := Stopped, conn := if connected then Open else NoConn, pc := MustDiscard(false));
            && Leads(s, Setup(connected, true), failed)
            && Leads(failed, [CloseConnections] + [CancelTransport],
                     failed.(conn := if connected then Closed else NoConn, transportDone := true, pc := Failed))
  {
    SetupLeads(s, connected, true);
    var a := s.(hook := Stopped, conn := if connected then Open else NoConn, pc := MustDiscard(false));
    var b := a.(conn := if connected then Closed else NoConn, pc := Discarding(false));
    var t := b.(transportDone := true, pc := Failed);
    assert Leads(t, [], t) && [CancelTransport] + [] == [CancelTransport];
    First(b, CancelTransport, t, [], t);
    First(a, CloseConnections, b, [CancelTransport], t);
  }

  /** The next step of the hand-over itself; what it waits for is outside. */
  predicate Own(e: Event) {
    !e.ParentCancel? && !e.LifetimeCancel? && !e.HookRuns?
  }

  /** A hand-over that is not over can go on in every state. */
  lemma GoesOn(s: State)
    requires s.pc != Failed && s.pc != Released
    ensures exists e :: Own(e) && Enabled(s, e)
  {
    var e := match s.pc
             case Start => CheckContext
             case Checked => CreateTransport
             case Created => SetHook
             case Working => WorkReturns(true, false)
             case Worked(_) => StopHook
             case Unhooked => ReadContext
             case ContextRead(_) => if s.kind == Bind then ReadTransport else Register(true)
             case MustDiscard(_) => CloseConnections
             case Discarding(_) => CancelTransport
             case Discarded => StopHook
             case _ => Release;
    assert Own(e) && Enabled(s, e);
  }
}
