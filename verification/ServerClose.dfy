/** Concurrent calls of Server.Close against each other and against the operations of a server.

    A caller or an operation is named by a number.  Every lock section, channel receive, context
    read and call of the connection is one event, and the events of all callers and operations
    interleave freely.  A context that an operation derives is cancelled by its parent, by the
    server's context or at the end of the operation. */
module ServerClose {
  import opened Wrappers
  import Runs

  datatype Outcome = Success | Failure(code: nat)

  /** What a call of Close returns. */
  datatype CloseResult = Cleanup(o: Outcome) | OwnContext

  datatype Signal = NoChannel | OpenChannel | ClosedChannel

  /** The fields of a server that its mutex protects. */
  datatype Latch = Latch(closed: bool, done: Signal, err: Outcome)

  const NEW_LATCH := Latch(false, NoChannel, Success)

  function Begin(l: Latch): Latch {
    if l.closed then l else l.(closed := true, done := OpenChannel)
  }

  function Publish(l: Latch, o: Outcome): Latch {
    l.(err := o, done := ClosedChannel)
  }

  /** The lock sections of Close and operationError on the fields themselves. */
  class Server {
    var closed: bool
    var closeDone: Signal
    var closeErr: Outcome

    ghost function View(): Latch
      reads this
    {
      Latch(closed, closeDone, closeErr)
    }

    constructor ()
      ensures View() == NEW_LATCH
    {
      closed, closeDone, closeErr := false, NoChannel, Success;
    }

    method BeginClose() returns (first: bool)
      modifies this
      ensures first == !old(View()).closed && View() == Begin(old(View()))
    {
      if closed {
        return false;
      }
      closed := true;
      closeDone := OpenChannel;
      return true;
    }

    method PublishClose(o: Outcome)
      modifies this
      ensures View() == Publish(old(View()), o)
    {
      closeErr := o;
      closeDone := ClosedChannel;
    }

    method IsClosed() returns (c: bool)
      ensures c == View().closed
    {
      c := closed;
    }
  }

  /** Where a call of Close stands. */
  datatype Closer =
    | Chosen                    // it set closed
    | Cancelled                 // it cancelled the server's context
    | Cleaning                  // closeContext is running
    | Cleaned(o: Outcome)
    | Waiting                   // it found closed set
    | Returned(r: CloseResult)

  /** Where an operation stands. */
  datatype Op =
    | Hooked                    // its context follows the server's
    | Ready                     // it has looked at the server's context
    | Unlocked                  // it has found closed unset
    | Running
    | Rejected
    | Ended

  datatype State = State(
    latch: Latch,
    hasConn: bool,
    serverDone: bool,            // the server's context is cancelled
    closers: map<nat, Closer>,
    closerDone: set<nat>,        // callers of Close whose own context is done
    ops: map<nat, Op>,
    opDone: set<nat>,            // operations whose context is done
    cleanups: seq<nat>,          // who called closeContext, in order
    result: Option<Outcome>      // the result of the cleanup
  )

  datatype Event =
    | CloserDone(i: nat)
    | CloseEnter(i: nat)
    | ServerCancel(i: nat)
    | ConnClose(i: nat)
    | ConnClosed(i: nat, o: Outcome)
    | PublishResult(i: nat)
    | WaitDone(i: nat)
    | WaitContext(i: nat)
    | OpHook(k: nat)
    | OpLook(k: nat)
    | OpLock(k: nat)
    | OpContext(k: nat)
    | OpEnd(k: nat)
    | OpParentDone(k: nat)
    | OpHookFires(k: nat)

  predicate CloserAt(s: State, i: nat, c: Closer) {
    i in s.closers && s.closers[i] == c
  }

  predicate OpAt(s: State, k: nat, o: Op) {
    k in s.ops && s.ops[k] == o
  }

  predicate Enabled(s: State, e: Event) {
    match e
    case CloserDone(_) => true
    case CloseEnter(i) => i !in s.closers
    case ServerCancel(i) => CloserAt(s, i, Chosen)
    case ConnClose(i) => CloserAt(s, i, Cancelled)
    case ConnClosed(i, _) => CloserAt(s, i, Cleaning)
    case PublishResult(i) => i in s.closers && s.closers[i].Cleaned?
    case WaitDone(i) => CloserAt(s, i, Waiting) && s.latch.done == ClosedChannel
    case WaitContext(i) => CloserAt(s, i, Waiting) && i in s.closerDone
    case OpHook(k) => k !in s.ops
    case OpLook(k) => OpAt(s, k, Hooked)
    case OpLock(k) => OpAt(s, k, Ready)
    case OpContext(k) => OpAt(s, k, Unlocked)
    case OpEnd(k) => OpAt(s, k, Running) || OpAt(s, k, Rejected)
    case OpParentDone(k) => k in s.ops
    case OpHookFires(k) => k in s.ops && s.serverDone
  }

  function MoveCloser(s: State, i: nat, c: Closer): State {
    s.(closers := s.closers[i := c])
  }

  function MoveOp(s: State, k: nat, o: Op): State {
    s.(ops := s.ops[k := o])
  }

  function Apply(s: State, e: Event): State
    requires Enabled(s, e)
  {
    match e
    case CloserDone(i) => s.(closerDone := s.closerDone + {i})
    case CloseEnter(i) => MoveCloser(s.(latch := Begin(s.latch)), i, if s.latch.closed then Waiting else Chosen)
    case ServerCancel(i) => MoveCloser(s.(serverDone := true), i, Cancelled)
    case ConnClose(i) =>
      if s.hasConn then MoveCloser(s.(cleanups := s.cleanups + [i]), i, Cleaning)
      else MoveCloser(s.(result := Some(Success)), i, Cleaned(Success))
    case ConnClosed(i, o) => MoveCloser(s.(result := Some(o)), i, Cleaned(o))
    case PublishResult(i) =>
      var o := s.closers[i].o;
      MoveCloser(s.(latch := Publish(s.latch, o)), i, Returned(Cleanup(o)))
    case WaitDone(i) => MoveCloser(s, i, Returned(Cleanup(s.latch.err)))
    case WaitContext(i) => MoveCloser(s, i, Returned(OwnContext))
    case OpHook(k) => MoveOp(s, k, Hooked)
    case OpLook(k) => MoveOp(if s.serverDone then s.(opDone := s.opDone + {k}) else s, k, Ready)
    case OpLock(k) => MoveOp(s, k, if s.latch.closed then Rejected else Unlocked)
    case OpContext(k) => MoveOp(s, k, if k in s.opDone then Rejected else Running)
    case OpEnd(k) => MoveOp(s.(opDone := s.opDone + {k}), k, Ended)
    case OpParentDone(k) => s.(opDone := s.opDone + {k})
    case OpHookFires(k) => s.(opDone := s.opDone + {k})
  }

  predicate Initial(s: State) {
    && s.latch == NEW_LATCH && !s.serverDone && s.closers == map[] && s.ops == map[]
    && s.opDone == {} && s.cleanups == [] && s.result == None
  }

  ghost predicate IsRun(states: seq<State>, events: seq<Event>) {
    && |states| == |events| + 1 && Initial(states[0])
    && forall i :: 0 <= i < |events| ==> Enabled(states[i], events[i]) && states[i + 1] == Apply(states[i], events[i])
  }

  /** The caller that does the work. */
  predicate IsWinner(c: Closer) {
    c.Chosen? || c.Cancelled? || c.Cleaning? || c.Cleaned?
  }

  /** There is one winner, or the cleanup is over and published; the number of cleanups follows. */
  ghost predicate Inv(s: State) {
    && (!s.latch.closed ==> s.closers == map[] && s.latch.done == NoChannel)
    && (s.latch.done == ClosedChannel ==> s.result == Some(s.latch.err))
    && (s.serverDone ==> s.latch.closed)
    && (s.latch.closed && s.latch.done != ClosedChannel ==>
          s.latch.done == OpenChannel && exists i :: i in s.closers && IsWinner(s.closers[i]))
    && (forall i, j :: i in s.closers && j in s.closers && IsWinner(s.closers[i]) && IsWinner(s.closers[j]) ==> i == j)
    && (forall i :: i in s.closers ==> CloserOk(s, i, s.closers[i]))
    && (s.latch.done == ClosedChannel ==> s.serverDone && |s.cleanups| == Cleanups(s))
    && (!s.latch.closed ==> s.cleanups == [] && s.result == None)
  }

  /** The number of cleanups that a complete Close makes. */
  function Cleanups(s: State): nat {
    if s.hasConn then 1 else 0
  }

  /** What holds of a caller at each of its places. */
  ghost predicate CloserOk(s: State, i: nat, c: Closer) {
    && s.latch.closed
    && match c
       case Chosen => s.latch.done == OpenChannel && s.cleanups == [] && s.result == None
       case Cancelled => s.latch.done == OpenChannel && s.cleanups == [] && s.result == None && s.serverDone
       case Cleaning =>
         s.latch.done == OpenChannel && s.cleanups == [i] && s.result == None && s.serverDone && s.hasConn
       case Cleaned(o) =>
         s.latch.done == OpenChannel && |s.cleanups| == Cleanups(s) && s.result == Some(o) && s.serverDone
       case Waiting => true
       case Returned(OwnContext) => i in s.closerDone
       case Returned(Cleanup(o)) => s.latch.done == ClosedChannel && s.latch.err == o
  }

  /** Events that touch no caller keep the invariant. */
  lemma OpKeeps(s: State, e: Event)
    requires Inv(s) && Enabled(s, e) && (e.OpHook? || e.OpLook? || e.OpLock? || e.OpContext? || e.OpEnd? ||
                                         e.OpParentDone? || e.OpHookFires? || e.CloserDone?)
    ensures Inv(Apply(s, e))
  {
    var q := Apply(s, e);
    assert q.closers == s.closers && q.latch == s.latch && q.cleanups == s.cleanups && q.result == s.result;
    forall i | i in q.closers
      ensures CloserOk(q, i, q.closers[i])
    {
      assert CloserOk(s, i, s.closers[i]);
    }
  }

  /** A step of the winner: nobody else's place depends on what it changes. */
  lemma WinnerKeeps(s: State, e: Event)
    requires Inv(s) && Enabled(s, e) && (e.ServerCancel? || e.ConnClose? || e.ConnClosed? || e.PublishResult?)
    ensures Inv(Apply(s, e))
  {
    var q := Apply(s, e);
    var i := e.i;
    assert CloserOk(s, i, s.closers[i]);
    forall j | j in q.closers
      ensures CloserOk(q, j, q.closers[j])
    {
      assert CloserOk(s, j, s.closers[j]);
    }
    if !e.PublishResult? {
      assert IsWinner(q.closers[i]);
    }
  }

  lemma EnterKeeps(s: State, i: nat)
    requires Inv(s) && Enabled(s, CloseEnter(i))
    ensures Inv(Apply(s, CloseEnter(i)))
  {
    var q := Apply(s, CloseEnter(i));
    forall j | j in q.closers
      ensures CloserOk(q, j, q.closers[j])
    {
      if j != i {
        assert CloserOk(s, j, s.closers[j]);
      }
    }
    if s.latch.closed && s.latch.done != ClosedChannel {
      var w :| w in s.closers && IsWinner(s.closers[w]);
      assert w in q.closers && IsWinner(q.closers[w]);
    } else if !s.latch.closed {
      assert IsWinner(q.closers[i]);
    }
  }

  lemma WaiterKeeps(s: State, e: Event)
    requires Inv(s) && Enabled(s, e) && (e.WaitDone? || e.WaitContext?)
    ensures Inv(Apply(s, e))
  {
    var q := Apply(s, e);
    forall j | j in q.closers
      ensures CloserOk(q, j, q.closers[j])
    {
      assert CloserOk(s, j, s.closers[j]);
    }
    if s.latch.done != ClosedChannel {
      var w :| w in s.closers && IsWinner(s.closers[w]);
      assert w in q.closers && IsWinner(q.closers[w]);
    }
  }

  lemma StepKeeps(s: State, e: Event)
    requires Inv(s) && Enabled(s, e)
    ensures Inv(Apply(s, e))
  {
    match e
    case CloseEnter(i) => EnterKeeps(s, i);
    case ServerCancel(_) => WinnerKeeps(s, e);
    case ConnClose(_) => WinnerKeeps(s, e);
    case ConnClosed(_, _) => WinnerKeeps(s, e);
    case PublishResult(_) => WinnerKeeps(s, e);
    case WaitDone(_) => WaiterKeeps(s, e);
    case WaitContext(_) => WaiterKeeps(s, e);
    case _ => OpKeeps(s, e);
  }

  lemma {:induction false} RunInv(states: seq<State>, events: seq<Event>, i: nat)
    requires IsRun(states, events) && i < |states|
    ensures Inv(states[i])
  {
    if i > 0 {
      RunInv(states, events, i - 1);
      StepKeeps(states[i - 1], events[i - 1]);
    }
  }

  /** The connection is closed at most once, and exactly once when any call has returned a
      cleanup result (never when there is no connection). */
  lemma ClosedOnce(states: seq<State>, events: seq<Event>, i: nat, j: nat)
    requires IsRun(states, events) && i < |states|
    ensures |states[i].cleanups| <= Cleanups(states[i])
    ensures j in states[i].closers && states[i].closers[j].Returned? && states[i].closers[j].r.Cleanup? ==>
              |states[i].cleanups| == Cleanups(states[i])
  {
    RunInv(states, events, i);
    var s := states[i];
    if j in s.closers {
      assert CloserOk(s, j, s.closers[j]);
    }
    if s.latch.closed && s.latch.done != ClosedChannel {
      var w :| w in s.closers && IsWinner(s.closers[w]);
      assert CloserOk(s, w, s.closers[w]);
    }
  }

  /** A call returns the one cleanup result or the error of its own context. */
  lemma OneResult(states: seq<State>, events: seq<Event>, i: nat, j: nat)
    requires IsRun(states, events) && i < |states| && j in states[i].closers && states[i].closers[j].Returned?
    ensures var s := states[i];
            match s.closers[j].r
            case Cleanup(o) => s.result == Some(o)
            case OwnContext => j in s.closerDone
  {
    RunInv(states, events, i);
    assert CloserOk(states[i], j, states[i].closers[j]);
  }

  /** What no step undoes: closing, the cancellation of the server's context, the end of an
      operation's context, and a rejection. */
  lemma StepLasts(s: State, e: Event, k: nat)
    requires Enabled(s, e)
    ensures var q := Apply(s, e);
            && (s.latch.closed ==> q.latch.closed) && (s.serverDone ==> q.serverDone)
            && (k in s.opDone ==> k in q.opDone)
            && (Over(s, k) ==> Over(q, k))
  {}

  lemma ResultStep(s: State, e: Event)
    requires Inv(s) && Enabled(s, e) && s.result.Some?
    ensures Apply(s, e).result == s.result
  {
    forall i | i in s.closers
      ensures !s.closers[i].Cancelled? && !s.closers[i].Cleaning?
    {
      NoCleanupLeft(s, i);
    }
  }

  lemma NoCleanupLeft(s: State, i: nat)
    requires Inv(s) && s.result.Some? && i in s.closers
    ensures !s.closers[i].Cancelled? && !s.closers[i].Cleaning?
  {
    assert CloserOk(s, i, s.closers[i]);
  }

  /** Once there is a result it is never replaced. */
  lemma {:induction false} ResultLasts(states: seq<State>, events: seq<Event>, i: nat, j: nat)
    requires IsRun(states, events) && i <= j < |states| && states[i].result.Some?
    ensures states[j].result == states[i].result
  {
    if i < j {
      ResultLasts(states, events, i, j - 1);
      RunInv(states, events, j - 1);
      ResultStep(states[j - 1], events[j - 1]);
    }
  }

  predicate Over(s: State, k: nat) {
    OpAt(s, k, Rejected) || OpAt(s, k, Ended)
  }

  /** An operation whose check runs after closing began is turned away, for good. */
  lemma NoneLetThrough(states: seq<State>, events: seq<Event>, i: nat, j: nat, m: nat)
    requires IsRun(states, events) && i <= j < |events| && states[i].latch.closed && events[j].OpLock?
    requires j < m < |states|
    ensures Over(states[m], events[j].k)
  {
    var k := events[j].k;
    forall n | 0 <= n < |events|
      ensures states[n].latch.closed ==> states[n + 1].latch.closed
      ensures Over(states[n], k) ==> Over(states[n + 1], k)
    {
      StepLasts(states[n], events[n], k);
    }
    Runs.Lasts(states, (s: State) => s.latch.closed, i, j);
    Runs.Lasts(states, (s: State) => Over(s, k), j + 1, m);
  }

  /** An operation that has not been checked when closing began. */
  predicate Late(s: State, k: nat) {
    s.latch.closed && !OpAt(s, k, Running) && !OpAt(s, k, Unlocked)
  }

  lemma LateStep(s: State, e: Event, k: nat)
    requires Enabled(s, e) && Late(s, k)
    ensures Late(Apply(s, e), k)
  {}

  /** An operation that is not past its check when closing begins never runs. */
  lemma LateNeverRuns(states: seq<State>, events: seq<Event>, i: nat, j: nat, k: nat)
    requires IsRun(states, events) && i <= j < |states| && Late(states[i], k)
    ensures Late(states[j], k)
  {
    forall n | i <= n < j && Late(states[n], k)
      ensures Late(states[n + 1], k)
    {
      LateStep(states[n], events[n], k);
    }
    Runs.Lasts(states, (s: State) => Late(s, k), i, j);
  }

  /** The server's context is cancelled, and the operation either has still to look at it or has
      a context that is done. */
  predicate Notified(s: State, k: nat) {
    s.serverDone && (k in s.ops && !OpAt(s, k, Hooked) ==> k in s.opDone)
  }

  lemma NotifiedStep(s: State, e: Event, k: nat)
    requires Enabled(s, e) && Notified(s, k)
    ensures Notified(Apply(s, e), k)
  {}

  /** No operation misses the cancellation: one that derives its context afterwards finds it done
      as soon as it has looked, and stays that way. */
  lemma CancellationIsSeen(states: seq<State>, events: seq<Event>, i: nat, j: nat, k: nat)
    requires IsRun(states, events) && i <= j < |states| && Notified(states[i], k)
    ensures Notified(states[j], k)
  {
    forall n | i <= n < j && Notified(states[n], k)
      ensures Notified(states[n + 1], k)
    {
      NotifiedStep(states[n], events[n], k);
    }
    Runs.Lasts(states, (s: State) => Notified(s, k), i, j);
  }

  /** No call waits for nothing: whoever waits can take the result, or the one who works on it
      has a next step. */
  lemma WaitersAreServed(states: seq<State>, events: seq<Event>, i: nat, j: nat) returns (e: Event)
    requires IsRun(states, events) && i < |states| && CloserAt(states[i], j, Waiting)
    ensures Enabled(states[i], e)
    ensures e == WaitDone(j) || e.ServerCancel? || e.ConnClose? || e.ConnClosed? || e.PublishResult?
  {
    RunInv(states, events, i);
    var s := states[i];
    if s.latch.done == ClosedChannel {
      e := WaitDone(j);
    } else {
      assert CloserOk(s, j, s.closers[j]);
      var w :| w in s.closers && IsWinner(s.closers[w]);
      e := match s.closers[w]
           case Chosen => ServerCancel(w)
           case Cancelled => ConnClose(w)
           case Cleaning => ConnClosed(w, Success)
           case _ => PublishResult(w);
    }
  }

  // ---- what undisturbed callers and operations do ----

  /** The events are possible one after the other from s, and end in t. */
  ghost predicate Leads(s: State, events: seq<Event>, t: State)
    decreases |events|
  {
    if events == [] then s == t else Enabled(s, events[0]) && Leads(Apply(s, events[0]), events[1..], t)
  }

  lemma First(s: State, e: Event, r: State, events: seq<Event>, t: State)
    requires Enabled(s, e) && Apply(s, e) == r && Leads(r, events, t)
    ensures Leads(s, [e] + events, t)
  {
    assert ([e] + events)[1..] == events;
  }

  lemma OpTwice(s: State, k: nat, o: Op, p: Op)
    ensures MoveOp(MoveOp(s, k, o), k, p) == MoveOp(s, k, p)
  {
    assert s.ops[k := o][k := p] == s.ops[k := p];
  }

  /** An operation on an open server whose context is not done runs. */
  lemma OpenServerRuns(s: State, k: nat)
    requires !s.latch.closed && !s.serverDone && k !in s.ops && k !in s.opDone
    ensures Leads(s, [OpHook(k)] + ([OpLook(k)] + ([OpLock(k)] + [OpContext(k)])),
                  s.(ops := s.ops[k := Running]))
  {
    var a, b, c, d := MoveOp(s, k, Hooked), MoveOp(s, k, Ready), MoveOp(s, k, Unlocked), MoveOp(s, k, Running);
    OpTwice(s, k, Hooked, Ready);
    OpTwice(s, k, Ready, Unlocked);
    OpTwice(s, k, Unlocked, Running);
    assert Leads(d, [], d) && [OpContext(k)] + [] == [OpContext(k)];
    First(c, OpContext(k), d, [], d);
    First(b, OpLock(k), c, [OpContext(k)], d);
    First(a, OpLook(k), b, [OpLock(k)] + [OpContext(k)], d);
    First(s, OpHook(k), a, [OpLook(k)] + ([OpLock(k)] + [OpContext(k)]), d);
  }

  lemma CloserTwice(s: State, i: nat, c: Closer, d: Closer)
    ensures MoveCloser(MoveCloser(s, i, c), i, d) == MoveCloser(s, i, d)
  {
    assert s.closers[i := c][i := d] == s.closers[i := d];
  }

  /** The first close of an open server with a connection cleans up once and returns its result. */
  lemma FirstCloseCleansUp(s: State, i: nat, o: Outcome)
    requires !s.latch.closed && s.closers == map[] && s.cleanups == [] && s.hasConn
    ensures Leads(s, [CloseEnter(i)] +
                     ([ServerCancel(i)] + ([ConnClose(i)] + ([ConnClosed(i, o)] + [PublishResult(i)]))),
                  s.(latch := Latch(true, ClosedChannel, o), serverDone := true,
                     closers := map[i := Returned(Cleanup(o))], cleanups := [i], result := Some(o)))
  {
    var open := s.(latch := Latch(true, OpenChannel, s.latch.err));
    var done := open.(serverDone := true);
    var busy := done.(cleanups := [i]);
    var a, b, c := MoveCloser(open, i, Chosen), MoveCloser(done, i, Cancelled), MoveCloser(busy, i, Cleaning);
    var d := MoveCloser(busy.(result := Some(o)), i, Cleaned(o));
    var t := MoveCloser(busy.(result := Some(o), latch := Latch(true, ClosedChannel, o)), i, Returned(Cleanup(o)));
    CloserTwice(done, i, Chosen, Cancelled);
    CloserTwice(busy, i, Cancelled, Cleaning);
    CloserTwice(busy.(result := Some(o)), i, Cleaning, Cleaned(o));
    CloserTwice(busy.(result := Some(o), latch := Latch(true, ClosedChannel, o)), i, Cleaned(o), Returned(Cleanup(o)));
    assert Leads(t, [], t) && [PublishResult(i)] + [] == [PublishResult(i)];
    First(d, PublishResult(i), t, [], t);
    First(c, ConnClosed(i, o), d, [PublishResult(i)], t);
    First(b, ConnClose(i), c, [ConnClosed(i, o)] + [PublishResult(i)], t);
    First(a, ServerCancel(i), b, [ConnClose(i)] + ([ConnClosed(i, o)] + [PublishResult(i)]), t);
    First(s, CloseEnter(i), a, [ServerCancel(i)] + ([ConnClose(i)] + ([ConnClosed(i, o)] + [PublishResult(i)])), t);
  }
}
