/** The session protocol as a step machine.

    Any number of goroutines run addGroup, removeGroup, calls on a group, and one closeContext.
    One event is one lock section, one gate acquire or release, the dispatch of one RPC, its
    effect at the server, or its reply.  The server may answer late, apply a request whose
    caller has given up, apply it and report failure, and give a freed handle to a later group. */
module Protocol {
  import opened Wrappers
  import opened SessionTable
  import opened Keepalive

  /** Which operation runs a disposal, or holds a gate it is about to return. */
  datatype Owner = Creator | Remover | Teardown | Caller

  datatype Stage =
    | Releasing               // RemRelease of the interface references comes next
    | Removing                // RemoveGroup comes next
    | Awaiting                // RemoveGroup is dispatched
    | Booking(removed: bool)  // its reply is known, the pending table is not yet updated
    | Unpinning               // the keepalive reference comes next

  datatype Thread =
    | AddIdle
    | AddOpening                                    // admitted, AddGroup not dispatched
    | AddCalling(created: Option<nat>)              // AddGroup dispatched; the handle once the server made one
    | AddBuilding(g: nat)                           // AddGroup answered
    | AddReady(g: nat)                              // opened, not registered
    | RemoveIdle(id: nat)
    | RemoveLookup(id: nat, owner: Owner)
    | RemoveWaiting(id: nat, g: nat, owner: Owner)
    | RemoveOwning(id: nat, g: nat, owner: Owner)   // gate held, group found open
    | Disposing(g: nat, stage: Stage, owner: Owner)
    | ItemIdle
    | ItemRunning                                   // a single-item operation, admitted
    | CallIdle(id: nat)
    | CallWaiting(g: nat)
    | CallHolding(g: nat)                           // gate held, group found open
    | Leaving(g: nat, owner: Owner)                 // gate held, release comes next
    | Exiting                                       // groupOps.Done comes next
    | Finished

  /** Who is responsible for a created group. */
  datatype Phase =
    | Building(op: nat)
    | Registered(id: nat)
    | Disposal(op: nat)
    | Disposed

  datatype Request = Unsent | InFlight | Executed(hit: bool)

  datatype Pin = NoPin | Pinned | Unpinned | PinLost   // PinLost: the release was tried and failed

  /** A group whose AddGroup was answered.  Its index in the instance table is its identity. */
  datatype Instance = Instance(
    handle: nat,
    creator: nat,
    refs: nat,
    oid: nat,
    pin: Pin,
    phase: Phase,
    id: Option<nat>,          // the local id, once registered
    gate: Option<nat>,        // the operation holding the gate
    closed: bool,
    request: Request          // its RemoveGroup
  )

  /** What the server holds under a handle. */
  datatype Holder = Creating(op: nat) | Owned(g: nat) | Unknown

  datatype Closer =
    | Idle
    | Draining
    | TimedOut
    | Drained
    | Replaying(pend: set<nat>, ids: set<nat>)
    | RemovingGroups(ids: set<nat>, current: Option<nat>)
    | ReleasingServer
    | StoppingPing
    | ClosingTransport
    | TransportClosed

  datatype State = State(
    serverOid: nat,
    retained: bool,           // the server object is in the ping set
    table: Table<nat>,
    insts: seq<Instance>,
    threads: map<nat, Thread>,
    closer: Closer,
    live: map<nat, Holder>,
    replays: map<nat, Request>,
    pinger: Option<Ping>
  )

  /** Steps every admitted or waiting operation can take. */
  datatype OpEvent =
    | Arrive(t: Thread)
    | GiveUp                               // a context ended, a check failed, or the session is closed
    | Admission
    | OpDone
    | GateRelease
    | ItemRpc                              // an RPC of a single-item operation
    | CallFind
    | CallAcquire(cancelled: bool)
    | CallRpc                              // an RPC of a call on a group
    | CallFinish

  /** Steps of addGroup up to registration. */
  datatype AddEvent =
    | AddDispatch
    | ServerCreate(handle: nat)
    | AddAnswered
    | AddFailed
    | BuildReference(oid: nat)
    | BuildInterfaces(found: nat)
    | BuildPin(noPing: bool, a: Attempt)
    | BuildFailed
    | RegisterReady

  /** Steps of removeGroupInternal and disposeGroup. */
  datatype RemoveEvent =
    | RemoveFind
    | RemoveAcquire(cancelled: bool)
    | RemoveUnregister
    | DisposeRelease
    | DisposeRemove
    | DisposeReply(removed: bool)
    | DisposeBook
    | DisposeUnpin(a: Attempt)

  /** What the server and the ping loop do by themselves. */
  datatype ServerEvent =
    | ServerRemove(g: nat)                 // it executes the RemoveGroup that instance g's disposal sent
    | ServerReplay(handle: nat)            // it executes a RemoveGroup that teardown replayed
    | ServerOther(handle: nat, made: bool) // a group this session does not track comes or goes
    | PingLoopFailed

  /** Steps of closeContext. */
  datatype CloseEvent =
    | CloseBegin
    | CloseTimeout
    | CloseDrained
    | CloseSnapshot
    | ReplaySend(handle: nat)
    | ReplayDone
    | TeardownStart(id: nat, worker: nat)
    | TeardownNext
    | TeardownDone
    | CloseReleaseServer
    | CloseStopPing
    | CloseTransport

  datatype Event =
    | Op(op: nat, o: OpEvent)
    | Add(op: nat, a: AddEvent)
    | Remove(op: nat, r: RemoveEvent)
    | Server(v: ServerEvent)
    | Close(c: CloseEvent)

  predicate Admitted(t: Thread) {
    match t
    case AddOpening => true
    case AddCalling(_) => true
    case AddBuilding(_) => true
    case AddReady(_) => true
    case RemoveLookup(_, o) => o.Remover?
    case RemoveWaiting(_, _, o) => o.Remover?
    case RemoveOwning(_, _, o) => o.Remover?
    case Disposing(_, _, o) => o.Remover? || o.Creator?
    case Leaving(_, o) => o.Remover?
    case ItemRunning => true
    case Exiting => true
    case _ => false
  }

  /** Where an operation goes when it has nothing left to undo. */
  function Exit(t: Thread): Thread {
    if Admitted(t) then Exiting else Finished
  }

  function Go(s: State, op: nat, t: Thread): State {
    s.(threads := s.threads[op := t])
  }

  function Put(s: State, g: nat, i: Instance): State
    requires g < |s.insts|
  {
    s.(insts := s.insts[g := i])
  }

  /** The handle of the instance that a group id stands for. */
  function HandleOf(s: State): nat -> nat {
    (g: nat) => if g < |s.insts| then s.insts[g].handle else 0
  }

  function Targeted(s: State): Targets {
    Snapshot(s.table, HandleOf(s))
  }

  predicate OpEnabled(s: State, op: nat, e: OpEvent) {
    if e.Arrive? then op !in s.threads && (e.t.AddIdle? || e.t.RemoveIdle? || e.t.ItemIdle? || e.t.CallIdle?)
    else
      && op in s.threads
      && var t := s.threads[op];
         match e
         case GiveUp =>
           || t.AddIdle? || t.AddOpening? || t.RemoveWaiting? || t.ItemIdle? || t.ItemRunning?
           || t.CallWaiting? || t.CallIdle? || (t.RemoveIdle? && s.table.closed)
         case Admission => (t.AddIdle? || t.RemoveIdle? || t.ItemIdle?) && !s.table.closed
         case OpDone => t.Exiting? && s.table.groupOps > 0
         case GateRelease => t.Leaving? && t.g < |s.insts|
         case ItemRpc => t.ItemRunning?
         case CallFind => t.CallIdle?
         case CallAcquire(_) => t.CallWaiting? && t.g < |s.insts| && s.insts[t.g].gate.None?
         case CallRpc => t.CallHolding?
         case CallFinish => t.CallHolding?
         case Arrive(_) => false
  }

  function OpApply(s: State, op: nat, e: OpEvent): State
    requires OpEnabled(s, op, e)
  {
    if e.Arrive? then Go(s, op, e.t)
    else
      var t := s.threads[op];
      match e
      case GiveUp => Go(s, op, Exit(t))
      case Admission =>
        Go(s.(table := Admit(s.table)), op,
           if t.AddIdle? then AddOpening else if t.RemoveIdle? then RemoveLookup(t.id, Remover) else ItemRunning)
      case OpDone => Go(s.(table := Done(s.table)), op, Finished)
      case GateRelease => Go(Put(s, t.g, s.insts[t.g].(gate := None)), op, Exit(t))
      case ItemRpc => s
      case CallFind =>
        Go(s, op, if t.id in s.table.groups then CallWaiting(s.table.groups[t.id]) else Finished)
      case CallAcquire(cancelled) =>
        var i := s.insts[t.g];
        Go(Put(s, t.g, i.(gate := Some(op))), op,
           if cancelled || i.closed then Leaving(t.g, Caller) else CallHolding(t.g))
      case CallRpc => s
      case CallFinish => Go(s, op, Leaving(t.g, Caller))
  }

  function NewInstance(op: nat, handle: nat): Instance {
    Instance(handle, op, 0, 0, NoPin, Building(op), None, None, false, Unsent)
  }

  function BeginDisposal(s: State, op: nat, g: nat, owner: Owner): State
    requires g < |s.insts|
  {
    Go(Put(s, g, s.insts[g].(phase := Disposal(op))), op, Disposing(g, Releasing, owner))
  }

  /** The pinger, the pin and the success of taking the keepalive reference of a new group. */
  function PinResult(s: State, g: nat, noPing: bool, a: Attempt): (Option<Ping>, Pin, bool)
    requires g < |s.insts|
  {
    var pin := s.insts[g].pin;
    if noPing then (s.pinger, pin, true)
    else if s.pinger.None? then (None, pin, false)
    else
      var (p, ok) := Retain(s.pinger.value, s.insts[g].oid, a);
      (Some(p), if ok then Pinned else pin, ok)
  }

  /** A group whose keepalive reference cannot be taken is disposed of. */
  function PinStep(s: State, op: nat, g: nat, noPing: bool, a: Attempt): State
    requires g < |s.insts|
  {
    var (pinger, pin, ok) := PinResult(s, g, noPing, a);
    var i := s.insts[g].(pin := pin);
    Go(Put(s.(pinger := pinger), g, if ok then i else i.(phase := Disposal(op))), op,
       if ok then AddReady(g) else Disposing(g, Releasing, Creator))
  }

  function RegisterStep(s: State, op: nat, g: nat): State
    requires g < |s.insts|
  {
    if CanRegister(s.table) then
      var id := s.table.nextGroupID + 1;
      Go(Put(s.(table := Register(s.table, g)), g, s.insts[g].(phase := Registered(id), id := Some(id))), op, Exiting)
    else BeginDisposal(s, op, g, Creator)
  }

  predicate AddEnabled(s: State, op: nat, e: AddEvent) {
    && op in s.threads
    && var t := s.threads[op];
       match e
       case AddDispatch => t.AddOpening?
       case ServerCreate(h) => t == AddCalling(None) && h !in s.live
       case AddAnswered => t.AddCalling? && t.created.Some?
       case AddFailed => t.AddCalling?
       case BuildReference(_) => t.AddBuilding? && t.g < |s.insts| && s.insts[t.g].refs == 0
       case BuildInterfaces(found) => t.AddBuilding? && t.g < |s.insts| && s.insts[t.g].refs == 1 && found <= 2
       case BuildPin(_, _) => t.AddBuilding? && t.g < |s.insts| && s.insts[t.g].refs == 3
       case BuildFailed => (t.AddBuilding? || t.AddReady?) && t.g < |s.insts|
       case RegisterReady => t.AddReady? && t.g < |s.insts|
  }

  function AddApply(s: State, op: nat, e: AddEvent): State
    requires AddEnabled(s, op, e)
  {
    var t := s.threads[op];
    match e
    case AddDispatch => Go(s, op, AddCalling(None))
    case ServerCreate(h) => Go(s.(live := s.live[h := Creating(op)]), op, AddCalling(Some(h)))
    case AddAnswered =>
      var h := t.created.value;
      var g := |s.insts|;
      Go(s.(insts := s.insts + [NewInstance(op, h)], live := s.live[h := Owned(g)]), op, AddBuilding(g))
    case AddFailed =>
      Go(if t.created.Some? then s.(live := s.live[t.created.value := Unknown]) else s, op, Exiting)
    case BuildReference(oid) => Put(s, t.g, s.insts[t.g].(refs := 1, oid := oid))
    case BuildInterfaces(found) =>
      var r := Put(s, t.g, s.insts[t.g].(refs := 1 + found));
      if found == 2 then r else BeginDisposal(r, op, t.g, Creator)
    case BuildPin(noPing, a) => PinStep(s, op, t.g, noPing, a)
    case BuildFailed => BeginDisposal(s, op, t.g, Creator)
    case RegisterReady => RegisterStep(s, op, t.g)
  }

  /** The pinger and the pin after the keepalive release of a disposal. */
  function UnpinResult(s: State, g: nat, a: Attempt): (Option<Ping>, Pin)
    requires g < |s.insts|
  {
    var i := s.insts[g];
    if !i.pin.Pinned? then (s.pinger, i.pin)
    else if s.pinger.None? then (None, Unpinned)
    else
      var (p, ok) := Release(s.pinger.value, i.oid, a);
      (Some(p), if ok then Unpinned else PinLost)
  }

  /** The keepalive release and the end of disposeGroup. */
  function UnpinStep(s: State, op: nat, g: nat, owner: Owner, a: Attempt): State
    requires g < |s.insts|
  {
    var (pinger, pin) := UnpinResult(s, g, a);
    Go(Put(s.(pinger := pinger), g, s.insts[g].(phase := Disposed, pin := pin)), op,
       if owner.Creator? then Exiting else Leaving(g, owner))
  }

  predicate RemoveEnabled(s: State, op: nat, e: RemoveEvent) {
    && op in s.threads
    && var t := s.threads[op];
       match e
       case RemoveFind => t.RemoveLookup?
       case RemoveAcquire(_) => t.RemoveWaiting? && t.g < |s.insts| && s.insts[t.g].gate.None?
       case RemoveUnregister => t.RemoveOwning? && t.g < |s.insts|
       case DisposeRelease => t.Disposing? && t.stage.Releasing?
       case DisposeRemove => t.Disposing? && t.stage.Removing? && t.g < |s.insts|
       case DisposeReply(removed) =>
         && t.Disposing? && t.stage.Awaiting? && t.g < |s.insts|
         && (removed ==> s.insts[t.g].request == Executed(true))
       case DisposeBook => t.Disposing? && t.stage.Booking? && t.g < |s.insts|
       case DisposeUnpin(_) => t.Disposing? && t.stage.Unpinning? && t.g < |s.insts|
  }

  function RemoveApply(s: State, op: nat, e: RemoveEvent): State
    requires RemoveEnabled(s, op, e)
  {
    var t := s.threads[op];
    match e
    case RemoveFind =>
      Go(s, op, if t.id in s.table.groups then RemoveWaiting(t.id, s.table.groups[t.id], t.owner) else Exit(t))
    case RemoveAcquire(cancelled) =>
      var i := s.insts[t.g];
      Go(Put(s, t.g, i.(gate := Some(op))), op,
         if cancelled || i.closed then Leaving(t.g, t.owner) else RemoveOwning(t.id, t.g, t.owner))
    case RemoveUnregister =>
      var r := Put(s.(table := Unregister(s.table, t.id)), t.g, s.insts[t.g].(closed := true));
      BeginDisposal(r, op, t.g, t.owner)
    case DisposeRelease => Go(s, op, t.(stage := Removing))
    case DisposeRemove => Go(Put(s, t.g, s.insts[t.g].(request := InFlight)), op, t.(stage := Awaiting))
    case DisposeReply(removed) => Go(s, op, t.(stage := Booking(removed)))
    case DisposeBook =>
      Go(s.(table := Book(s.table, s.insts[t.g].handle, t.stage.removed)), op, t.(stage := Unpinning))
    case DisposeUnpin(a) => UnpinStep(s, op, t.g, t.owner, a)
  }

  predicate ServerEnabled(s: State, e: ServerEvent) {
    match e
    case ServerRemove(g) => g < |s.insts| && s.insts[g].request.InFlight?
    case ServerReplay(h) => h in s.replays && s.replays[h].InFlight?
    case ServerOther(h, made) => if made then h !in s.live else h in s.live && s.live[h].Unknown?
    case PingLoopFailed => s.pinger.Some?
  }

  function ServerApply(s: State, e: ServerEvent): State
    requires ServerEnabled(s, e)
  {
    match e
    case ServerRemove(g) =>
      var i := s.insts[g];
      Put(s.(live := s.live - {i.handle}), g, i.(request := Executed(i.handle in s.live)))
    case ServerReplay(h) => s.(live := s.live - {h}, replays := s.replays[h := Executed(h in s.live)])
    case ServerOther(h, made) => s.(live := if made then s.live[h := Unknown] else s.live - {h})
    case PingLoopFailed => s.(pinger := Some(PingFailed(s.pinger.value)))
  }

  predicate CloseEnabled(s: State, e: CloseEvent) {
    var c := s.closer;
    match e
    case CloseBegin => c.Idle? && !s.table.closed
    case CloseTimeout => c.Draining?
    case CloseDrained => (c.Draining? || c.TimedOut?) && s.table.groupOps == 0
    case CloseSnapshot => c.Drained?
    case ReplaySend(h) => c.Replaying? && h in c.pend
    case ReplayDone => c.Replaying? && c.pend == {}
    case TeardownStart(id, worker) => c.RemovingGroups? && c.current.None? && id in c.ids && worker !in s.threads
    case TeardownNext =>
      c.RemovingGroups? && c.current.Some? && c.current.value in s.threads && s.threads[c.current.value].Finished?
    case TeardownDone => c.RemovingGroups? && c.current.None? && c.ids == {}
    case CloseReleaseServer => c.ReleasingServer?
    case CloseStopPing => c.StoppingPing?
    case CloseTransport => c.ClosingTransport?
  }

  function CloseApply(s: State, e: CloseEvent): State
    requires CloseEnabled(s, e)
  {
    var c := s.closer;
    match e
    case CloseBegin => s.(table := BeginClose(s.table), closer := Draining)
    case CloseTimeout => s.(closer := TimedOut)
    case CloseDrained => s.(closer := if c.Draining? then Drained else StoppingPing)
    case CloseSnapshot => s.(closer := Replaying(Targeted(s).replays, Targeted(s).ids))
    case ReplaySend(h) => s.(closer := c.(pend := c.pend - {h}), replays := s.replays[h := InFlight])
    case ReplayDone => s.(closer := RemovingGroups(c.ids, None))
    case TeardownStart(id, worker) =>
      Go(s.(closer := RemovingGroups(c.ids - {id}, Some(worker))), worker, RemoveLookup(id, Teardown))
    case TeardownNext => s.(closer := c.(current := None))
    case TeardownDone => s.(closer := ReleasingServer)
    case CloseReleaseServer => s.(closer := StoppingPing)
    case CloseStopPing => s.(closer := ClosingTransport, pinger := None)
    case CloseTransport => s.(closer := TransportClosed)
  }

  predicate Enabled(s: State, e: Event) {
    match e
    case Op(op, o) => OpEnabled(s, op, o)
    case Add(op, a) => AddEnabled(s, op, a)
    case Remove(op, r) => RemoveEnabled(s, op, r)
    case Server(v) => ServerEnabled(s, v)
    case Close(c) => CloseEnabled(s, c)
  }

  function Apply(s: State, e: Event): State
    requires Enabled(s, e)
  {
    match e
    case Op(op, o) => OpApply(s, op, o)
    case Add(op, a) => AddApply(s, op, a)
    case Remove(op, r) => RemoveApply(s, op, r)
    case Server(v) => ServerApply(s, v)
    case Close(c) => CloseApply(s, c)
  }

  /** A session just after startKeepalive: the server object is in the ping set unless it asked
      not to be pinged. */
  ghost predicate Initial(s: State) {
    && s.table == NewTable()
    && s.insts == [] && s.threads == map[] && s.closer.Idle? && s.live == map[] && s.replays == map[]
    && s.pinger.Some?
    && (s.retained ==> s.serverOid != 0)
    && s.pinger.value.objects == (if s.retained then map[s.serverOid := 1] else map[])
    && Consistent(s.pinger.value)
  }

  /** A run: the states s0, s1, ... visited by a sequence of events. */
  ghost predicate IsRun(ss: seq<State>, es: seq<Event>) {
    && |ss| == |es| + 1
    && Initial(ss[0])
    && forall i :: 0 <= i < |es| ==> Enabled(ss[i], es[i]) && ss[i + 1] == Apply(ss[i], es[i])
  }
}
