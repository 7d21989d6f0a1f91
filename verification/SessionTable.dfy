/** The fields of a session that its mutex protects: the closed flag, the groups by local id,
    the table of pending removals, the last local id and the count of admitted operations.

    Each lock section of group_dcom.go, rpc.go and keepalive.go is a method of the class
    Session, proved against a function on Table.  The step machine in Protocol uses the same
    functions, so what is proved there is about these lock sections. */
module SessionTable {
  import opened Collections

  datatype Table<G> = Table(
    closed: bool,
    groups: map<nat, G>,
    pending: set<nat>,        // remote handles whose removal is not confirmed
    nextGroupID: nat,
    groupOps: nat             // admitted operations that have not called Done
  )

  /** The largest value of a 64-bit int. */
  const MAX_INT := 0x7fff_ffff_ffff_ffff

  function NewTable<G>(): Table<G> {
    Table(false, map[], {}, 0, 0)
  }

  function Admit<G>(t: Table<G>): Table<G> {
    if t.closed then t else t.(groupOps := t.groupOps + 1)
  }

  function Done<G>(t: Table<G>): Table<G>
    requires t.groupOps > 0
  {
    t.(groupOps := t.groupOps - 1)
  }

  predicate CanRegister<G>(t: Table<G>) {
    !t.closed && t.nextGroupID != MAX_INT
  }

  function Register<G>(t: Table<G>, g: G): Table<G> {
    if CanRegister(t) then
      t.(nextGroupID := t.nextGroupID + 1, groups := t.groups[t.nextGroupID + 1 := g])
    else t
  }

  function Unregister<G>(t: Table<G>, id: nat): Table<G> {
    t.(groups := t.groups - {id})
  }

  /** The book-keeping after RemoveGroup: a failure is remembered by remote handle, a success
      forgets whatever was remembered for that handle. */
  function Book<G>(t: Table<G>, handle: nat, removed: bool): Table<G> {
    t.(pending := if removed then t.pending - {handle} else t.pending + {handle})
  }

  function BeginClose<G>(t: Table<G>): Table<G> {
    t.(closed := true)
  }

  /** What teardown sets out to remove: groups by local id, and handles of earlier removals. */
  datatype Targets = Targets(ids: set<nat>, replays: set<nat>)

  function ActiveHandles<G>(t: Table<G>, handle: G -> nat): set<nat> {
    set id | id in t.groups :: handle(t.groups[id])
  }

  /** A pending handle that a registered group owns by now is left to the removal of that group. */
  function Snapshot<G>(t: Table<G>, handle: G -> nat): Targets {
    Targets(t.groups.Keys, t.pending - ActiveHandles(t, handle))
  }

  class GroupRef {
    const handle: nat

    constructor (handle: nat)
      ensures this.handle == handle
    {
      this.handle := handle;
    }
  }

  function RefHandle(g: GroupRef): nat {
    g.handle
  }

  class Session {
    var closed: bool
    var groups: map<nat, GroupRef>
    var pendingRemovals: set<nat>
    var nextGroupID: nat
    var groupOps: nat

    ghost function View(): Table<GroupRef>
      reads this
    {
      Table(closed, groups, pendingRemovals, nextGroupID, groupOps)
    }

    constructor ()
      ensures View() == NewTable()
    {
      closed, groups, pendingRemovals, nextGroupID, groupOps := false, map[], {}, 0, 0;
    }

    /** The admission section shared by addGroup, removeGroup and beginObjectOperation. */
    method TryAdmit() returns (ok: bool)
      modifies this
      ensures View() == Admit(old(View())) && ok == !old(closed)
    {
      if closed {
        return false;
      }
      groupOps := groupOps + 1;
      return true;
    }

    method OperationDone()
      requires groupOps > 0
      modifies this
      ensures View() == Done(old(View()))
    {
      groupOps := groupOps - 1;
    }

    method GetGroup(id: nat) returns (g: GroupRef?)
      ensures g != null <==> id in groups
      ensures g != null ==> g == groups[id]
    {
      if id in groups {
        return groups[id];
      }
      return null;
    }

    /** The new id, or 0 when registration is refused. */
    method RegisterGroup(g: GroupRef) returns (id: nat)
      modifies this
      ensures View() == Register(old(View()), g)
      ensures id == if CanRegister(old(View())) then old(nextGroupID) + 1 else 0
    {
      if closed || nextGroupID == MAX_INT {
        return 0;
      }
      nextGroupID := nextGroupID + 1;
      groups := groups[nextGroupID := g];
      return nextGroupID;
    }

    method UnregisterGroup(id: nat)
      modifies this
      ensures View() == Unregister(old(View()), id)
    {
      groups := groups - {id};
    }

    method BookRemoval(handle: nat, removed: bool)
      modifies this
      ensures View() == Book(old(View()), handle, removed)
    {
      if !removed {
        pendingRemovals := pendingRemovals + {handle};
      } else {
        pendingRemovals := pendingRemovals - {handle};
      }
    }

    /** The section that starts teardown; a second close does nothing. */
    method StartClose() returns (first: bool)
      modifies this
      ensures View() == BeginClose(old(View())) && first == !old(closed)
    {
      if closed {
        return false;
      }
      closed := true;
      return true;
    }

    /** The section that fixes what teardown will remove, each target once. */
    method TeardownTargets() returns (ids: seq<nat>, replays: seq<nat>)
      ensures Distinct(ids) && Distinct(replays)
      ensures Targets(Elements(ids), Elements(replays)) == Snapshot(View(), RefHandle)
    {
      ids, replays := [], [];
      var active: set<nat> := {};
      var rest := groups.Keys;
      while rest != {}
        invariant rest <= groups.Keys
        invariant Distinct(ids) && Elements(ids) == groups.Keys - rest
        invariant active == set id | id in groups && id !in rest :: groups[id].handle
      {
        var id :| id in rest;
        assert id !in Elements(ids);
        assert Elements(ids + [id]) == Elements(ids) + {id};
        ids := ids + [id];
        active := active + {groups[id].handle};
        rest := rest - {id};
      }
      assert active == ActiveHandles(View(), RefHandle);
      var waiting := pendingRemovals;
      while waiting != {}
        invariant waiting <= pendingRemovals
        invariant Distinct(replays) && Elements(replays) == pendingRemovals - waiting - active
      {
        var h :| h in waiting;
        if h !in active {
          assert h !in Elements(replays);
          assert Elements(replays + [h]) == Elements(replays) + {h};
          replays := replays + [h];
        }
        waiting := waiting - {h};
      }
    }
  }
}
