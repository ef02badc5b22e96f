/** The consumer driver's object: what it does to its table in place, against the
    functions of the Consumer module. */
module Drivers {
  import opened Ids
  import opened Ownerships
  import S = Consumer
  import C = Cluster
  import M = ClusterMaps
  import L = DriverLoop

  datatype ActiveGrant = ActiveGrant(grant: RawGrant, ownership: Ownership, revoked: bool)

  // ---------- The object ----------

  datatype OwnUpdate =
    | Activate | Revoke | Expire | CounterpartLoaded | CounterpartUnloaded
    | SetExpiration(deadline: Time)

  function Updated(o: S.Own, u: OwnUpdate): S.Own {
    match u
    case Activate => o.(active := true)
    case Revoke => o.(revoked := true)
    case Expire => o.(expired := true)
    case CounterpartLoaded => o.(loaded := true)
    case CounterpartUnloaded => o.(unloaded := true)
    case SetExpiration(deadline) => o.(deadline := deadline)
  }

  method Deliver(o: Ownership, u: OwnUpdate)
    modifies o
    ensures o.View() == Updated(old(o.View()), u)
  {
    match u {
      case Activate => o.Activate();
      case Revoke => o.Revoke();
      case Expire => o.Expire();
      case CounterpartLoaded => o.CounterpartLoaded();
      case CounterpartUnloaded => o.CounterpartUnloaded();
      case SetExpiration(deadline) => o.SetExpiration(deadline);
    }
  }

  function Listed<T>(m: map<GrantId, seq<T>>, id: GrantId): seq<T> { if id in m then m[id] else [] }

  function Appended<T>(m: map<GrantId, seq<T>>, id: GrantId, x: T): map<GrantId, seq<T>> {
    m[id := Listed(m, id) + [x]]
  }

  lemma AppendedState(s: S.State, id: GrantId, o: S.Own)
    requires S.TableOk(s)
    ensures S.TableOk(s.(owned := Appended(s.owned, id, o)))
    ensures Appended(s.owned, id, o) == s.owned[id := S.Issued(s, id) + [o]]
  {}

  predicate Within(list: seq<Ownership>, repr: set<Ownership>) {
    forall n :: 0 <= n < |list| ==> list[n] in repr
  }

  /** The objects handed out for `id` are what the table's history says. */
  ghost predicate Backed(list: seq<Ownership>, owned: seq<S.Own>, id: GrantId)
    reads set n | 0 <= n < |list| :: list[n]
  {
    |list| == |owned| && forall n :: 0 <= n < |list| ==> Backs(list[n], owned[n], id, n)
  }

  ghost predicate Backs(o: Ownership, own: S.Own, id: GrantId, n: nat)
    reads o
  {
    o.origin == (id, n) && o.View() == own
  }

  /** The entry of the table is what the history says. */
  ghost predicate Recorded(e: ActiveGrant, entry: S.Entry, list: seq<Ownership>) {
    && entry.inc < |list| && list[entry.inc] == e.ownership
    && entry == S.Entry(e.grant, entry.inc, e.revoked)
  }

  lemma BackedSnoc(list: seq<Ownership>, owned: seq<S.Own>, id: GrantId, o: Ownership)
    requires Backed(list, owned, id) && o.origin == (id, |list|)
    ensures Backed(list + [o], owned + [o.View()], id)
  {
    forall n: nat | n < |list + [o]| ensures Backs((list + [o])[n], (owned + [o.View()])[n], id, n) {
      if n < |list| { assert Backs(list[n], owned[n], id, n); }
    }
  }

  lemma RecordedSnoc(e: ActiveGrant, entry: S.Entry, list: seq<Ownership>, o: Ownership)
    requires Recorded(e, entry, list)
    ensures Recorded(e, entry, list + [o])
  {}

  class Driver {
    var grants: map<GrantId, ActiveGrant>
    var cluster: M.ClusterMap
    var frames: seq<L.Frame>
    var shutdown: bool
    var heartbeat: Option<Time>
    var closed: bool
    /** Every Ownership handed out so far, as its timer holds it. */
    var issued: map<GrantId, seq<Ownership>>
    /** The state of the Consumer module that the fields, and every Ownership ever
        handed out, amount to. */
    ghost var state: S.State
    ghost var repr: set<Ownership>

    ghost predicate BackedAt(id: GrantId)
      reads this`issued, this`state, this`repr, repr
      requires id in issued && id in state.owned
    {
      Within(issued[id], repr) && Backed(issued[id], state.owned[id], id)
    }

    ghost predicate RecordedAt(id: GrantId)
      reads this`grants, this`issued, this`state
      requires id in grants && id in state.table
    {
      id in issued && Recorded(grants[id], state.table[id], issued[id])
    }

    ghost predicate Valid()
      reads this`grants, this`issued, this`state, this`repr, this`closed, repr
    {
      && S.TableOk(state) && state.closed == closed
      && grants.Keys == state.table.Keys
      && issued.Keys == state.owned.Keys
      && (forall id {:trigger BackedAt(id)} :: id in issued ==> BackedAt(id))
      && (forall id {:trigger RecordedAt(id)} :: id in grants ==> RecordedAt(id))
    }

    constructor ()
      ensures Valid() && state == S.EMPTY && repr == {} && frames == [] && !shutdown && heartbeat == None
      ensures fresh(cluster) && cluster.View() == C.EMPTY
    {
      grants, frames, shutdown, heartbeat, closed := map[], [], false, None, false;
      state, issued, repr := S.EMPTY, map[], {};
      cluster := new M.ClusterMap(C.EMPTY);
    }

    /** Passes one of the driver's updates on to the Ownership of an entry. */
    method Signal(id: GrantId, u: OwnUpdate)
      requires Valid() && id in grants
      modifies this`state, repr
      ensures Valid()
      ensures state == S.SetOwn(old(state), id, old(state).table[id].inc, Updated(S.OwnOf(old(state), id), u))
    {
      assert RecordedAt(id) && BackedAt(id);
      Update(grants[id].ownership, id, state.table[id].inc, u);
    }

    /** The timer of an Ownership fires. */
    method FireTimer(id: GrantId, inc: nat)
      requires Valid()
      modifies this`state, repr
      ensures Valid()
      ensures state == S.OnTimer(old(state), id, inc)
    {
      if id in issued {
        assert BackedAt(id);
        if inc < |issued[id]| { Update(issued[id][inc], id, inc, Expire); }
      }
    }

    /** Changes the `inc`-th Ownership of `id`. */
    method Update(o: Ownership, ghost id: GrantId, ghost inc: nat, u: OwnUpdate)
      requires Valid() && id in issued && inc < |issued[id]| && issued[id][inc] == o
      requires inc < |S.Issued(state, id)|
      modifies this`state, repr
      ensures Valid()
      ensures state == S.SetOwn(old(state), id, inc, Updated(S.Issued(old(state), id)[inc], u))
    {
      assert BackedAt(id) && Backs(o, state.owned[id][inc], id, inc);
      Deliver(o, u);
      state := S.SetOwn(state, id, inc, Updated(S.Issued(state, id)[inc], u));
      forall j | j in issued ensures BackedAt(j) {
        assert old(BackedAt(j));
        forall n: nat | n < |issued[j]| ensures Backs(issued[j][n], state.owned[j][n], j, n) {
          assert old(Backs(issued[j][n], state.owned[j][n], j, n));
          assert issued[j][n] == o ==> j == id && n == inc;
        }
      }
      forall j | j in grants ensures RecordedAt(j) { assert old(RecordedAt(j)); }
    }

    method RemoveGrant(id: GrantId)
      requires Valid()
      modifies this`grants, this`state, repr
      ensures Valid()
      ensures state == S.RemoveGrant(old(state), id) && grants == old(grants) - {id}
    {
      if id in grants {
        Signal(id, Expire);
        Forget(id);
      }
    }

    /** Takes an entry out of the table, and announces it. */
    method Forget(id: GrantId)
      requires Valid()
      modifies this`grants, this`state
      ensures Valid() && grants == old(grants) - {id}
      ensures state == old(state).(table := old(state).table - {id}, events := old(state).events + [S.Removed(id)])
    {
      state := state.(table := state.table - {id}, events := state.events + [S.Removed(id)]);
      grants := grants - {id};
      forall j | j in issued ensures BackedAt(j) { assert old(BackedAt(j)); }
      forall j | j in grants ensures RecordedAt(j) { assert old(RecordedAt(j)); }
    }

    /** Makes room for another Assign of `id`. */
    method Displace(id: GrantId)
      requires Valid()
      modifies this`grants, this`state, repr
      ensures Valid() && id !in grants
      ensures state == S.Step(old(state), S.IRemove(id))
    {
      if id in grants { RemoveGrant(id); }
    }

    method Adopt(o: Ownership)
      requires Valid()
      modifies this`repr
      ensures Valid() && repr == old(repr) + {o}
    {
      repr := repr + {o};
      forall j | j in issued ensures BackedAt(j) { assert old(BackedAt(j)); }
      forall j | j in grants ensures RecordedAt(j) { assert old(RecordedAt(j)); }
    }

    /** Records an Ownership just made for the next Assign of `id`. */
    method Enrol(id: GrantId, o: Ownership)
      requires Valid() && o in repr && o.origin == (id, |S.Issued(state, id)|)
      modifies this`state, this`issued
      ensures Valid()
      ensures id in issued && |issued[id]| == o.origin.1 + 1 && issued[id][o.origin.1] == o
      ensures state == old(state).(owned := old(state).owned[id := S.Issued(old(state), id) + [o.View()]])
    {
      ghost var list, owned := Listed(issued, id), S.Issued(state, id);
      if id in issued { assert BackedAt(id); }
      BackedSnoc(list, owned, id, o);
      AppendedState(state, id, o.View());
      issued := Appended(issued, id, o);
      state := state.(owned := Appended(state.owned, id, o.View()));
      forall j | j in issued ensures BackedAt(j) {
        if j in old(issued) { assert old(BackedAt(j)); }
      }
      forall j | j in grants ensures RecordedAt(j) {
        assert old(RecordedAt(j));
        if j == id { RecordedSnoc(grants[j], state.table[j], list, o); }
      }
    }

    /** Takes charge of an Ownership just made for the next Assign of `id`. */
    method Hire(id: GrantId, o: Ownership)
      requires Valid() && o.origin == (id, |S.Issued(state, id)|)
      modifies this`state, this`issued, this`repr
      ensures Valid() && repr == old(repr) + {o} && grants == old(grants)
      ensures id in issued && issued[id] != [] && issued[id][|issued[id]| - 1] == o
      ensures |issued[id]| == |S.Issued(old(state), id)| + 1
      ensures state == old(state).(owned := old(state).owned[id := S.Issued(old(state), id) + [o.View()]])
    {
      Adopt(o);
      Enrol(id, o);
    }

    /** Sets the entry of `id` to one of the Ownerships issued for it. */
    method PutEntry(id: GrantId, e: ActiveGrant, ghost inc: nat)
      requires Valid() && id in issued && Recorded(e, S.Entry(e.grant, inc, e.revoked), issued[id])
      modifies this`grants, this`state
      ensures Valid() && grants == old(grants)[id := e]
      ensures state == old(state).(table := old(state).table[id := S.Entry(e.grant, inc, e.revoked)])
    {
      assert BackedAt(id);
      state := state.(table := state.table[id := S.Entry(e.grant, inc, e.revoked)]);
      grants := grants[id := e];
      forall j | j in issued ensures BackedAt(j) { assert old(BackedAt(j)); }
      forall j | j in grants ensures RecordedAt(j) { if j != id { assert old(RecordedAt(j)); } }
    }

    /** Broadcasts an event. */
    method Announce(ghost event: S.GrantEvent)
      requires Valid()
      modifies this`state
      ensures Valid() && state == old(state).(events := old(state).events + [event])
    {
      state := state.(events := state.events + [event]);
      forall j | j in issued ensures BackedAt(j) { assert old(BackedAt(j)); }
      forall j | j in grants ensures RecordedAt(j) { assert old(RecordedAt(j)); }
    }

    /** Adds a table entry for the Ownership enrolled last, and announces it. */
    method Enter(g: RawGrant, shard: Shard, o: Ownership, isRevoked: bool)
      requires Valid() && g.id !in grants
      requires g.id in issued && issued[g.id] != [] && issued[g.id][|issued[g.id]| - 1] == o
      modifies this`grants, this`state
      ensures Valid()
      ensures state == old(state).(
                table := old(state).table[g.id := S.Entry(g, |issued[g.id]| - 1, isRevoked)],
                events := old(state).events + [S.Assigned(g.id, shard, |issued[g.id]| - 1)])
    {
      PutEntry(g.id, ActiveGrant(g, o, isRevoked), |issued[g.id]| - 1);
      Announce(S.Assigned(g.id, shard, |issued[g.id]| - 1));
    }

    method Issue(g: RawGrant, shard: Shard, deadline: Time, now: Time)
      requires Valid() && g.id !in grants
      modifies this`grants, this`state, this`issued, this`repr
      ensures Valid() && fresh(repr - old(repr))
      ensures state == S.Issue(old(state), g, shard, deadline, now)
    {
      var grantState := GrantStateFromI32(g.state);
      var o := new Ownership(grantState, deadline, now, (g.id, |S.Issued(state, g.id)|));
      Hire(g.id, o);
      Enter(g, shard, o, S.StartsRevoked(grantState));
    }

    method OnPromote(g: RawGrant)
      requires Valid()
      modifies this`grants, this`state, repr
      ensures Valid()
      ensures state == S.OnPromote(old(state), g)
    {
      if g.id in grants {
        Signal(g.id, Activate);
        assert RecordedAt(g.id);
        SetEntry(g.id, grants[g.id].(grant := g));
      }
    }

    method OnRevoke(g: RawGrant)
      requires Valid()
      modifies this`grants, this`state, repr
      ensures Valid()
      ensures state == S.OnRevoke(old(state), g)
    {
      if g.id in grants {
        SetEntry(g.id, grants[g.id].(grant := g, revoked := true));
        if g.lease.Some? { Signal(g.id, SetExpiration(g.lease.value)); }
        Signal(g.id, Revoke);
        RevokeInSteps(old(state), g);
      }
    }

    /** Rewrites the grant and the flag of an entry. */
    method SetEntry(id: GrantId, e: ActiveGrant)
      requires Valid() && id in grants && e.ownership == grants[id].ownership
      modifies this`grants, this`state
      ensures Valid()
      ensures grants == old(grants)[id := e]
      ensures state == old(state).(table :=
                         old(state).table[id := S.Entry(e.grant, old(state).table[id].inc, e.revoked)])
    {
      assert RecordedAt(id);
      PutEntry(id, e, state.table[id].inc);
    }

    method OnNotify(update: Option<RawGrant>, target: Option<RawGrant>)
      requires Valid()
      modifies this`state, repr
      ensures Valid()
      ensures state == S.OnNotify(old(state), update, target)
    {
      if target.None? || update.None? { return; }
      var id := target.value.id;
      var updateState := GrantStateFromI32(update.value.state);
      if id !in grants { return; }
      match updateState {
        case AllocatedLoaded => Signal(id, CounterpartLoaded);
        case RevokedUnloaded => Signal(id, CounterpartUnloaded);
        case _ =>
      }
    }

    method ExtendOne(id: GrantId, lease: Time, ghost before: S.State, ghost left: set<GrantId>)
      requires Valid() && id in grants && id in left
      requires S.TableOk(before) && state == ExtendedBut(before, left, lease)
      modifies this`state, repr
      ensures Valid()
      ensures state == ExtendedBut(before, left - {id}, lease)
    {
      assert RecordedAt(id);
      ExtendNext(before, left, lease, id);
      if !grants[id].revoked { Signal(id, SetExpiration(lease)); }
    }

    /** The entries may be visited in any order. */
    method OnExtend(lease: Option<Time>)
      requires Valid()
      modifies this`state, repr
      ensures Valid()
      ensures state == S.OnExtend(old(state), lease)
    {
      if lease.None? { return; }
      ghost var before := state;
      var left := grants.Keys;
      ExtendStarts(before, lease.value);
      while left != {}
        invariant Valid() && left <= grants.Keys
        invariant state == ExtendedBut(before, left, lease.value)
        decreases |left|
      {
        var id :| id in left;
        ExtendOne(id, lease.value, before, left);
        left := left - {id};
      }
      ExtendEnds(before, lease.value);
    }

    /** Closes the driver's latch. */
    method Close()
      requires Valid()
      modifies this`state, this`closed
      ensures Valid() && closed
      ensures state == S.Step(old(state), S.IClose)
    {
      closed := true;
      state := state.(closed := true);
      forall j | j in issued ensures BackedAt(j) { assert old(BackedAt(j)); }
      forall j | j in grants ensures RecordedAt(j) { assert old(RecordedAt(j)); }
    }
  }

  // ---------- The same effects, step by step ----------

  lemma RevokeInSteps(s: S.State, g: RawGrant)
    requires S.TableOk(s) && g.id in s.table
    ensures var inc := s.table[g.id].inc;
            var s1 := s.(table := s.table[g.id := S.Entry(g, inc, true)]);
            var o := S.OwnOf(s, g.id);
            var moved := if g.lease.Some? then S.SetOwn(s1, g.id, inc, o.(deadline := g.lease.value)) else s1;
            var moved' := if g.lease.Some? then o.(deadline := g.lease.value) else o;
            S.SetOwn(moved, g.id, inc, moved'.(revoked := true)) == S.OnRevoke(s, g)
  {
    var inc := s.table[g.id].inc;
    var o := S.OwnOf(s, g.id);
    if g.lease.Some? {
      var a := o.(deadline := g.lease.value);
      assert S.Issued(s, g.id)[inc := a][inc := a.(revoked := true)] == S.Issued(s, g.id)[inc := a.(revoked := true)];
    }
  }

  /** An Extend before it reached the entries of `left`. */
  ghost function ExtendedBut(s: S.State, left: set<GrantId>, lease: Time): S.State
    requires S.TableOk(s)
  {
    s.(owned := map id | id in s.owned :: if id in left then s.owned[id] else S.Extended(s, id, lease))
  }

  lemma ExtendStarts(s: S.State, lease: Time)
    requires S.TableOk(s)
    ensures ExtendedBut(s, s.table.Keys, lease) == s
  {
    assert ExtendedBut(s, s.table.Keys, lease).owned == s.owned;
  }

  lemma ExtendEnds(s: S.State, lease: Time)
    requires S.TableOk(s)
    ensures ExtendedBut(s, {}, lease) == S.OnExtend(s, Some(lease))
  {
    assert ExtendedBut(s, {}, lease).owned == S.OnExtend(s, Some(lease)).owned;
  }

  lemma ExtendNext(s: S.State, left: set<GrantId>, lease: Time, id: GrantId)
    requires S.TableOk(s) && id in left && id in s.table
    ensures var t := ExtendedBut(s, left, lease);
            && S.Issued(t, id) == S.Issued(s, id)
            && ExtendedBut(s, left - {id}, lease) ==
               if s.table[id].revoked then t
               else S.SetOwn(t, id, s.table[id].inc, S.Issued(t, id)[s.table[id].inc].(deadline := lease))
  {
    var t := ExtendedBut(s, left, lease);
    var u := ExtendedBut(s, left - {id}, lease);
    assert id in s.owned;
    assert u.owned == t.owned[id := S.Extended(s, id, lease)];
  }
}
