/** The snapshot object. `Apply` works on a copy; the steps on the copy change it
    in place, and may leave it half done when they fail. */
module ClusterMaps {
  import opened Ids
  import C = Cluster
  import Exact = ClusterExact
  import L = Lookup
  import Laws = ClusterLaws
  import Assigns = ClusterAssignLaws

  class ClusterMap {
    var id: C.ClusterId
    var consumers: map<InstanceId, C.ConsumerEntry>
    var grants: map<GrantId, C.GrantEntry>
    var shards: seq<Shard>

    function View(): C.Map
      reads this
    {
      C.Map(id, consumers, grants, shards)
    }

    constructor (from: C.Map)
      ensures View() == from
    {
      id, consumers, grants, shards := from.id, from.consumers, from.grants, from.shards;
    }

    method ApplyAssignment(a: C.Assignment) returns (error: Option<ClientError>)
      modifies this
      ensures C.Outcome(View(), error) == C.ApplyAssignment(old(View()), a)
      ensures if Assigns.ReadableAssignment(a) then error.None? && Assigns.AssignedBy(old(View()), [a], View())
              else error == Some(InvalidMessage)
    {
      Assigns.OneAssigned(View(), a);
      if a.consumer.None? { return Some(InvalidMessage); }
      var decoded := DecodeInstance(a.consumer.value);
      if decoded.Err? { return Some(decoded.error); }
      var consumer := decoded.value;
      var cid := consumer.id;
      if cid !in consumers {
        consumers := consumers[cid := C.ConsumerEntry(consumer, [])];
      }
      ghost var listed := View();
      assert listed == C.WithConsumer(old(View()), consumer);
      var n := 0;
      while n < |a.grants|
        invariant 0 <= n <= |a.grants| && cid in consumers
        invariant C.AddGrants(View(), cid, a.grants[n..]) == C.AddGrants(listed, cid, a.grants)
      {
        var g := a.grants[n];
        assert a.grants[n..][0] == g && a.grants[n..][1..] == a.grants[n + 1..];
        if g.shard.None? { return Some(InvalidMessage); }
        var shard := DecodeShard(g.shard.value);
        if shard.Err? { return Some(shard.error); }
        ghost var before := View();
        consumers := consumers[cid := consumers[cid].(grants := consumers[cid].grants + [g.id])];
        grants := grants[g.id := C.GrantEntry(g.id, shard.value, GrantStateFromI32(g.state), cid)];
        assert View() == C.AddGrant(before, cid, g.id, shard.value, GrantStateFromI32(g.state));
        n := n + 1;
      }
      error := None;
    }

    method UpdateGrant(g: C.GrantInfo) returns (error: Option<ClientError>)
      modifies this
      ensures C.Outcome(View(), error) == C.UpdateGrant(old(View()), g)
      ensures if Laws.Unreadable(old(View()), g) then error == Some(InvalidMessage) && View() == old(View())
              else error.None? && Laws.Updated(old(View()), [g], View())
    {
      error := Rewrite(g);
      Laws.OneUpdated(old(View()), g);
    }

    /** Writes shard and state of a known grant. */
    method Rewrite(g: C.GrantInfo) returns (error: Option<ClientError>)
      modifies this
      ensures C.Outcome(View(), error) == C.UpdateGrant(old(View()), g)
    {
      error := None;
      if g.id in grants {
        if g.shard.Some? {
          var shard := DecodeShard(g.shard.value);
          if shard.Err? { return Some(shard.error); }
          grants := grants[g.id := grants[g.id].(shard := shard.value)];
        }
        grants := grants[g.id := grants[g.id].(state := GrantStateFromI32(g.state))];
      }
    }

    method DropGrant(g: GrantId)
      modifies this
      ensures View() == C.DropGrant(old(View()), g) && Laws.Reduced(old(View()), View(), {g})
    {
      Exact.DropGrantIsDropSet(View(), g);
      Laws.DropSetReduces(View(), {g});
      if g in grants {
        var owner := grants[g].consumer;
        grants := grants - {g};
        if owner in consumers {
          consumers := consumers[owner := consumers[owner].(grants := C.Keep(consumers[owner].grants, {g}))];
        }
      }
    }

    /** Drops the grants in whatever order the set is visited. */
    method DropSet(gone: set<GrantId>)
      modifies this
      ensures View() == C.DropSet(old(View()), gone)
    {
      var left := gone;
      Exact.DropOrderIsIrrelevant(View(), []);
      assert C.Members([]) == {} && gone - left == {};
      while left != {}
        invariant left <= gone
        invariant View() == C.DropSet(old(View()), gone - left)
        decreases |left|
      {
        var g :| g in left;
        DropGrant(g);
        Exact.DropGrantIsDropSet(C.DropSet(old(View()), gone - left), g);
        Exact.DropSetTwice(old(View()), gone - left, {g});
        assert gone - left + {g} == gone - (left - {g});
        left := left - {g};
      }
      assert gone - left == gone;
    }

    method RemoveConsumer(cid: InstanceId)
      modifies this
      ensures View() == C.RemoveConsumer(old(View()), cid) && Laws.Bereft(old(View()), [Some(cid)], View())
    {
      Laws.OneRemoved(View(), cid);
      if cid in consumers {
        var entry := consumers[cid];
        consumers := consumers - {cid};
        var n := 0;
        while n < |entry.grants|
          invariant 0 <= n <= |entry.grants|
          invariant id == old(id) && shards == old(shards) && consumers == old(consumers) - {cid}
          invariant grants == old(grants) - C.Members(entry.grants[..n])
        {
          grants := grants - {entry.grants[n]};
          assert C.Members(entry.grants[..n + 1]) == C.Members(entry.grants[..n]) + {entry.grants[n]};
          n := n + 1;
        }
        assert entry.grants[..n] == entry.grants;
      }
    }

    method ApplyAssignments(assignments: seq<C.Assignment>) returns (error: Option<ClientError>)
      modifies this
      ensures C.Outcome(View(), error) == C.ApplyAssignments(old(View()), assignments)
    {
      var n := 0;
      while n < |assignments|
        invariant 0 <= n <= |assignments|
        invariant C.ApplyAssignments(View(), assignments[n..]) == C.ApplyAssignments(old(View()), assignments)
      {
        assert assignments[n..][0] == assignments[n] && assignments[n..][1..] == assignments[n + 1..];
        error := ApplyAssignment(assignments[n]);
        if error.Some? { return; }
        n := n + 1;
      }
      error := None;
    }

    method UpdateGrants(gs: seq<C.GrantInfo>) returns (error: Option<ClientError>)
      modifies this
      ensures C.Outcome(View(), error) == C.UpdateGrants(old(View()), gs)
    {
      var n := 0;
      while n < |gs|
        invariant 0 <= n <= |gs|
        invariant C.UpdateGrants(View(), gs[n..]) == C.UpdateGrants(old(View()), gs)
      {
        assert gs[n..][0] == gs[n] && gs[n..][1..] == gs[n + 1..];
        error := UpdateGrant(gs[n]);
        if error.Some? { return; }
        n := n + 1;
      }
      error := None;
    }

    method DropGrants(gs: seq<GrantId>)
      modifies this
      ensures View() == C.DropGrants(old(View()), gs)
    {
      var n := 0;
      while n < |gs|
        invariant 0 <= n <= |gs|
        invariant C.DropGrants(View(), gs[n..]) == C.DropGrants(old(View()), gs)
      {
        assert gs[n..][0] == gs[n] && gs[n..][1..] == gs[n + 1..];
        DropGrant(gs[n]);
        n := n + 1;
      }
    }

    method RemoveConsumers(ids: seq<Option<InstanceId>>)
      modifies this
      ensures View() == C.RemoveConsumers(old(View()), ids)
    {
      var n := 0;
      while n < |ids|
        invariant 0 <= n <= |ids|
        invariant C.RemoveConsumers(View(), ids[n..]) == C.RemoveConsumers(old(View()), ids)
      {
        assert ids[n..][0] == ids[n] && ids[n..][1..] == ids[n + 1..];
        if ids[n].Some? { RemoveConsumer(ids[n].value); }
        n := n + 1;
      }
    }

    /** The five parts, on a copy that is given up on the first failure. */
    method ApplyChange(change: C.Change) returns (error: Option<ClientError>)
      modifies this
      ensures var c := old(View());
              C.Outcome(View(), error) ==
              C.Then(C.Then(C.Then(C.Then(C.ShardsPhase(c, change),
                m => C.AssignPhase(m, change)),
                m => C.UpdatePhase(m, change)),
                m => C.UnassignPhase(m, change)),
                m => C.RemovePhase(m, change))
    {
      if change.shards.Some? {
        var decoded := C.DecodeShards(change.shards.value);
        if decoded.Err? { return Some(decoded.error); }
        shards := decoded.value;
        DropSet(C.Orphans(View(), shards));
      }
      if change.assign.Some? {
        error := ApplyAssignments(change.assign.value);
        if error.Some? { return; }
      }
      if change.update.Some? {
        error := UpdateGrants(change.update.value);
        if error.Some? { return; }
      }
      if change.unassign.Some? { DropGrants(change.unassign.value); }
      if change.remove.Some? { RemoveConsumers(change.remove.value); }
      error := None;
    }

    method Apply(m: C.Message) returns (r: Result<ClusterMap, ClientError>)
      ensures r.Ok? ==> fresh(r.value) && C.Apply(View(), m) == Ok(r.value.View())
      ensures r.Err? ==> C.Apply(View(), m) == Err(r.error)
      ensures r.Ok? && m.body.ChangeBody? ==> Assigns.PartEffect(View(), m.body.change, r.value.View())
    {
      if m.body.ChangeBody? { Assigns.PartsDo(View(), m.body.change, m.version, m.timestamp); }
      match m.body {
        case NoBody => return Err(InvalidMessage);
        case SnapshotBody(snap) =>
          var decoded := C.DecodeShards(snap.shards);
          if decoded.Err? { return Err(decoded.error); }
          var origin: Option<Instance> := None;
          if snap.origin.Some? {
            var located := DecodeLocated(snap.origin.value, "");
            if located.Err? { return Err(located.error); }
            origin := Some(located.value);
          }
          var out := new ClusterMap(
            C.Map(C.ClusterId(m.version, origin, C.Stamped(m)), map[], map[], decoded.value));
          var error := out.ApplyAssignments(snap.assignments);
          if error.Some? { return Err(error.value); }
          return Ok(out);
        case ChangeBody(change) =>
          var next := new ClusterMap(View());
          next.id := C.ClusterId(m.version, id.origin, C.Stamped(m));
          assert next.View() == C.Stamp(View(), m.version, C.Stamped(m));
          var error := next.ApplyChange(change);
          if error.Some? { return Err(error.value); }
          return Ok(next);
      }
    }

    /** The grants may be visited in any order. */
    method Lookup(key: DomainKey, states: seq<GrantState>) returns (r: Option<C.GrantEntry>)
      ensures L.IsLookup(View(), key, states, r)
    {
      var wanted := L.Wanted(states);
      var n := 0;
      while n < |wanted|
        invariant 0 <= n <= |wanted|
        invariant forall m, h :: 0 <= m < n ==> !L.Answers(View(), key, wanted[m], h)
      {
        var left := grants.Keys;
        while left != {}
          invariant left <= grants.Keys
          invariant forall h :: h in grants && h !in left ==> !L.Answers(View(), key, wanted[n], h)
          decreases |left|
        {
          var g :| g in left;
          if grants[g].state == wanted[n] && L.Covers(grants[g].shard, key) {
            assert L.Answers(View(), key, wanted[n], g);
            return Some(grants[g]);
          }
          left := left - {g};
        }
        n := n + 1;
      }
      r := None;
    }
  }
}
