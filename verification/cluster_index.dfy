/** The snapshot as a two-way index: grants point at consumers, consumers list
    grants. */
module ClusterIndex {
  import opened Ids
  import opened Cluster

  ghost predicate KeyedByOwnId(c: Map) {
    forall id :: id in c.consumers ==> c.consumers[id].consumer.id == id
  }

  /** Consumers are keyed by their own id, and every grant's consumer is present
      and lists it. */
  ghost predicate Indexed(c: Map) {
    && KeyedByOwnId(c)
    && (forall g :: g in c.grants ==> Linked(c, g))
  }

  predicate Linked(c: Map, g: GrantId)
    requires g in c.grants
  {
    && c.grants[g].id == g
    && c.grants[g].consumer in c.consumers
    && g in c.consumers[c.grants[g].consumer].grants
  }

  lemma AddKeepsIndex(c: Map, owner: InstanceId, g: GrantId, shard: Shard, state: GrantState)
    requires Indexed(c) && owner in c.consumers
    ensures Indexed(AddGrant(c, owner, g, shard, state))
  {
    var t := AddGrant(c, owner, g, shard, state);
    forall x | x in t.grants ensures Linked(t, x) {
      if x != g { assert Linked(c, x); }
    }
  }

  lemma {:induction false} AddAllKeepsIndex(c: Map, owner: InstanceId, gs: seq<GrantInfo>)
    requires Indexed(c) && owner in c.consumers
    ensures Indexed(AddGrants(c, owner, gs).next)
    decreases |gs|
  {
    if gs != [] && gs[0].shard.Some? && DecodeShard(gs[0].shard.value).Ok? {
      var shard := DecodeShard(gs[0].shard.value).value;
      AddKeepsIndex(c, owner, gs[0].id, shard, GrantStateFromI32(gs[0].state));
      AddAllKeepsIndex(AddGrant(c, owner, gs[0].id, shard, GrantStateFromI32(gs[0].state)), owner, gs[1..]);
    }
  }

  lemma {:induction false} AssignKeepsIndex(c: Map, as': seq<Assignment>)
    requires Indexed(c)
    ensures Indexed(ApplyAssignments(c, as').next)
    decreases |as'|
  {
    if as' != [] {
      var a := as'[0];
      if a.consumer.Some? && DecodeInstance(a.consumer.value).Ok? {
        var i := DecodeInstance(a.consumer.value).value;
        assert Indexed(WithConsumer(c, i)) by {
          forall x | x in c.grants ensures Linked(WithConsumer(c, i), x) { assert Linked(c, x); }
        }
        AddAllKeepsIndex(WithConsumer(c, i), i.id, a.grants);
      }
      AssignKeepsIndex(ApplyAssignment(c, a).next, as'[1..]);
    }
  }

  lemma {:induction false} UpdateKeepsIndex(c: Map, gs: seq<GrantInfo>)
    requires Indexed(c)
    ensures Indexed(UpdateGrants(c, gs).next)
    decreases |gs|
  {
    if gs != [] {
      var t := UpdateGrant(c, gs[0]).next;
      forall x | x in t.grants ensures Linked(t, x) { assert Linked(c, x); }
      UpdateKeepsIndex(t, gs[1..]);
    }
  }

  lemma DropKeepsIndex(c: Map, g: GrantId)
    requires Indexed(c)
    ensures Indexed(DropGrant(c, g))
  {
    var t := DropGrant(c, g);
    forall x | x in t.grants ensures Linked(t, x) { assert Linked(c, x); }
  }

  lemma {:induction false} DropsKeepIndex(c: Map, gs: seq<GrantId>)
    requires Indexed(c)
    ensures Indexed(DropGrants(c, gs))
    decreases |gs|
  {
    if gs != [] {
      DropKeepsIndex(c, gs[0]);
      DropsKeepIndex(DropGrant(c, gs[0]), gs[1..]);
    }
  }

  lemma DropSetKeepsIndex(c: Map, gone: set<GrantId>)
    requires Indexed(c)
    ensures Indexed(DropSet(c, gone))
  {
    var t := DropSet(c, gone);
    forall x | x in t.grants ensures Linked(t, x) { assert Linked(c, x); }
  }

  /** A removed consumer may list, stale, grants that others own; a consumer that
      stays still lists the grants it owns. */
  lemma RemoveKeepsIndex(c: Map, id: InstanceId)
    requires Indexed(c)
    ensures Indexed(RemoveConsumer(c, id))
  {
    var t := RemoveConsumer(c, id);
    forall x | x in t.grants ensures Linked(t, x) { assert Linked(c, x); }
  }

  lemma {:induction false} RemovesKeepIndex(c: Map, ids: seq<Option<InstanceId>>)
    requires Indexed(c)
    ensures Indexed(RemoveConsumers(c, ids))
    decreases |ids|
  {
    if ids != [] {
      if ids[0].Some? { RemoveKeepsIndex(c, ids[0].value); }
      RemovesKeepIndex(if ids[0].Some? then RemoveConsumer(c, ids[0].value) else c, ids[1..]);
    }
  }

  lemma ShardsKeepIndex(c: Map, raw: seq<RawShard>)
    requires Indexed(c)
    ensures Indexed(SetShards(c, raw).next)
  {
    if DecodeShards(raw).Ok? {
      var d := c.(shards := DecodeShards(raw).value);
      forall x | x in d.grants ensures Linked(d, x) { assert Linked(c, x); }
      DropSetKeepsIndex(d, Orphans(c, DecodeShards(raw).value));
    }
  }

  lemma ChangeKeepsIndex(c: Map, ch: Change)
    requires Indexed(c)
    ensures Indexed(ShardsPhase(c, ch).next) && Indexed(AssignPhase(c, ch).next)
    ensures Indexed(UpdatePhase(c, ch).next) && Indexed(UnassignPhase(c, ch).next)
    ensures Indexed(RemovePhase(c, ch).next)
  {
    if ch.shards.Some? { ShardsKeepIndex(c, ch.shards.value); }
    if ch.assign.Some? { AssignKeepsIndex(c, ch.assign.value); }
    if ch.update.Some? { UpdateKeepsIndex(c, ch.update.value); }
    if ch.unassign.Some? { DropsKeepIndex(c, ch.unassign.value); }
    if ch.remove.Some? { RemovesKeepIndex(c, ch.remove.value); }
  }

  lemma ApplyKeepsIndex(c: Map, m: Message)
    requires Indexed(c)
    ensures Indexed(Received(c, m))
  {
    match m.body {
      case NoBody =>
      case SnapshotBody(s) =>
        if DecodeShards(s.shards).Ok? && Apply(c, m).Ok? {
          var origin := if s.origin.None? then None else Some(DecodeLocated(s.origin.value, "").value);
          AssignKeepsIndex(Map(ClusterId(m.version, origin, Stamped(m)), map[], map[], DecodeShards(s.shards).value),
                           s.assignments);
        }
      case ChangeBody(ch) =>
        var c0 := Stamp(c, m.version, Stamped(m));
        StampKeepsIndex(c, m.version, Stamped(m));
        ChangeKeepsIndex(c0, ch);
        var c1 := ShardsPhase(c0, ch).next;
        ChangeKeepsIndex(c1, ch);
        var c2 := AssignPhase(c1, ch).next;
        ChangeKeepsIndex(c2, ch);
        var c3 := UpdatePhase(c2, ch).next;
        ChangeKeepsIndex(c3, ch);
        ChangeKeepsIndex(UnassignPhase(c3, ch).next, ch);
    }
  }

  lemma StampKeepsIndex(c: Map, version: int, timestamp: Time)
    requires Indexed(c)
    ensures Indexed(Stamp(c, version, timestamp))
  {
    forall x | x in c.grants ensures Linked(Stamp(c, version, timestamp), x) { assert Linked(c, x); }
  }

  /** Every map reachable from the empty one, whatever messages come and fail. */
  lemma {:induction false} ReachableIsIndexed(c: Map, ms: seq<Message>)
    requires Indexed(c)
    ensures Indexed(ReceivedAll(c, ms))
    decreases |ms|
  {
    if ms != [] {
      ApplyKeepsIndex(c, ms[0]);
      ReachableIsIndexed(Received(c, ms[0]), ms[1..]);
    }
  }
}
