/** When the consumers' lists are exactly the inverse of the grant map. */
module ClusterExact {
  import opened Ids
  import opened Cluster
  import opened ClusterIndex

  predicate NoDuplicates(s: seq<GrantId>) {
    forall i, j :: 0 <= i < j < |s| ==> s[i] != s[j]
  }

  predicate Lists(c: Map, id: InstanceId, g: GrantId) {
    id in c.consumers && g in c.consumers[id].grants
  }

  /** No grant is listed twice, by one consumer or by two. */
  ghost predicate Unique(c: Map) {
    && (forall id :: id in c.consumers ==> NoDuplicates(c.consumers[id].grants))
    && (forall a, b, g :: Lists(c, a, g) && Lists(c, b, g) ==> a == b)
  }

  /** Nothing is listed that is not in the map. */
  ghost predicate NoStray(c: Map) {
    forall id, g :: Lists(c, id, g) ==> g in c.grants
  }

  ghost predicate Exact(c: Map) {
    Indexed(c) && NoStray(c) && Unique(c)
  }

  /** In an exact map a consumer lists precisely the grants it owns, once each. */
  lemma ExactIsInverse(c: Map, id: InstanceId, g: GrantId)
    requires Exact(c)
    ensures Lists(c, id, g) <==> g in c.grants && c.grants[g].consumer == id
    ensures id in c.consumers ==> NoDuplicates(c.consumers[id].grants)
  {
    if g in c.grants {
      assert Linked(c, g);
      assert Lists(c, c.grants[g].consumer, g);
    }
  }

  // ---------- Assignments ----------

  /** Each id is new when its turn comes. */
  predicate Fresh(known: set<GrantId>, ids: seq<GrantId>)
    decreases |ids|
  {
    ids == [] || (ids[0] !in known && Fresh(known + {ids[0]}, ids[1..]))
  }

  lemma {:induction false} FreshMeans(known: set<GrantId>, ids: seq<GrantId>)
    ensures Fresh(known, ids) <==> NoDuplicates(ids) && forall g :: g in ids ==> g !in known
    decreases |ids|
  {
    if ids != [] {
      FreshMeans(known + {ids[0]}, ids[1..]);
      if NoDuplicates(ids) && forall g :: g in ids ==> g !in known {
        forall g | g in ids[1..] ensures g !in known + {ids[0]} {
          var n :| 0 <= n < |ids[1..]| && ids[1..][n] == g;
          assert ids[n + 1] == g;
        }
        assert Fresh(known, ids);
      }
      if Fresh(known, ids) {
        forall i, j | 0 <= i < j < |ids| ensures ids[i] != ids[j] {
          assert ids[j] == ids[1..][j - 1];
          if i > 0 { assert ids[i] == ids[1..][i - 1]; }
        }
        forall g | g in ids ensures g !in known {
          if g != ids[0] { assert g in ids[1..]; }
        }
      }
    }
  }

  lemma {:induction false} FreshConcat(known: set<GrantId>, a: seq<GrantId>, b: seq<GrantId>)
    ensures Fresh(known, a + b) <==> Fresh(known, a) && Fresh(known + Members(a), b)
    decreases |a|
  {
    if a == [] {
      assert a + b == b && known + Members(a) == known;
    } else {
      assert (a + b)[1..] == a[1..] + b;
      FreshConcat(known + {a[0]}, a[1..], b);
      assert known + {a[0]} + Members(a[1..]) == known + Members(a);
    }
  }

  function IdsOf(gs: seq<GrantInfo>): seq<GrantId> {
    seq(|gs|, n requires 0 <= n < |gs| => gs[n].id)
  }

  function AssignedIds(as': seq<Assignment>): seq<GrantId> {
    if as' == [] then [] else IdsOf(as'[0].grants) + AssignedIds(as'[1..])
  }

  /** The added grant is listed once more, and nothing else changes in the lists. */
  lemma AddLists(c: Map, owner: InstanceId, g: GrantId, shard: Shard, state: GrantState)
    requires owner in c.consumers
    ensures forall id, x ::
              Lists(AddGrant(c, owner, g, shard, state), id, x) <==> Lists(c, id, x) || (id == owner && x == g)
  {}

  lemma AddKnownIsDuplicate(c: Map, owner: InstanceId, g: GrantId, shard: Shard, state: GrantState)
    requires Indexed(c) && owner in c.consumers && g in c.grants
    ensures !Unique(AddGrant(c, owner, g, shard, state))
  {
    var t := AddGrant(c, owner, g, shard, state);
    AddLists(c, owner, g, shard, state);
    assert Linked(c, g);
    var at := c.grants[g].consumer;
    if at == owner {
      var before, now := c.consumers[owner].grants, t.consumers[owner].grants;
      var n :| 0 <= n < |before| && before[n] == g;
      assert now[n] == g && now[|before|] == g;
      assert !NoDuplicates(now);
    } else {
      assert Lists(t, at, g) && Lists(t, owner, g);
    }
  }

  lemma AddNewKeepsUnique(c: Map, owner: InstanceId, g: GrantId, shard: Shard, state: GrantState)
    requires NoStray(c) && Unique(c) && owner in c.consumers && g !in c.grants
    ensures Unique(AddGrant(c, owner, g, shard, state))
  {
    var t := AddGrant(c, owner, g, shard, state);
    AddLists(c, owner, g, shard, state);
    assert NoDuplicates(t.consumers[owner].grants) by { assert !Lists(c, owner, g); }
    forall a, b, x | Lists(t, a, x) && Lists(t, b, x) ensures a == b {
      if x != g { assert Lists(c, a, x) && Lists(c, b, x); } else { assert !Lists(c, a, g) && !Lists(c, b, g); }
    }
  }

  lemma AddIsUniqueIff(c: Map, owner: InstanceId, g: GrantId, shard: Shard, state: GrantState)
    requires Indexed(c) && NoStray(c) && owner in c.consumers
    ensures var t := AddGrant(c, owner, g, shard, state);
            && Indexed(t) && NoStray(t) && t.grants.Keys == c.grants.Keys + {g}
            && (Unique(t) <==> Unique(c) && g !in c.grants)
  {
    AddKeepsIndex(c, owner, g, shard, state);
    AddLists(c, owner, g, shard, state);
    var t := AddGrant(c, owner, g, shard, state);
    if g in c.grants { AddKnownIsDuplicate(c, owner, g, shard, state); }
    else if Unique(c) { AddNewKeepsUnique(c, owner, g, shard, state); }
    if Unique(t) { UniqueBefore(c, t, owner, g); }
  }

  /** Lists only grow, so a duplicate is never undone by assigning more. */
  lemma UniqueBefore(c: Map, t: Map, owner: InstanceId, g: GrantId)
    requires Unique(t) && owner in c.consumers && c.consumers.Keys == t.consumers.Keys
    requires forall id | id in c.consumers && id != owner :: t.consumers[id] == c.consumers[id]
    requires t.consumers[owner].grants == c.consumers[owner].grants + [g]
    ensures Unique(c)
  {
    forall id | id in c.consumers ensures NoDuplicates(c.consumers[id].grants) {
      var l, m := c.consumers[id].grants, t.consumers[id].grants;
      assert forall i :: 0 <= i < |l| ==> m[i] == l[i];
    }
    forall a, b, x | Lists(c, a, x) && Lists(c, b, x) ensures a == b {
      assert Lists(t, a, x) && Lists(t, b, x);
    }
  }

  lemma {:induction false} AddAllIsUniqueIff(c: Map, owner: InstanceId, gs: seq<GrantInfo>)
    requires Indexed(c) && NoStray(c) && owner in c.consumers
    requires AddGrants(c, owner, gs).error.None?
    ensures var t := AddGrants(c, owner, gs).next;
            && Indexed(t) && NoStray(t)
            && t.grants.Keys == c.grants.Keys + Members(IdsOf(gs))
            && (Unique(t) <==> Unique(c) && Fresh(c.grants.Keys, IdsOf(gs)))
    decreases |gs|
  {
    if gs != [] {
      var shard := DecodeShard(gs[0].shard.value).value;
      var next := AddGrant(c, owner, gs[0].id, shard, GrantStateFromI32(gs[0].state));
      AddIsUniqueIff(c, owner, gs[0].id, shard, GrantStateFromI32(gs[0].state));
      AddAllIsUniqueIff(next, owner, gs[1..]);
      IdsSplit(gs);
    }
  }

  lemma IdsSplit(gs: seq<GrantInfo>)
    requires gs != []
    ensures IdsOf(gs)[0] == gs[0].id && IdsOf(gs)[1..] == IdsOf(gs[1..])
    ensures Members(IdsOf(gs)) == {gs[0].id} + Members(IdsOf(gs[1..]))
  {
    assert IdsOf(gs)[1..] == IdsOf(gs[1..]);
    assert IdsOf(gs) == [gs[0].id] + IdsOf(gs[1..]);
  }

  lemma WithConsumerIsNeutral(c: Map, i: Instance)
    requires Indexed(c) && NoStray(c)
    ensures var t := WithConsumer(c, i);
            Indexed(t) && NoStray(t) && t.grants == c.grants && (Unique(t) <==> Unique(c))
  {
    var t := WithConsumer(c, i);
    forall x | x in t.grants ensures Linked(t, x) { assert Linked(c, x); }
    forall id, g ensures Lists(t, id, g) <==> Lists(c, id, g) {}
    assert forall id | id in c.consumers :: t.consumers[id] == c.consumers[id];
    assert NoDuplicates([]);
  }

  lemma {:induction false} AssignIsUniqueIff(c: Map, as': seq<Assignment>)
    requires Indexed(c) && NoStray(c)
    requires ApplyAssignments(c, as').error.None?
    ensures var t := ApplyAssignments(c, as').next;
            && Indexed(t) && NoStray(t)
            && (Unique(t) <==> Unique(c) && Fresh(c.grants.Keys, AssignedIds(as')))
    decreases |as'|
  {
    if as' != [] {
      var a := as'[0];
      var i := DecodeInstance(a.consumer.value).value;
      WithConsumerIsNeutral(c, i);
      AddAllIsUniqueIff(WithConsumer(c, i), i.id, a.grants);
      var next := ApplyAssignment(c, a).next;
      AssignIsUniqueIff(next, as'[1..]);
      FreshConcat(c.grants.Keys, IdsOf(a.grants), AssignedIds(as'[1..]));
    }
  }

  /** Assigning keeps the index exact if and only if no assigned id is already in
      the map and none occurs twice. */
  lemma AssigningIsExactIff(c: Map, as': seq<Assignment>)
    requires Exact(c) && ApplyAssignments(c, as').error.None?
    ensures Exact(ApplyAssignments(c, as').next) <==>
            NoDuplicates(AssignedIds(as')) && forall g :: g in AssignedIds(as') ==> g !in c.grants
  {
    AssignIsUniqueIff(c, as');
    FreshMeans(c.grants.Keys, AssignedIds(as'));
  }

  // ---------- Removal ----------

  /** What removing `id` should delete. */
  function OwnedBy(c: Map, id: InstanceId): set<GrantId> {
    set g | g in c.grants && c.grants[g].consumer == id
  }

  /** Removing a consumer deletes precisely its grants if and only if everything
      it lists that is still in the map is its own. */
  lemma RemovalIsPreciseIff(c: Map, id: InstanceId)
    requires Indexed(c) && id in c.consumers
    ensures RemoveConsumer(c, id).grants == c.grants - OwnedBy(c, id) <==>
            forall g :: g in c.consumers[id].grants && g in c.grants ==> c.grants[g].consumer == id
  {
    var listed := Members(c.consumers[id].grants);
    forall g | g in OwnedBy(c, id) ensures g in listed { assert Linked(c, g); }
    if forall g :: g in c.consumers[id].grants && g in c.grants ==> c.grants[g].consumer == id {
      assert c.grants - listed == c.grants - OwnedBy(c, id);
    } else {
      var g :| g in c.consumers[id].grants && g in c.grants && c.grants[g].consumer != id;
      assert g in c.grants - OwnedBy(c, id);
      assert g !in c.grants - listed;
    }
  }

  lemma SingleGrant(c: Map, owner: InstanceId, g: GrantInfo)
    requires owner in c.consumers && g.shard.Some? && DecodeShard(g.shard.value).Ok?
    ensures AddGrants(c, owner, [g]) ==
            Outcome(AddGrant(c, owner, g.id, DecodeShard(g.shard.value).value, GrantStateFromI32(g.state)), None)
  {
    var next := AddGrant(c, owner, g.id, DecodeShard(g.shard.value).value, GrantStateFromI32(g.state));
    assert [g][1..] == [];
    assert AddGrants(next, owner, []) == Outcome(next, None);
  }

  /** Two consumers, and the grant both are assigned in turn. */
  function Consumer1(): RawInstance { RawInstance(Some(RawLocated(Some(1), None, "a", Some(0))), "") }

  function Consumer2(): RawInstance { RawInstance(Some(RawLocated(Some(2), None, "b", Some(0))), "") }

  function Moving(): GrantInfo {
    GrantInfo("g", Some(RawShard(Some(RawDomain(Some(ServiceName("t", "s")), "d")), 2, "", "", "")), 1)
  }

  function AssignBoth(): Message {
    var both := [Assignment(Some(Consumer1()), [Moving()]), Assignment(Some(Consumer2()), [Moving()])];
    Message(ChangeBody(Change(Some(both), None, None, None, None)), 1, None)
  }

  function RemoveFirst(): Message {
    Message(ChangeBody(Change(None, None, None, Some([Some(1)]), None)), 2, None)
  }

  lemma BothAssigned(c: Map)
    requires c.consumers == map[] && c.grants == map[]
    ensures var r := ApplyAssignments(c, AssignBoth().body.change.assign.value);
            && r.error.None? && r.next.id == c.id && r.next.shards == c.shards
            && r.next.grants.Keys == {"g"} && r.next.grants["g"].consumer == 2
            && r.next.consumers.Keys == {1, 2}
            && r.next.consumers[1].grants == ["g"] && r.next.consumers[2].grants == ["g"]
  {
    var as' := AssignBoth().body.change.assign.value;
    var shard := DecodeShard(Moving().shard.value).value;
    var listed1 := WithConsumer(c, DecodeInstance(Consumer1()).value);
    var first := AddGrant(listed1, 1, "g", shard, Active);
    SingleGrant(listed1, 1, Moving());
    var listed2 := WithConsumer(first, DecodeInstance(Consumer2()).value);
    var second := AddGrant(listed2, 2, "g", shard, Active);
    SingleGrant(listed2, 2, Moving());
    assert as'[1..] == [as'[1]] && as'[1..][1..] == [];
    assert ApplyAssignments(second, []) == Outcome(second, None);
    assert ApplyAssignments(first, as'[1..]) == Outcome(second, None);
    assert ApplyAssignments(c, as') == Outcome(second, None);
  }

  /** The condition fails in a map that two messages lead to: a grant reassigned from
      one consumer to another disappears when the first one is removed, and the
      second goes on listing it. */
  lemma ReassignedGrantIsLost()
    ensures var before := ReceivedAll(EMPTY, [AssignBoth()]);
            var after := ReceivedAll(EMPTY, [AssignBoth(), RemoveFirst()]);
            && "g" in before.grants && before.grants["g"].consumer == 2
            && "g" !in after.grants && Lists(after, 2, "g")
  {
    var m := AssignBoth();
    var c0 := Stamp(EMPTY, 1, EPOCH);
    BothAssigned(c0);
    var c1 := ApplyAssignments(c0, m.body.change.assign.value).next;
    assert Apply(EMPTY, m) == Ok(c1);
    assert [m][1..] == [] && ReceivedAll(c1, []) == c1;
    var c2 := RemoveConsumer(Stamp(c1, 2, EPOCH), 1);
    assert [Some(1)][1..] == [] && RemoveConsumers(c2, []) == c2;
    assert Apply(c1, RemoveFirst()) == Ok(c2);
    assert [m, RemoveFirst()][1..] == [RemoveFirst()] && [RemoveFirst()][1..] == [];
    assert ReceivedAll(c2, []) == c2;
    assert ReceivedAll(c1, [RemoveFirst()]) == c2;
  }

  // ---------- The other parts of a change keep the index exact ----------

  lemma {:induction false} KeepNoDuplicates(s: seq<GrantId>, lost: set<GrantId>)
    requires NoDuplicates(s)
    ensures NoDuplicates(Keep(s, lost))
  {
    if s != [] {
      assert NoDuplicates(s[1..]);
      KeepNoDuplicates(s[1..], lost);
      if s[0] !in lost {
        assert s[0] !in s[1..];
        assert s[0] !in Keep(s[1..], lost);
      }
    }
  }

  lemma DropSetKeepsExact(c: Map, gone: set<GrantId>)
    requires Exact(c)
    ensures Exact(DropSet(c, gone))
  {
    var t := DropSet(c, gone);
    DropSetKeepsIndex(c, gone);
    forall id | id in t.consumers ensures NoDuplicates(t.consumers[id].grants) {
      KeepNoDuplicates(c.consumers[id].grants, Lost(c, gone, id));
    }
    forall id, g | Lists(t, id, g) ensures Lists(c, id, g) && g in t.grants {
      ExactIsInverse(c, id, g);
    }
  }

  lemma {:induction false} KeepAll(s: seq<GrantId>)
    ensures Keep(s, {}) == s
  {
    if s != [] { KeepAll(s[1..]); }
  }

  lemma {:induction false} KeepTwice(s: seq<GrantId>, a: set<GrantId>, b: set<GrantId>)
    ensures Keep(Keep(s, a), b) == Keep(s, a + b)
  {
    if s != [] {
      KeepTwice(s[1..], a, b);
      if s[0] !in a { assert Keep(s, a)[1..] == Keep(s[1..], a); }
    }
  }

  /** Only the owner's list loses the dropped grant. */
  lemma LostFromOwner(c: Map, g: GrantId, id: InstanceId)
    requires id in c.consumers
    ensures Keep(c.consumers[id].grants, Lost(c, {g}, id)) ==
            if g in c.grants && c.grants[g].consumer == id then Keep(c.consumers[id].grants, {g})
            else c.consumers[id].grants
  {
    if g in c.grants && c.grants[g].consumer == id {
      assert Lost(c, {g}, id) == {g};
    } else {
      assert Lost(c, {g}, id) == {};
      KeepAll(c.consumers[id].grants);
    }
  }

  lemma DropGrantIsDropSet(c: Map, g: GrantId)
    ensures DropGrant(c, g) == DropSet(c, {g})
  {
    var s, t := DropGrant(c, g), DropSet(c, {g});
    assert s.grants == t.grants && s.consumers.Keys == t.consumers.Keys;
    forall id | id in c.consumers ensures s.consumers[id] == t.consumers[id] {
      LostFromOwner(c, g, id);
    }
    assert s.consumers == t.consumers;
  }

  lemma DropSetTwice(c: Map, a: set<GrantId>, b: set<GrantId>)
    ensures DropSet(DropSet(c, a), b) == DropSet(c, a + b)
  {
    var s, t := DropSet(DropSet(c, a), b), DropSet(c, a + b);
    forall id | id in c.consumers ensures s.consumers[id] == t.consumers[id] {
      var l := c.consumers[id].grants;
      KeepTwice(l, Lost(c, a, id), Lost(DropSet(c, a), b, id));
      assert Lost(c, a, id) + Lost(DropSet(c, a), b, id) == Lost(c, a + b, id);
    }
    assert s.consumers == t.consumers;
    assert s.grants == t.grants;
  }

  /** Dropping grants one by one comes to the same map in every order. */
  lemma {:induction false} DropOrderIsIrrelevant(c: Map, gs: seq<GrantId>)
    ensures DropGrants(c, gs) == DropSet(c, Members(gs))
    decreases |gs|
  {
    if gs == [] {
      forall id | id in c.consumers
        ensures Keep(c.consumers[id].grants, Lost(c, {}, id)) == c.consumers[id].grants
      {
        assert Lost(c, {}, id) == {};
        KeepAll(c.consumers[id].grants);
      }
      assert Members(gs) == {};
      assert DropSet(c, {}).consumers == c.consumers;
    } else {
      DropGrantIsDropSet(c, gs[0]);
      DropOrderIsIrrelevant(DropGrant(c, gs[0]), gs[1..]);
      DropSetTwice(c, {gs[0]}, Members(gs[1..]));
      assert {gs[0]} + Members(gs[1..]) == Members(gs);
    }
  }

  lemma RemoveKeepsExact(c: Map, id: InstanceId)
    requires Exact(c)
    ensures Exact(RemoveConsumer(c, id))
    ensures id in c.consumers ==> RemoveConsumer(c, id).grants == c.grants - OwnedBy(c, id)
  {
    RemoveKeepsIndex(c, id);
    var t := RemoveConsumer(c, id);
    forall a, g | Lists(t, a, g) ensures Lists(c, a, g) && g in t.grants {
      ExactIsInverse(c, a, g);
      if id in c.consumers { ExactIsInverse(c, id, g); }
    }
    if id in c.consumers {
      forall g | g in c.consumers[id].grants && g in c.grants ensures c.grants[g].consumer == id {
        ExactIsInverse(c, id, g);
      }
      RemovalIsPreciseIff(c, id);
    }
  }

  lemma {:induction false} RemovesKeepExact(c: Map, ids: seq<Option<InstanceId>>)
    requires Exact(c)
    ensures Exact(RemoveConsumers(c, ids))
    decreases |ids|
  {
    if ids != [] {
      if ids[0].Some? { RemoveKeepsExact(c, ids[0].value); }
      RemovesKeepExact(if ids[0].Some? then RemoveConsumer(c, ids[0].value) else c, ids[1..]);
    }
  }

  lemma {:induction false} UpdatesKeepExact(c: Map, gs: seq<GrantInfo>)
    requires Exact(c)
    ensures Exact(UpdateGrants(c, gs).next)
    decreases |gs|
  {
    if gs != [] {
      var t := UpdateGrant(c, gs[0]).next;
      UpdateKeepsIndex(c, gs);
      SameListsStayExact(c, t);
      UpdatesKeepExact(t, gs[1..]);
    }
  }

  /** An update touches neither the lists nor the owners. */
  lemma SameListsStayExact(c: Map, t: Map)
    requires Exact(c) && t.consumers == c.consumers && t.grants.Keys == c.grants.Keys
    requires forall g | g in c.grants :: t.grants[g].id == g && t.grants[g].consumer == c.grants[g].consumer
    ensures Exact(t)
  {
    forall x | x in t.grants ensures Linked(t, x) { assert Linked(c, x); }
    forall id, g ensures Lists(t, id, g) == Lists(c, id, g) {}
  }

  /** The ids a message assigns are new to the map they are assigned in. */
  predicate FreshMessage(c: Map, m: Message) {
    match m.body
    case NoBody => true
    case SnapshotBody(s) => Fresh({}, AssignedIds(s.assignments))
    case ChangeBody(ch) =>
      ch.assign.Some? ==> Fresh(ShardsPhase(c, ch).next.grants.Keys, AssignedIds(ch.assign.value))
  }

  predicate AllFresh(c: Map, ms: seq<Message>)
    decreases |ms|
  {
    ms == [] || (FreshMessage(c, ms[0]) && AllFresh(Received(c, ms[0]), ms[1..]))
  }

  lemma ShardsKeepExact(c: Map, ch: Change)
    requires Exact(c)
    ensures Exact(ShardsPhase(c, ch).next)
  {
    if ch.shards.Some? && DecodeShards(ch.shards.value).Ok? {
      var shards := DecodeShards(ch.shards.value).value;
      var d := c.(shards := shards);
      SameListsStayExact(c, d) by { forall g | g in c.grants ensures c.grants[g].id == g { assert Linked(c, g); } }
      DropSetKeepsExact(d, Orphans(c, shards));
    }
  }

  lemma ChangeKeepsExact(c: Map, ch: Change, version: int, timestamp: Time)
    requires Exact(c) && FreshMessage(c, Message(ChangeBody(ch), version, Some(timestamp)))
    requires ApplyChange(c, ch, version, timestamp).error.None?
    ensures Exact(ApplyChange(c, ch, version, timestamp).next)
  {
    var c0 := Stamp(c, version, timestamp);
    SameListsStayExact(c, c0) by { forall g | g in c.grants ensures c.grants[g].id == g { assert Linked(c, g); } }
    ShardsKeepExact(c0, ch);
    var c1 := ShardsPhase(c0, ch).next;
    assert c1.grants == ShardsPhase(c, ch).next.grants;
    if ch.assign.Some? { AssignIsUniqueIff(c1, ch.assign.value); }
    var c2 := AssignPhase(c1, ch).next;
    assert Exact(c2);
    if ch.update.Some? { UpdatesKeepExact(c2, ch.update.value); }
    var c3 := UpdatePhase(c2, ch).next;
    if ch.unassign.Some? {
      DropOrderIsIrrelevant(c3, ch.unassign.value);
      DropSetKeepsExact(c3, Members(ch.unassign.value));
    }
    var c4 := UnassignPhase(c3, ch).next;
    if ch.remove.Some? { RemovesKeepExact(c4, ch.remove.value); }
  }

  lemma SnapshotIsExact(s: Snapshot, version: int, timestamp: Time)
    requires Fresh({}, AssignedIds(s.assignments))
    requires ApplySnapshot(s, version, timestamp).error.None?
    ensures Exact(ApplySnapshot(s, version, timestamp).next)
  {
    var shards := DecodeShards(s.shards).value;
    var origin := if s.origin.None? then None else Some(DecodeLocated(s.origin.value, "").value);
    var c0 := Map(ClusterId(version, origin, timestamp), map[], map[], shards);
    assert c0.grants.Keys == {} && Unique(c0);
    AssignIsUniqueIff(c0, s.assignments);
  }

  /** While assigned ids are fresh, every map the driver holds is an exact index. */
  lemma {:induction false} ReachableIsExact(c: Map, ms: seq<Message>)
    requires Exact(c) && AllFresh(c, ms)
    ensures Exact(ReceivedAll(c, ms))
    decreases |ms|
  {
    if ms != [] {
      var m := ms[0];
      if Apply(c, m).Ok? {
        match m.body {
          case SnapshotBody(s) => SnapshotIsExact(s, m.version, Stamped(m));
          case ChangeBody(ch) => ChangeKeepsExact(c, ch, m.version, Stamped(m));
          case NoBody =>
        }
      }
      ReachableIsExact(Received(c, m), ms[1..]);
    }
  }
}
