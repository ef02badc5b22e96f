/** What assignments make of the cluster snapshot, and what a whole change or a snapshot
    message does, told by the two maps and the fields of the message. */
module ClusterAssignLaws {
  import opened Ids
  import opened Wire
  import opened Cluster
  import opened ClusterLaws
  import Parts = ClusterChange

  // ---------- The grants of one assignment ----------

  predicate ReadableInfo(g: GrantInfo) { g.shard.Some? && ReadableShard(g.shard.value) }

  predicate AllInfosReadable(gs: seq<GrantInfo>) {
    forall m :: 0 <= m < |gs| ==> ReadableInfo(gs[m])
  }

  predicate ReadableAssignment(a: Assignment) {
    a.consumer.Some? && ReadableInstance(a.consumer.value) && AllInfosReadable(a.grants)
  }

  /** The consumer that an assignment is for. */
  predicate IsFor(a: Assignment, id: InstanceId) {
    a.consumer.Some? && a.consumer.value.instance.Some? && a.consumer.value.instance.value.id == Some(id)
  }

  function IdsIn(gs: seq<GrantInfo>): seq<GrantId> {
    seq(|gs|, n requires 0 <= n < |gs| => gs[n].id)
  }

  predicate Claims(g: GrantInfo, owner: InstanceId, e: GrantEntry) {
    e.id == g.id && e.consumer == owner && g.shard.Some? && IsShard(g.shard.value, e.shard) && IsState(g.state, e.state)
  }

  predicate NamesGrant(gs: seq<GrantInfo>, g: GrantId) {
    exists m :: 0 <= m < |gs| && gs[m].id == g
  }

  ghost predicate AddedTo(c: Map, owner: InstanceId, gs: seq<GrantInfo>, r: Map)
    requires owner in c.consumers
  {
    && r.id == c.id && r.shards == c.shards
    && r.consumers == c.consumers[owner := c.consumers[owner].(grants := c.consumers[owner].grants + IdsIn(gs))]
    && (forall g :: !NamesGrant(gs, g) ==> Parts.EntryAt(r, g) == Parts.EntryAt(c, g))
    && (forall g, m :: LastUpdate(gs, g, m) ==> g in r.grants && Claims(gs[m], owner, r.grants[g]))
  }

  lemma AddedByFirst(c: Map, owner: InstanceId, gs: seq<GrantInfo>, d: Map, r: Map)
    requires owner in c.consumers && gs != []
    requires AddedTo(c, owner, [gs[0]], d) && owner in d.consumers && AddedTo(d, owner, gs[1..], r)
    ensures AddedTo(c, owner, gs, r)
  {
    assert IdsIn(gs) == IdsIn([gs[0]]) + IdsIn(gs[1..]);
    var list := c.consumers[owner].grants;
    assert list + IdsIn([gs[0]]) + IdsIn(gs[1..]) == list + IdsIn(gs);
    assert forall m :: 0 <= m < |gs[1..]| ==> gs[1..][m] == gs[m + 1];
    forall g ensures NamesGrant(gs, g) <==> gs[0].id == g || NamesGrant(gs[1..], g) {
      if NamesGrant(gs[1..], g) {
        var m :| 0 <= m < |gs[1..]| && gs[1..][m].id == g;
        assert gs[m + 1].id == g;
      }
    }
    assert [gs[0]][0] == gs[0];
    assert forall g :: NamesGrant([gs[0]], g) <==> gs[0].id == g;
    assert forall g :: !NamesGrant(gs, g) ==> Parts.EntryAt(r, g) == Parts.EntryAt(c, g);
    forall g, m | LastUpdate(gs, g, m) ensures g in r.grants && Claims(gs[m], owner, r.grants[g]) {
      if m > 0 {
        assert LastUpdate(gs[1..], g, m - 1);
      } else {
        assert LastUpdate([gs[0]], g, 0);
        assert !NamesGrant(gs[1..], g);
      }
    }
  }

  lemma OneIsAdded(c: Map, owner: InstanceId, g: GrantInfo)
    requires owner in c.consumers && ReadableInfo(g)
    ensures DecodeShard(g.shard.value).Ok?
    ensures AddedTo(c, owner, [g], AddGrant(c, owner, g.id, DecodeShard(g.shard.value).value, GrantStateFromI32(g.state)))
  {
    ShardDecoding(g.shard.value);
    StateDecoding(g.state);
    assert IdsIn([g]) == [g.id];
    assert NamesGrant([g], g.id) by { assert [g][0].id == g.id; }
  }

  lemma {:induction false} AddsDo(c: Map, owner: InstanceId, gs: seq<GrantInfo>)
    requires owner in c.consumers
    ensures var r := AddGrants(c, owner, gs);
            if AllInfosReadable(gs) then r.error.None? && AddedTo(c, owner, gs, r.next)
            else r.error == Some(InvalidMessage)
    decreases |gs|
  {
    if gs == [] {
      assert c.consumers[owner].grants + IdsIn(gs) == c.consumers[owner].grants;
    } else {
      if gs[0].shard.Some? { ShardDecoding(gs[0].shard.value); }
      if ReadableInfo(gs[0]) {
        OneIsAdded(c, owner, gs[0]);
        var d := AddGrant(c, owner, gs[0].id, DecodeShard(gs[0].shard.value).value, GrantStateFromI32(gs[0].state));
        AddsDo(d, owner, gs[1..]);
        assert AllInfosReadable(gs) <==> AllInfosReadable(gs[1..]);
        if AllInfosReadable(gs) { AddedByFirst(c, owner, gs, d, AddGrants(d, owner, gs[1..]).next); }
      }
    }
  }

  // ---------- A batch of assignments ----------

  predicate AllAssignmentsReadable(as': seq<Assignment>) {
    forall n :: 0 <= n < |as'| ==> ReadableAssignment(as'[n])
  }

  predicate Claimed(as': seq<Assignment>, g: GrantId) {
    exists n :: 0 <= n < |as'| && NamesGrant(as'[n].grants, g)
  }

  /** Element `m` of assignment `n` is the last that names the grant. */
  predicate LastClaimed(as': seq<Assignment>, g: GrantId, n: int, m: int) {
    && 0 <= n < |as'| && LastUpdate(as'[n].grants, g, m)
    && forall k :: n < k < |as'| ==> !NamesGrant(as'[k].grants, g)
  }

  predicate Present(as': seq<Assignment>, id: InstanceId) {
    exists n :: 0 <= n < |as'| && IsFor(as'[n], id)
  }

  predicate FirstFor(as': seq<Assignment>, id: InstanceId, n: int) {
    0 <= n < |as'| && IsFor(as'[n], id) && forall k :: 0 <= k < n ==> !IsFor(as'[k], id)
  }

  /** The grants that the batch names for `id`, in order. */
  function GrantsFor(as': seq<Assignment>, id: InstanceId): seq<GrantId> {
    if as' == [] then []
    else (if IsFor(as'[0], id) then IdsIn(as'[0].grants) else []) + GrantsFor(as'[1..], id)
  }

  function ListOf(c: Map, id: InstanceId): seq<GrantId> {
    if id in c.consumers then c.consumers[id].grants else []
  }

  /** The grant is as the last element that names it says, or as it was. */
  ghost predicate ClaimedBy(c: Map, as': seq<Assignment>, r: Map, g: GrantId) {
    && (!Claimed(as', g) ==> Parts.EntryAt(r, g) == Parts.EntryAt(c, g))
    && (forall n, m :: LastClaimed(as', g, n, m) ==>
          g in r.grants && IsFor(as'[n], r.grants[g].consumer)
          && Claims(as'[n].grants[m], r.grants[g].consumer, r.grants[g]))
  }

  /** The consumer is the one known before, else as first named; its list goes on in order. */
  ghost predicate EnrolledBy(c: Map, as': seq<Assignment>, r: Map, id: InstanceId) {
    && (id in r.consumers <==> id in c.consumers || Present(as', id))
    && ListOf(r, id) == ListOf(c, id) + GrantsFor(as', id)
    && (id in c.consumers ==> r.consumers[id].consumer == c.consumers[id].consumer)
    && (id !in c.consumers ==>
          forall n :: FirstFor(as', id, n) ==> IsInstance(as'[n].consumer.value, r.consumers[id].consumer))
  }

  ghost predicate AssignedBy(c: Map, as': seq<Assignment>, r: Map) {
    && r.id == c.id && r.shards == c.shards
    && (forall g :: ClaimedBy(c, as', r, g))
    && (forall id :: EnrolledBy(c, as', r, id))
  }

  lemma ClaimedByFirst(c: Map, as': seq<Assignment>, d: Map, r: Map, g: GrantId)
    requires as' != [] && ClaimedBy(c, [as'[0]], d, g) && ClaimedBy(d, as'[1..], r, g)
    ensures ClaimedBy(c, as', r, g)
  {
    assert [as'[0]][0] == as'[0];
    assert forall k :: 0 <= k < |as'[1..]| ==> as'[1..][k] == as'[k + 1];
    if Claimed(as'[1..], g) {
      var k :| 0 <= k < |as'[1..]| && NamesGrant(as'[1..][k].grants, g);
      assert NamesGrant(as'[k + 1].grants, g);
    }
    forall n, m | LastClaimed(as', g, n, m)
      ensures g in r.grants && IsFor(as'[n], r.grants[g].consumer)
              && Claims(as'[n].grants[m], r.grants[g].consumer, r.grants[g])
    {
      if n > 0 {
        assert LastClaimed(as'[1..], g, n - 1, m);
      } else {
        assert LastClaimed([as'[0]], g, 0, m) && !Claimed(as'[1..], g);
      }
    }
  }

  lemma ForUnfolds(as': seq<Assignment>, id: InstanceId)
    requires as' != []
    ensures Present(as', id) <==> IsFor(as'[0], id) || Present(as'[1..], id)
    ensures Present([as'[0]], id) <==> IsFor(as'[0], id)
    ensures GrantsFor(as', id) == GrantsFor([as'[0]], id) + GrantsFor(as'[1..], id)
  {
    assert [as'[0]][0] == as'[0] && [as'[0]][1..] == [];
    if k :| 0 <= k < |as'[1..]| && IsFor(as'[1..][k], id) { assert IsFor(as'[k + 1], id); }
    if n :| 0 <= n < |as'| && IsFor(as'[n], id) { assert n == 0 || IsFor(as'[1..][n - 1], id); }
  }

  lemma FirstUnfolds(as': seq<Assignment>, id: InstanceId, n: int)
    requires FirstFor(as', id, n)
    ensures if n == 0 then FirstFor([as'[0]], id, 0) else !Present([as'[0]], id) && FirstFor(as'[1..], id, n - 1)
  {
    assert [as'[0]][0] == as'[0];
    assert forall k :: 0 <= k < |as'[1..]| ==> as'[1..][k] == as'[k + 1];
  }

  lemma EnrolledByFirst(c: Map, as': seq<Assignment>, d: Map, r: Map, id: InstanceId)
    requires as' != [] && EnrolledBy(c, [as'[0]], d, id) && EnrolledBy(d, as'[1..], r, id)
    ensures EnrolledBy(c, as', r, id)
  {
    ForUnfolds(as', id);
    if id !in c.consumers {
      forall n | FirstFor(as', id, n) ensures IsInstance(as'[n].consumer.value, r.consumers[id].consumer) {
        FirstUnfolds(as', id, n);
      }
    }
  }

  /** One assignment at one grant. */
  lemma OneClaimed(c: Map, a: Assignment, owner: InstanceId, d: Map, r: Map, g: GrantId)
    requires IsFor(a, owner) && owner in d.consumers && d.grants == c.grants && AddedTo(d, owner, a.grants, r)
    ensures ClaimedBy(c, [a], r, g)
  {
    assert [a][0] == a;
    assert NamesGrant([a][0].grants, g) ==> Claimed([a], g);
    forall n, m | LastClaimed([a], g, n, m)
      ensures g in r.grants && IsFor([a][n], r.grants[g].consumer)
              && Claims([a][n].grants[m], r.grants[g].consumer, r.grants[g])
    {
      assert LastUpdate(a.grants, g, m);
    }
  }

  lemma OneEnrolled(c: Map, a: Assignment, i: Instance, r: Map, id: InstanceId)
    requires IsFor(a, i.id) && IsInstance(a.consumer.value, i) && AddedTo(WithConsumer(c, i), i.id, a.grants, r)
    ensures EnrolledBy(c, [a], r, id)
  {
    assert [a][0] == a && [a][1..] == [];
    assert IsFor(a, id) ==> Present([a], id);
    assert GrantsFor([a], id) == if IsFor(a, id) then IdsIn(a.grants) else [];
  }

  lemma OneAssigned(c: Map, a: Assignment)
    ensures var r := ApplyAssignment(c, a);
            if ReadableAssignment(a) then r.error.None? && AssignedBy(c, [a], r.next)
            else r.error == Some(InvalidMessage)
  {
    if a.consumer.Some? {
      InstanceDecoding(a.consumer.value);
      if ReadableInstance(a.consumer.value) {
        var i := DecodeInstance(a.consumer.value).value;
        var d := WithConsumer(c, i);
        AddsDo(d, i.id, a.grants);
        if AllInfosReadable(a.grants) {
          var r := AddGrants(d, i.id, a.grants).next;
          forall g ensures ClaimedBy(c, [a], r, g) { OneClaimed(c, a, i.id, d, r, g); }
          forall id ensures EnrolledBy(c, [a], r, id) { OneEnrolled(c, a, i, r, id); }
        }
      }
    }
  }

  lemma NoneAssigned(c: Map)
    ensures AssignedBy(c, [], c)
  {}

  lemma AssignedByFirst(c: Map, as': seq<Assignment>, d: Map, r: Map)
    requires as' != [] && AssignedBy(c, [as'[0]], d) && AssignedBy(d, as'[1..], r)
    ensures AssignedBy(c, as', r)
  {
    forall g ensures ClaimedBy(c, as', r, g) {
      assert ClaimedBy(c, [as'[0]], d, g) && ClaimedBy(d, as'[1..], r, g);
      ClaimedByFirst(c, as', d, r, g);
    }
    forall id ensures EnrolledBy(c, as', r, id) {
      assert EnrolledBy(c, [as'[0]], d, id) && EnrolledBy(d, as'[1..], r, id);
      EnrolledByFirst(c, as', d, r, id);
    }
  }

  lemma {:induction false} AssignsDo(c: Map, as': seq<Assignment>)
    ensures var r := ApplyAssignments(c, as');
            if AllAssignmentsReadable(as') then r.error.None? && AssignedBy(c, as', r.next)
            else r.error == Some(InvalidMessage)
    decreases |as'|
  {
    if as' == [] {
      NoneAssigned(c);
    } else {
      OneAssigned(c, as'[0]);
      var d := ApplyAssignment(c, as'[0]).next;
      AssignsDo(d, as'[1..]);
      assert AllAssignmentsReadable(as') <==> ReadableAssignment(as'[0]) && AllAssignmentsReadable(as'[1..]);
      if AllAssignmentsReadable(as') { AssignedByFirst(c, as', d, ApplyAssignments(d, as'[1..]).next); }
    }
  }

  /** Assignments fail only for what does not decode. A grant becomes what the last
      element that names it says; a consumer stays the one first known under its id, and
      its list goes on in the order of the batch. */
  lemma AssignPart(c: Map, as': seq<Assignment>, version: int, timestamp: Option<Time>)
    ensures match Apply(c, ChangeMessage(Change(Some(as'), None, None, None, None), version, timestamp))
            case Err(e) => e == InvalidMessage && !AllAssignmentsReadable(as')
            case Ok(r) =>
              && AllAssignmentsReadable(as') && Restamped(c, r, version, timestamp)
              && AssignedBy(c.(id := r.id), as', r)
  {
    var d := Stamp(c, version, if timestamp.Some? then timestamp.value else 0);
    AssignsDo(d, as');
  }

  // ---------- A snapshot ----------

  predicate ReadableSnapshot(s: Snapshot) {
    AllReadable(s.shards) && (s.origin.Some? ==> ReadableLocated(s.origin.value)) && AllAssignmentsReadable(s.assignments)
  }

  /** A snapshot owes nothing to the map before it: version, time, origin, shards,
      grants and consumers are the message's, and it fails only for what does not decode.
      A message with neither a snapshot nor a change always fails. */
  lemma SnapshotPart(c: Map, s: Snapshot, version: int, timestamp: Option<Time>)
    ensures Apply(c, Message(NoBody, version, timestamp)) == Err(InvalidMessage)
    ensures match Apply(c, Message(SnapshotBody(s), version, timestamp))
            case Err(e) => e == InvalidMessage && !ReadableSnapshot(s)
            case Ok(r) =>
              && ReadableSnapshot(s)
              && r.id.version == version && r.id.timestamp == (if timestamp.Some? then timestamp.value else 0)
              && (s.origin.None? <==> r.id.origin.None?)
              && (s.origin.Some? ==> IsLocated(s.origin.value, "", r.id.origin.value))
              && Spells(s.shards, r.shards) && AssignedBy(Map(r.id, map[], map[], r.shards), s.assignments, r)
  {
    ShardsDecoding(s.shards);
    if s.origin.Some? { LocatedDecoding(s.origin.value, ""); }
    if AllReadable(s.shards) && (s.origin.Some? ==> ReadableLocated(s.origin.value)) {
      var origin := if s.origin.None? then None else Some(DecodeLocated(s.origin.value, "").value);
      AssignsDo(Map(ClusterId(version, origin, if timestamp.Some? then timestamp.value else 0),
                    map[], map[], DecodeShards(s.shards).value), s.assignments);
    }
  }

  // ---------- A change with several parts ----------

  /** What the last two parts leave of the grants is as it was. */
  ghost predicate Thinned(c: Map, r: Map) {
    (forall g :: g in r.grants ==> g in c.grants && r.grants[g] == c.grants[g]) && r.shards == c.shards && r.id == c.id
  }

  lemma LastPartsThin(c: Map, ch: Change)
    ensures var d := UnassignPhase(c, ch).next;
            var r := RemovePhase(d, ch).next;
            && Thinned(c, r)
            && (ch.unassign.Some? ==> forall g :: g in ch.unassign.value ==> g !in r.grants)
            && (ch.remove.Some? ==> forall id :: Some(id) in ch.remove.value ==> id !in r.consumers)
            && (ch.remove.None? ==> forall g :: g in c.grants && (ch.unassign.Some? ==> g !in ch.unassign.value) ==>
                                      g in r.grants)
  {
    if ch.unassign.Some? { DropsReduce(c, ch.unassign.value); }
    if ch.remove.Some? { RemovesBereave(UnassignPhase(c, ch).next, ch.remove.value); }
  }

  /** What the first three parts decide. */
  ghost predicate Built(c: Map, ch: Change, d: Map, e: Map, r: Map) {
    && d.id == c.id && (if ch.shards.Some? then Spells(ch.shards.value, d.shards) else d == c)
    && (if ch.assign.Some? then AssignedBy(d, ch.assign.value, e) else e == d)
    && (if ch.update.Some? then Updated(e, ch.update.value, r) else r == e)
  }

  lemma FirstPartsBuild(c: Map, ch: Change)
    requires var d := ShardsPhase(c, ch);
             && d.error.None? && AssignPhase(d.next, ch).error.None?
             && UpdatePhase(AssignPhase(d.next, ch).next, ch).error.None?
    ensures var d := ShardsPhase(c, ch).next;
            var e := AssignPhase(d, ch).next;
            Built(c, ch, d, e, UpdatePhase(e, ch).next)
  {
    var d := ShardsPhase(c, ch).next;
    var e := AssignPhase(d, ch).next;
    if ch.shards.Some? { ShardsDo(c, ch.shards.value); }
    if ch.assign.Some? { AssignsDo(d, ch.assign.value); }
    if ch.update.Some? { UpdatesDo(e, ch.update.value); }
  }

  lemma {:induction false} ClaimedHasLast(as': seq<Assignment>, g: GrantId) returns (n: int, m: int)
    requires Claimed(as', g)
    ensures LastClaimed(as', g, n, m)
    decreases |as'|
  {
    n := |as'| - 1;
    if NamesGrant(as'[n].grants, g) {
      m := NamedHasLast(as'[n].grants, g);
    } else {
      assert forall k :: 0 <= k < n ==> as'[..n][k] == as'[k];
      var k :| 0 <= k < |as'| && NamesGrant(as'[k].grants, g);
      assert NamesGrant(as'[..n][k].grants, g);
      n, m := ClaimedHasLast(as'[..n], g);
    }
  }

  lemma {:induction false} NamedHasLast(gs: seq<GrantInfo>, g: GrantId) returns (m: int)
    requires NamesGrant(gs, g)
    ensures LastUpdate(gs, g, m)
    decreases |gs|
  {
    m := |gs| - 1;
    if gs[m].id != g {
      var k :| 0 <= k < |gs| && gs[k].id == g;
      assert gs[..m][k].id == g;
      m := NamedHasLast(gs[..m], g);
    }
  }

  /** Where the parts of one change meet: an unassigned grant is gone whatever else names
      it, and a removed consumer whoever assigned to it; an update beats an assignment; and
      an assignment stands even on a shard that the new set of shards does not hold. */
  lemma LaterPartsPrevail(c: Map, ch: Change, version: int, timestamp: Option<Time>, r: Map)
    requires Apply(c, ChangeMessage(ch, version, timestamp)) == Ok(r)
    ensures Restamped(c, r, version, timestamp)
    ensures if ch.shards.Some? then Spells(ch.shards.value, r.shards) else r.shards == c.shards
    ensures ch.unassign.Some? ==> forall g :: g in ch.unassign.value ==> g !in r.grants
    ensures ch.remove.Some? ==> forall id :: Some(id) in ch.remove.value ==> id !in r.consumers
    ensures ch.update.Some? ==> forall g, n :: g in r.grants && LastUpdate(ch.update.value, g, n) ==>
              IsState(ch.update.value[n].state, r.grants[g].state)
    ensures ch.assign.Some? && ch.update.None? ==> forall g, n, m ::
              g in r.grants && LastClaimed(ch.assign.value, g, n, m) ==>
                Claims(ch.assign.value[n].grants[m], r.grants[g].consumer, r.grants[g])
    ensures ch.assign.Some? && ch.remove.None? ==> forall g ::
              Claimed(ch.assign.value, g) && (ch.unassign.Some? ==> g !in ch.unassign.value) ==> g in r.grants
  {
    var c0 := Stamp(c, version, if timestamp.Some? then timestamp.value else 0);
    var d := ShardsPhase(c0, ch).next;
    var e := AssignPhase(d, ch).next;
    var u := UpdatePhase(e, ch).next;
    FirstPartsBuild(c0, ch);
    LastPartsThin(u, ch);
    if ch.assign.Some? && ch.remove.None? {
      forall g | Claimed(ch.assign.value, g) && (ch.unassign.Some? ==> g !in ch.unassign.value)
        ensures g in r.grants
      {
        var n, m := ClaimedHasLast(ch.assign.value, g);
        assert ClaimedBy(d, ch.assign.value, e, g);
      }
    }
    forall g, n, m | ch.assign.Some? && ch.update.None? && g in r.grants && LastClaimed(ch.assign.value, g, n, m)
      ensures Claims(ch.assign.value[n].grants[m], r.grants[g].consumer, r.grants[g])
    {
      assert ClaimedBy(d, ch.assign.value, e, g);
    }
  }

  /** What a change with one part does. */
  ghost predicate PartEffect(c: Map, ch: Change, r: Map) {
    match ch
    case Change(None, None, None, None, Some(raw)) =>
      Spells(raw, r.shards) && Reduced(c, r, OffShards(c, r.shards))
    case Change(Some(as'), None, None, None, None) => AssignedBy(c.(id := r.id), as', r)
    case Change(None, Some(gs), None, None, None) => Updated(c.(id := r.id), gs, r)
    case Change(None, None, Some(gs), None, None) => r.shards == c.shards && Reduced(c, r, Unassigned(gs))
    case Change(None, None, None, Some(ids), None) => Bereft(c.(id := r.id), ids, r)
    case _ => true
  }

  lemma PartsDo(c: Map, ch: Change, version: int, timestamp: Option<Time>)
    ensures var r := Apply(c, ChangeMessage(ch, version, timestamp));
            r.Ok? ==> PartEffect(c, ch, r.value)
  {
    match ch {
      case Change(None, None, None, None, Some(raw)) => ShardsPart(c, raw, version, timestamp);
      case Change(Some(as'), None, None, None, None) => AssignPart(c, as', version, timestamp);
      case Change(None, Some(gs), None, None, None) => UpdatePart(c, gs, version, timestamp);
      case Change(None, None, Some(gs), None, None) => UnassignPart(c, gs, version, timestamp);
      case Change(None, None, None, Some(ids), None) => RemovePart(c, ids, version, timestamp);
      case _ =>
    }
  }
}
