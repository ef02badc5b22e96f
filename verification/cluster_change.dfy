/** A change carrying several parts, taken apart; a snapshot as a change; and the
    owner each grant ends up with. */
module ClusterChange {
  import opened Ids
  import opened Cluster

  const NOTHING := Change(None, None, None, None, None)

  /** The change as one-part changes, in the order the parts take effect. */
  function Parts(ch: Change): seq<Change> {
    [NOTHING.(shards := ch.shards),
     NOTHING.(assign := ch.assign),
     NOTHING.(update := ch.update),
     NOTHING.(unassign := ch.unassign),
     NOTHING.(remove := ch.remove)]
  }

  function ApplyInOrder(c: Map, parts: seq<Change>, version: int, timestamp: Option<Time>): Result<Map, ClientError>
    decreases |parts|
  {
    if parts == [] then Ok(c)
    else
      match Apply(c, Message(ChangeBody(parts[0]), version, timestamp))
      case Err(e) => Err(e)
      case Ok(next) => ApplyInOrder(next, parts[1..], version, timestamp)
  }

  // ---------- Steps do not touch the snapshot's identity ----------

  lemma {:induction false} AddsKeepId(c: Map, owner: InstanceId, gs: seq<GrantInfo>)
    requires owner in c.consumers
    ensures AddGrants(c, owner, gs).next.id == c.id
    decreases |gs|
  {
    if gs != [] && gs[0].shard.Some? && DecodeShard(gs[0].shard.value).Ok? {
      AddsKeepId(AddGrant(c, owner, gs[0].id, DecodeShard(gs[0].shard.value).value, GrantStateFromI32(gs[0].state)),
                 owner, gs[1..]);
    }
  }

  lemma {:induction false} AssignsKeepId(c: Map, as': seq<Assignment>)
    ensures ApplyAssignments(c, as').next.id == c.id
    decreases |as'|
  {
    if as' != [] {
      var a := as'[0];
      if a.consumer.Some? && DecodeInstance(a.consumer.value).Ok? {
        var i := DecodeInstance(a.consumer.value).value;
        AddsKeepId(WithConsumer(c, i), i.id, a.grants);
      }
      AssignsKeepId(ApplyAssignment(c, a).next, as'[1..]);
    }
  }

  lemma {:induction false} UpdatesKeepId(c: Map, gs: seq<GrantInfo>)
    ensures UpdateGrants(c, gs).next.id == c.id
    decreases |gs|
  {
    if gs != [] { UpdatesKeepId(UpdateGrant(c, gs[0]).next, gs[1..]); }
  }

  lemma {:induction false} DropsKeepId(c: Map, gs: seq<GrantId>)
    ensures DropGrants(c, gs).id == c.id
    decreases |gs|
  {
    if gs != [] { DropsKeepId(DropGrant(c, gs[0]), gs[1..]); }
  }

  lemma {:induction false} RemovesKeepId(c: Map, ids: seq<Option<InstanceId>>)
    ensures RemoveConsumers(c, ids).id == c.id
    decreases |ids|
  {
    if ids != [] {
      RemovesKeepId(if ids[0].Some? then RemoveConsumer(c, ids[0].value) else c, ids[1..]);
    }
  }

  function Phase(c: Map, ch: Change, k: nat): Outcome {
    match k
    case 0 => ShardsPhase(c, ch)
    case 1 => AssignPhase(c, ch)
    case 2 => UpdatePhase(c, ch)
    case 3 => UnassignPhase(c, ch)
    case _ => RemovePhase(c, ch)
  }

  /** The phases of a change from the k-th on. */
  function PhasesFrom(c: Map, ch: Change, k: nat): Outcome
    decreases 5 - k
  {
    if k >= 5 then Outcome(c, None)
    else if Phase(c, ch, k).error.Some? then Phase(c, ch, k)
    else PhasesFrom(Phase(c, ch, k).next, ch, k + 1)
  }

  lemma PhaseKeepsId(c: Map, ch: Change, k: nat)
    ensures Phase(c, ch, k).next.id == c.id
  {
    if k == 1 && ch.assign.Some? { AssignsKeepId(c, ch.assign.value); }
    if k == 2 && ch.update.Some? { UpdatesKeepId(c, ch.update.value); }
    if k == 3 && ch.unassign.Some? { DropsKeepId(c, ch.unassign.value); }
    if k >= 4 && ch.remove.Some? { RemovesKeepId(c, ch.remove.value); }
  }

  /** The other four phases of a one-part change do nothing. */
  lemma PartIsPhase(c: Map, ch: Change, k: nat, version: int, timestamp: Option<Time>)
    requires k < 5
    ensures var m := Message(ChangeBody(Parts(ch)[k]), version, timestamp);
            Apply(c, m) == ToResult(Phase(Stamp(c, version, Stamped(m)), ch, k))
  {}

  lemma {:induction false} PartsArePhases(c: Map, ch: Change, k: nat, version: int, timestamp: Option<Time>)
    requires k <= 5
    requires c.id.version == version
    requires c.id.timestamp == Stamped(Message(ChangeBody(ch), version, timestamp))
    ensures ApplyInOrder(c, Parts(ch)[k..], version, timestamp) == ToResult(PhasesFrom(c, ch, k))
    decreases 5 - k
  {
    if k < 5 {
      PartIsPhase(c, ch, k, version, timestamp);
      PhaseKeepsId(c, ch, k);
      assert Stamp(c, version, c.id.timestamp) == c;
      var rest := Parts(ch)[k..];
      assert rest[0] == Parts(ch)[k] && rest[1..] == Parts(ch)[k + 1..];
      PartsArePhases(Phase(c, ch, k).next, ch, k + 1, version, timestamp);
    }
  }

  lemma ChangeIsItsPhases(c: Map, ch: Change, version: int, timestamp: Time)
    ensures ApplyChange(c, ch, version, timestamp) == PhasesFrom(Stamp(c, version, timestamp), ch, 0)
  {
    var c0 := Stamp(c, version, timestamp);
    var c1 := ShardsPhase(c0, ch).next;
    var c2 := AssignPhase(c1, ch).next;
    var c3 := UpdatePhase(c2, ch).next;
    var c4 := UnassignPhase(c3, ch).next;
    var r := RemovePhase(c4, ch);
    assert PhasesFrom(r.next, ch, 5) == r;
    assert PhasesFrom(c4, ch, 4) == r;
    assert PhasesFrom(c3, ch, 3) == r;
  }

  /** A change with all five parts is its parts one after the other: same map, and
      it fails exactly when one of them does, with the same error. */
  lemma ChangeIsItsParts(c: Map, ch: Change, version: int, timestamp: Option<Time>)
    ensures Apply(c, Message(ChangeBody(ch), version, timestamp))
         == ApplyInOrder(c, Parts(ch), version, timestamp)
  {
    var t := Stamped(Message(ChangeBody(ch), version, timestamp));
    var c0 := Stamp(c, version, t);
    ChangeIsItsPhases(c, ch, version, t);
    PartIsPhase(c, ch, 0, version, timestamp);
    PhaseKeepsId(c0, ch, 0);
    if Phase(c0, ch, 0).error.None? {
      PartsArePhases(Phase(c0, ch, 0).next, ch, 1, version, timestamp);
    }
  }

  // ---------- A snapshot is a change of the empty map ----------

  function At(r: Outcome, id: ClusterId): Outcome { Outcome(r.next.(id := id), r.error) }

  lemma {:induction false} AddsIgnoreId(c: Map, owner: InstanceId, gs: seq<GrantInfo>, id: ClusterId)
    requires owner in c.consumers
    ensures AddGrants(c.(id := id), owner, gs) == At(AddGrants(c, owner, gs), id)
    decreases |gs|
  {
    if gs != [] && gs[0].shard.Some? && DecodeShard(gs[0].shard.value).Ok? {
      var shard, state := DecodeShard(gs[0].shard.value).value, GrantStateFromI32(gs[0].state);
      var next := AddGrant(c, owner, gs[0].id, shard, state);
      assert AddGrant(c.(id := id), owner, gs[0].id, shard, state) == next.(id := id);
      AddsIgnoreId(next, owner, gs[1..], id);
    }
  }

  lemma {:induction false} AssignsIgnoreId(c: Map, as': seq<Assignment>, id: ClusterId)
    ensures ApplyAssignments(c.(id := id), as') == At(ApplyAssignments(c, as'), id)
    decreases |as'|
  {
    if as' != [] {
      var a := as'[0];
      if a.consumer.Some? && DecodeInstance(a.consumer.value).Ok? {
        var i := DecodeInstance(a.consumer.value).value;
        assert WithConsumer(c.(id := id), i) == WithConsumer(c, i).(id := id);
        AddsIgnoreId(WithConsumer(c, i), i.id, a.grants, id);
      }
      assert ApplyAssignment(c.(id := id), a) == At(ApplyAssignment(c, a), id);
      AssignsIgnoreId(ApplyAssignment(c, a).next, as'[1..], id);
    }
  }

  predicate OriginDecodes(s: Snapshot) {
    s.origin.None? || DecodeLocated(s.origin.value, "").Ok?
  }

  /** A snapshot whose origin decodes gives what its shards and assignments, as one
      change, make of the empty map; only the origin differs. */
  lemma SnapshotIsChangeOfEmpty(c: Map, s: Snapshot, version: int, timestamp: Option<Time>)
    requires OriginDecodes(s)
    ensures var snap := Apply(c, Message(SnapshotBody(s), version, timestamp));
            var change := Apply(EMPTY, Message(ChangeBody(
                            NOTHING.(shards := Some(s.shards), assign := Some(s.assignments))), version, timestamp));
            && (snap.Err? <==> change.Err?)
            && (snap.Err? ==> snap.error == change.error)
            && (snap.Ok? ==> snap.value.(id := change.value.id) == change.value)
  {
    var t := Stamped(Message(SnapshotBody(s), version, timestamp));
    var ch := NOTHING.(shards := Some(s.shards), assign := Some(s.assignments));
    var c0 := Stamp(EMPTY, version, t);
    if DecodeShards(s.shards).Ok? {
      var shards := DecodeShards(s.shards).value;
      var bare := c0.(shards := shards);
      assert Orphans(c0, shards) == {};
      assert DropSet(bare, {}).consumers == map[];
      assert ShardsPhase(c0, ch).next == bare;
      var origin := if s.origin.None? then None else Some(DecodeLocated(s.origin.value, "").value);
      var id := ClusterId(version, origin, t);
      assert bare.(id := id) == Map(id, map[], map[], shards);
      AssignsIgnoreId(bare, s.assignments, id);
      AssignsKeepId(bare, s.assignments);
    }
  }

  // ---------- The last assignment wins ----------

  datatype Claim = Claim(owner: InstanceId, info: GrantInfo)

  predicate Decodes(as': seq<Assignment>) {
    forall n | 0 <= n < |as'| ::
      && as'[n].consumer.Some? && DecodeInstance(as'[n].consumer.value).Ok?
      && forall m | 0 <= m < |as'[n].grants| ::
           as'[n].grants[m].shard.Some? && DecodeShard(as'[n].grants[m].shard.value).Ok?
  }

  function OwnerIn(a: Assignment): InstanceId
    requires a.consumer.Some? && DecodeInstance(a.consumer.value).Ok?
  {
    DecodeInstance(a.consumer.value).value.id
  }

  /** What `g` becomes under the grants `gs` of `owner`, having been `e` before. */
  function LastClaim(owner: InstanceId, gs: seq<GrantInfo>, g: GrantId, e: Option<GrantEntry>): Option<GrantEntry>
    requires forall m | 0 <= m < |gs| :: gs[m].shard.Some? && DecodeShard(gs[m].shard.value).Ok?
  {
    if gs == [] then e
    else
      var last := gs[|gs| - 1];
      if last.id == g
      then Some(GrantEntry(g, DecodeShard(last.shard.value).value, GrantStateFromI32(last.state), owner))
      else LastClaim(owner, gs[..|gs| - 1], g, e)
  }

  function LastOwner(as': seq<Assignment>, g: GrantId, e: Option<GrantEntry>): Option<GrantEntry>
    requires Decodes(as')
  {
    if as' == [] then e
    else
      var last := as'[|as'| - 1];
      LastClaim(OwnerIn(last), last.grants, g, LastOwner(as'[..|as'| - 1], g, e))
  }

  function EntryAt(c: Map, g: GrantId): Option<GrantEntry> {
    if g in c.grants then Some(c.grants[g]) else None
  }

  lemma {:induction false} ClaimsFromFront(owner: InstanceId, gs: seq<GrantInfo>, g: GrantId, e: Option<GrantEntry>)
    requires gs != []
    requires forall m | 0 <= m < |gs| :: gs[m].shard.Some? && DecodeShard(gs[m].shard.value).Ok?
    ensures LastClaim(owner, gs, g, e) == LastClaim(owner, gs[1..], g, LastClaim(owner, [gs[0]], g, e))
  {
    if |gs| > 1 {
      ClaimsFromFront(owner, gs[..|gs| - 1], g, e);
      assert gs[..|gs| - 1][1..] == gs[1..][..|gs[1..]| - 1];
      assert gs[1..][|gs[1..]| - 1] == gs[|gs| - 1];
    } else {
      assert gs == [gs[0]];
    }
  }

  lemma {:induction false} AddsGiveLastClaim(c: Map, owner: InstanceId, gs: seq<GrantInfo>, g: GrantId)
    requires owner in c.consumers
    requires forall m | 0 <= m < |gs| :: gs[m].shard.Some? && DecodeShard(gs[m].shard.value).Ok?
    ensures AddGrants(c, owner, gs).error.None?
    ensures EntryAt(AddGrants(c, owner, gs).next, g) == LastClaim(owner, gs, g, EntryAt(c, g))
    decreases |gs|
  {
    if gs != [] {
      var next := AddGrant(c, owner, gs[0].id, DecodeShard(gs[0].shard.value).value, GrantStateFromI32(gs[0].state));
      AddsGiveLastClaim(next, owner, gs[1..], g);
      ClaimsFromFront(owner, gs, g, EntryAt(c, g));
      assert [gs[0]][..0] == [];
      assert EntryAt(next, g) == LastClaim(owner, [gs[0]], g, EntryAt(c, g));
    }
  }

  lemma {:induction false} AssignSnoc(c: Map, as': seq<Assignment>, a: Assignment)
    requires ApplyAssignments(c, as').error.None?
    ensures ApplyAssignments(c, as' + [a]) == ApplyAssignment(ApplyAssignments(c, as').next, a)
    decreases |as'|
  {
    if as' == [] {
      assert as' + [a] == [a];
      var first := ApplyAssignment(c, a);
      assert [a][1..] == [];
      assert first.error.None? ==> ApplyAssignments(first.next, []) == first;
    } else {
      assert (as' + [a])[1..] == as'[1..] + [a];
      AssignSnoc(ApplyAssignment(c, as'[0]).next, as'[1..], a);
    }
  }

  /** Decodable assignments never fail, and each grant ends with the owner, shard
      and state of the last one that names it. */
  lemma {:induction false} LastAssignmentWins(c: Map, as': seq<Assignment>, g: GrantId)
    requires Decodes(as')
    ensures ApplyAssignments(c, as').error.None?
    ensures EntryAt(ApplyAssignments(c, as').next, g) == LastOwner(as', g, EntryAt(c, g))
  {
    if as' != [] {
      var before, a := as'[..|as'| - 1], as'[|as'| - 1];
      LastAssignmentWins(c, before, g);
      assert before + [a] == as';
      AssignSnoc(c, before, a);
      var m := ApplyAssignments(c, before).next;
      var i := DecodeInstance(a.consumer.value).value;
      AddsGiveLastClaim(WithConsumer(m, i), i.id, a.grants, g);
      assert EntryAt(WithConsumer(m, i), g) == EntryAt(m, g);
    }
  }
}
