/** What a change makes of the cluster snapshot, part by part and as a whole, told by
    the two maps and the fields of the message. */
module ClusterLaws {
  import opened Ids
  import opened Wire
  import opened Cluster
  import Exact = ClusterExact
  import Parts = ClusterChange

  /** A change with these parts. */
  function ChangeMessage(ch: Change, version: int, timestamp: Option<Time>): Message {
    Message(ChangeBody(ch), version, timestamp)
  }

  /** The snapshot takes version and time from the message, and keeps its origin. */
  predicate Restamped(c: Map, r: Map, version: int, timestamp: Option<Time>) {
    r.id == ClusterId(version, c.id.origin, if timestamp.Some? then timestamp.value else 0)
  }

  // ---------- Lists ----------

  /** `list` without the grants of `gone`, otherwise as it was. */
  function Without(list: seq<GrantId>, gone: set<GrantId>): seq<GrantId> {
    if list == [] then []
    else
      var before, last := list[..|list| - 1], list[|list| - 1];
      Without(before, gone) + (if last in gone then [] else [last])
  }

  lemma {:induction false} KeepSnoc(list: seq<GrantId>, x: GrantId, gone: set<GrantId>)
    ensures Keep(list + [x], gone) == Keep(list, gone) + (if x in gone then [] else [x])
  {
    if list == [] {
      assert list + [x] == [x] && [x][1..] == [];
    } else {
      assert (list + [x])[1..] == list[1..] + [x];
      KeepSnoc(list[1..], x, gone);
    }
  }

  lemma {:induction false} KeepIsWithout(list: seq<GrantId>, gone: set<GrantId>)
    ensures Keep(list, gone) == Without(list, gone)
  {
    if list != [] {
      var before, last := list[..|list| - 1], list[|list| - 1];
      assert before + [last] == list;
      KeepSnoc(before, last, gone);
      KeepIsWithout(before, gone);
    }
  }

  /** The list of consumer `id` loses exactly the grants it owned that are gone. */
  predicate ListLoses(c: Map, r: Map, id: InstanceId)
    requires id in c.consumers
  {
    && id in r.consumers && r.consumers[id].consumer == c.consumers[id].consumer
    && r.consumers[id].grants
       == Without(c.consumers[id].grants, set g | g in c.grants && g !in r.grants && c.grants[g].consumer == id)
  }

  /** Exactly the grants of `gone` leave; the others stay as they were, and so do all
      consumers, whose lists lose the grants they owned. */
  ghost predicate Reduced(c: Map, r: Map, gone: set<GrantId>) {
    && (forall g :: g in r.grants <==> g in c.grants && g !in gone)
    && (forall g :: g in r.grants ==> r.grants[g] == c.grants[g])
    && r.consumers.Keys == c.consumers.Keys
    && (forall id :: id in c.consumers ==> ListLoses(c, r, id))
  }

  lemma DropSetReduces(c: Map, gone: set<GrantId>)
    ensures Reduced(c, DropSet(c, gone), gone)
  {
    var r := DropSet(c, gone);
    forall id | id in c.consumers ensures ListLoses(c, r, id) {
      var lost := set g | g in c.grants && g !in r.grants && c.grants[g].consumer == id;
      assert lost == Lost(c, gone, id);
      KeepIsWithout(c.consumers[id].grants, lost);
    }
  }

  /** Only grants and consumers matter to a reduction. */
  lemma SameReduction(c: Map, d: Map, r: Map, gone: set<GrantId>)
    requires Reduced(d, r, gone) && d.grants == c.grants && d.consumers == c.consumers
    ensures Reduced(c, r, gone)
  {
    forall id | id in c.consumers ensures ListLoses(c, r, id) { assert ListLoses(d, r, id); }
  }

  // ---------- The shards part ----------

  predicate AllReadable(raw: seq<RawShard>) {
    forall n :: 0 <= n < |raw| ==> ReadableShard(raw[n])
  }

  predicate Spells(raw: seq<RawShard>, shards: seq<Shard>) {
    |shards| == |raw| && forall n :: 0 <= n < |raw| ==> IsShard(raw[n], shards[n])
  }

  lemma {:induction false} ShardsDecoding(raw: seq<RawShard>)
    ensures var r := DecodeShards(raw);
            if AllReadable(raw) then r.Ok? && Spells(raw, r.value) else GaveUp(r)
  {
    if raw != [] {
      ShardDecoding(raw[0]);
      ShardsDecoding(raw[1..]);
      assert AllReadable(raw) <==> ReadableShard(raw[0]) && AllReadable(raw[1..]);
    }
  }

  /** The grants that are on none of the shards. */
  function OffShards(c: Map, shards: seq<Shard>): set<GrantId> {
    set g | g in c.grants && forall n :: 0 <= n < |shards| ==> shards[n] != c.grants[g].shard
  }

  lemma ShardsDo(c: Map, raw: seq<RawShard>)
    ensures var r := SetShards(c, raw);
            if !AllReadable(raw) then r.error == Some(InvalidMessage)
            else r.error.None? && r.next.id == c.id && Spells(raw, r.next.shards)
                 && Reduced(c, r.next, OffShards(c, r.next.shards))
  {
    ShardsDecoding(raw);
    if AllReadable(raw) {
      var shards := DecodeShards(raw).value;
      var d := c.(shards := shards);
      assert Orphans(c, shards) == OffShards(c, shards);
      DropSetReduces(d, Orphans(c, shards));
      SameReduction(c, d, DropSet(d, Orphans(c, shards)), Orphans(c, shards));
    }
  }

  /** A new set of shards replaces the old one, and exactly the grants on shards that
      are in it stay. */
  lemma ShardsPart(c: Map, raw: seq<RawShard>, version: int, timestamp: Option<Time>)
    ensures match Apply(c, ChangeMessage(Change(None, None, None, None, Some(raw)), version, timestamp))
            case Err(e) => e == InvalidMessage && !AllReadable(raw)
            case Ok(r) =>
              && AllReadable(raw) && Restamped(c, r, version, timestamp) && Spells(raw, r.shards)
              && Reduced(c, r, OffShards(c, r.shards))
  {
    var ch := Change(None, None, None, None, Some(raw));
    var d := Stamp(c, version, if timestamp.Some? then timestamp.value else 0);
    ShardsDo(d, raw);
    Parts.PartIsPhase(c, ch, 0, version, timestamp);
    if AllReadable(raw) {
      var r := SetShards(d, raw).next;
      SameReduction(c, d, r, OffShards(d, r.shards));
      assert OffShards(d, r.shards) == OffShards(c, r.shards);
    }
  }

  // ---------- Unassign and remove ----------

  function Unassigned(gs: seq<GrantId>): set<GrantId> { set n | 0 <= n < |gs| :: gs[n] }

  lemma DropsReduce(c: Map, gs: seq<GrantId>)
    ensures var r := DropGrants(c, gs);
            Reduced(c, r, Unassigned(gs)) && r.id == c.id && r.shards == c.shards
  {
    Exact.DropOrderIsIrrelevant(c, gs);
    assert Members(gs) == Unassigned(gs);
    DropSetReduces(c, Members(gs));
  }

  /** Exactly the grants named leave, with their places in their owners' lists. */
  lemma UnassignPart(c: Map, gs: seq<GrantId>, version: int, timestamp: Option<Time>)
    ensures match Apply(c, ChangeMessage(Change(None, None, Some(gs), None, None), version, timestamp))
            case Err(_) => false
            case Ok(r) =>
              Restamped(c, r, version, timestamp) && r.shards == c.shards && Reduced(c, r, Unassigned(gs))
  {
    var ch := Change(None, None, Some(gs), None, None);
    var d := Stamp(c, version, if timestamp.Some? then timestamp.value else 0);
    DropsReduce(d, gs);
    Parts.PartIsPhase(c, ch, 3, version, timestamp);
    SameReduction(c, d, DropGrants(d, gs), Unassigned(gs));
  }

  /** A removed consumer lists the grant. */
  ghost predicate Listed(c: Map, ids: seq<Option<InstanceId>>, g: GrantId) {
    exists id :: Some(id) in ids && id in c.consumers && g in c.consumers[id].grants
  }

  /** Exactly the consumers named leave, and exactly the grants that they list; all
      others are as they were. */
  ghost predicate Bereft(c: Map, ids: seq<Option<InstanceId>>, r: Map) {
    && (forall id :: id in r.consumers <==> id in c.consumers && Some(id) !in ids)
    && (forall id :: id in r.consumers ==> r.consumers[id] == c.consumers[id])
    && (forall g :: g in r.grants <==> g in c.grants && !Listed(c, ids, g))
    && (forall g :: g in r.grants ==> r.grants[g] == c.grants[g])
    && r.shards == c.shards && r.id == c.id
  }

  lemma BereftOfFirst(c: Map, ids: seq<Option<InstanceId>>, r: Map)
    requires ids != []
    requires Bereft(if ids[0].Some? then RemoveConsumer(c, ids[0].value) else c, ids[1..], r)
    ensures Bereft(c, ids, r)
  {
    var d := if ids[0].Some? then RemoveConsumer(c, ids[0].value) else c;
    assert forall id :: Some(id) in ids <==> Some(id) == ids[0] || Some(id) in ids[1..];
    forall g | g in c.grants ensures Listed(c, ids, g) <==> g !in d.grants || Listed(d, ids[1..], g) {
      if id :| Some(id) in ids && id in c.consumers && g in c.consumers[id].grants {
        assert Some(id) in ids[1..] && id in d.consumers ==> Listed(d, ids[1..], g);
      }
      if g !in d.grants { assert Some(ids[0].value) in ids; }
    }
  }

  lemma {:induction false} RemovesBereave(c: Map, ids: seq<Option<InstanceId>>)
    ensures Bereft(c, ids, RemoveConsumers(c, ids))
    decreases |ids|
  {
    if ids != [] {
      RemovesBereave(if ids[0].Some? then RemoveConsumer(c, ids[0].value) else c, ids[1..]);
      BereftOfFirst(c, ids, RemoveConsumers(c, ids));
    }
  }

  /** Consumers are removed together with the grants they list, whoever owns them;
      ids that do not parse are passed over. */
  lemma RemovePart(c: Map, ids: seq<Option<InstanceId>>, version: int, timestamp: Option<Time>)
    ensures match Apply(c, ChangeMessage(Change(None, None, None, Some(ids), None), version, timestamp))
            case Err(_) => false
            case Ok(r) => Restamped(c, r, version, timestamp) && Bereft(c.(id := r.id), ids, r)
  {
    RemovesBereave(Stamp(c, version, if timestamp.Some? then timestamp.value else 0), ids);
  }

  // ---------- Update ----------

  predicate LastUpdate(gs: seq<GrantInfo>, g: GrantId, n: int) {
    0 <= n < |gs| && gs[n].id == g && forall m :: n < m < |gs| ==> gs[m].id != g
  }

  predicate LastShard(gs: seq<GrantInfo>, g: GrantId, n: int) {
    && 0 <= n < |gs| && gs[n].id == g && gs[n].shard.Some?
    && forall m :: n < m < |gs| && gs[m].id == g ==> gs[m].shard.None?
  }

  /** The element names a grant of the map with a shard that does not decode. */
  predicate Unreadable(c: Map, g: GrantInfo) { g.id in c.grants && g.shard.Some? && !ReadableShard(g.shard.value) }

  /** Grant `g` has the state of the last update that names it, and the shard of the
      last that carries one; what none gives stays. */
  ghost predicate UpdatedBy(gs: seq<GrantInfo>, g: GrantId, e: GrantEntry, f: GrantEntry) {
    && f.id == e.id && f.consumer == e.consumer
    && (forall n :: LastUpdate(gs, g, n) ==> IsState(gs[n].state, f.state))
    && (forall n :: LastShard(gs, g, n) ==> IsShard(gs[n].shard.value, f.shard))
    && ((forall n :: 0 <= n < |gs| ==> gs[n].id != g) ==> f.state == e.state)
    && ((forall n :: 0 <= n < |gs| && gs[n].id == g ==> gs[n].shard.None?) ==> f.shard == e.shard)
  }

  ghost predicate Updated(c: Map, gs: seq<GrantInfo>, r: Map) {
    && r.grants.Keys == c.grants.Keys && r.consumers == c.consumers && r.shards == c.shards && r.id == c.id
    && forall g :: g in c.grants ==> UpdatedBy(gs, g, c.grants[g], r.grants[g])
  }

  /** After one update the rest of the batch leads on. */
  lemma UpdatedByFirst(gs: seq<GrantInfo>, g: GrantId, e: GrantEntry, d: GrantEntry, f: GrantEntry)
    requires gs != [] && UpdatedBy(gs[1..], g, d, f) && d.id == e.id && d.consumer == e.consumer
    requires if gs[0].id != g then d == e
             else IsState(gs[0].state, d.state) && if gs[0].shard.Some? then IsShard(gs[0].shard.value, d.shard)
                                                   else d.shard == e.shard
    ensures UpdatedBy(gs, g, e, f)
  {
    forall n | LastUpdate(gs, g, n) ensures IsState(gs[n].state, f.state) {
      if n > 0 {
        assert LastUpdate(gs[1..], g, n - 1);
      } else {
        assert forall m :: 0 <= m < |gs[1..]| ==> gs[1..][m] == gs[m + 1];
      }
    }
    forall n | LastShard(gs, g, n) ensures IsShard(gs[n].shard.value, f.shard) {
      if n > 0 {
        assert LastShard(gs[1..], g, n - 1);
      } else {
        assert forall m :: 0 <= m < |gs[1..]| ==> gs[1..][m] == gs[m + 1];
      }
    }
    assert forall m :: 0 <= m < |gs[1..]| ==> gs[1..][m] == gs[m + 1];
  }

  lemma UpdateDoes(c: Map, g: GrantInfo)
    ensures var r := UpdateGrant(c, g);
            if Unreadable(c, g) then r.error == Some(InvalidMessage)
            else
              && r.error.None? && r.next.(grants := c.grants) == c && r.next.grants.Keys == c.grants.Keys
              && (forall h :: h in c.grants && h != g.id ==> r.next.grants[h] == c.grants[h])
              && (g.id in c.grants ==>
                    var e, d := c.grants[g.id], r.next.grants[g.id];
                    && d.id == e.id && d.consumer == e.consumer && IsState(g.state, d.state)
                    && if g.shard.Some? then IsShard(g.shard.value, d.shard) else d.shard == e.shard)
  {
    StateDecoding(g.state);
    if g.shard.Some? { ShardDecoding(g.shard.value); }
  }

  lemma {:induction false} UpdatesDo(c: Map, gs: seq<GrantInfo>)
    ensures var r := UpdateGrants(c, gs);
            if exists n :: 0 <= n < |gs| && Unreadable(c, gs[n]) then r.error == Some(InvalidMessage)
            else r.error.None? && Updated(c, gs, r.next)
    decreases |gs|
  {
    if gs != [] {
      UpdateDoes(c, gs[0]);
      if !Unreadable(c, gs[0]) {
        var d := UpdateGrant(c, gs[0]).next;
        UpdatesDo(d, gs[1..]);
        UnreadableLater(c, d, gs);
        if !exists n :: 0 <= n < |gs[1..]| && Unreadable(d, gs[1..][n]) {
          var r := UpdateGrants(d, gs[1..]).next;
          forall g | g in c.grants ensures UpdatedBy(gs, g, c.grants[g], r.grants[g]) {
            UpdatedByFirst(gs, g, c.grants[g], d.grants[g], r.grants[g]);
          }
        }
      }
    }
  }

  lemma UnreadableLater(c: Map, d: Map, gs: seq<GrantInfo>)
    requires gs != [] && d.grants.Keys == c.grants.Keys && !Unreadable(c, gs[0])
    ensures (exists n :: 0 <= n < |gs| && Unreadable(c, gs[n]))
       <==> exists n :: 0 <= n < |gs[1..]| && Unreadable(d, gs[1..][n])
  {
    if n :| 0 <= n < |gs| && Unreadable(c, gs[n]) { assert Unreadable(d, gs[1..][n - 1]); }
    if n :| 0 <= n < |gs[1..]| && Unreadable(d, gs[1..][n]) { assert Unreadable(c, gs[n + 1]); }
  }

  /** An update fails only for a shard that does not decode on a grant that is there;
      grants that are not there are passed over. */
  lemma UpdatePart(c: Map, gs: seq<GrantInfo>, version: int, timestamp: Option<Time>)
    ensures match Apply(c, ChangeMessage(Change(None, Some(gs), None, None, None), version, timestamp))
            case Err(e) => e == InvalidMessage && exists n :: 0 <= n < |gs| && Unreadable(c, gs[n])
            case Ok(r) =>
              && (forall n :: 0 <= n < |gs| ==> !Unreadable(c, gs[n]))
              && Restamped(c, r, version, timestamp) && Updated(c.(id := r.id), gs, r)
  {
    var d := Stamp(c, version, if timestamp.Some? then timestamp.value else 0);
    UpdatesDo(d, gs);
    forall n | 0 <= n < |gs| ensures Unreadable(c, gs[n]) <==> Unreadable(d, gs[n]) {}
  }

  // ---------- Single steps ----------

  lemma OneUpdated(c: Map, g: GrantInfo)
    ensures var r := UpdateGrant(c, g);
            if Unreadable(c, g) then r == Outcome(c, Some(InvalidMessage))
            else r.error.None? && Updated(c, [g], r.next)
  {
    UpdatesDo(c, [g]);
    var r := UpdateGrant(c, g);
    assert [g][0] == g && [g][1..] == [];
    assert r.error.None? ==> UpdateGrants(r.next, []) == r;
    if g.shard.Some? { ShardDecoding(g.shard.value); }
  }

  lemma OneRemoved(c: Map, id: InstanceId)
    ensures Bereft(c, [Some(id)], RemoveConsumer(c, id))
  {
    RemovesBereave(c, [Some(id)]);
    assert [Some(id)][1..] == [];
    assert RemoveConsumers(RemoveConsumer(c, id), []) == RemoveConsumer(c, id);
  }
}
