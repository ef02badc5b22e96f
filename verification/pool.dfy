/** The peer pool: an incremental cache of channels, reconciled with each cluster
    snapshot, and the resolver that reads both. */
module Pool {
  import opened Ids
  import C = Cluster
  import Index = ClusterIndex
  import L = Lookup

  /** A channel remembers the endpoint it was dialled from and which dial made it. */
  datatype Channel = Channel(endpoint: Endpoint, dial: nat)
  datatype PoolEntry = PoolEntry(endpoint: Endpoint, channel: Channel)

  /** The peers with an endpoint, other than this consumer itself. */
  function Advertised(c: C.Map, self: InstanceId): map<InstanceId, Endpoint> {
    map id | id in c.consumers && id != self && c.consumers[id].consumer.endpoint != "" ::
      c.consumers[id].consumer.endpoint
  }

  function Endpoints(entries: map<InstanceId, PoolEntry>): map<InstanceId, Endpoint> {
    map id | id in entries :: entries[id].endpoint
  }

  /** The peers that must be dialled to agree with `adv`. */
  predicate Stale(entries: map<InstanceId, PoolEntry>, adv: map<InstanceId, Endpoint>, id: InstanceId) {
    id in adv && (id !in entries || entries[id].endpoint != adv[id])
  }

  /** The entry of `id` after a reconciliation in which the dials of `failed` failed
      and the earlier ones had numbers below `since`: unchanged endpoints keep their
      channel, a failed dial keeps whatever was there, the rest is dialled anew. */
  ghost predicate EntryReconciled(before: map<InstanceId, PoolEntry>, adv: map<InstanceId, Endpoint>,
                                  failed: set<InstanceId>, since: nat,
                                  after: map<InstanceId, PoolEntry>, id: InstanceId) {
    if id !in adv then id !in after
    else if Stale(before, adv, id) && id !in failed then
      && id in after && after[id].endpoint == adv[id]
      && after[id].channel.endpoint == adv[id] && after[id].channel.dial >= since
    else if id in before then id in after && after[id] == before[id]
    else id !in after
  }

  ghost predicate Reconciled(before: map<InstanceId, PoolEntry>, adv: map<InstanceId, Endpoint>,
                             failed: set<InstanceId>, since: nat, after: map<InstanceId, PoolEntry>) {
    && (forall id :: id in failed ==> Stale(before, adv, id))
    && (forall id :: EntryReconciled(before, adv, failed, since, after, id))
  }

  /** Self is no key, and every channel was dialled from its stored endpoint. */
  ghost predicate Sound(entries: map<InstanceId, PoolEntry>, self: InstanceId) {
    self !in entries && forall id :: id in entries ==> entries[id].channel.endpoint == entries[id].endpoint
  }

  /** After a reconciliation the endpoints are those of the last cluster, and of it
      alone, exactly when no dial of it failed. */
  lemma EndpointsAgreeExactlyWhen(before: map<InstanceId, PoolEntry>, adv: map<InstanceId, Endpoint>,
                                  failed: set<InstanceId>, since: nat, after: map<InstanceId, PoolEntry>)
    requires Reconciled(before, adv, failed, since, after)
    ensures Endpoints(after) == adv <==> failed == {}
    ensures after.Keys <= adv.Keys
  {
    forall id | id in after ensures id in adv { assert EntryReconciled(before, adv, failed, since, after, id); }
    if failed == {} {
      forall id | id in adv ensures id in after && after[id].endpoint == adv[id] {
        assert EntryReconciled(before, adv, failed, since, after, id);
      }
    } else {
      var id :| id in failed;
      assert EntryReconciled(before, adv, failed, since, after, id);
      assert Stale(before, adv, id);
      if id in before { assert Endpoints(after)[id] != adv[id]; }
    }
  }

  // ---------- Any sequence of clusters ----------

  datatype Round = Round(adv: map<InstanceId, Endpoint>, failed: set<InstanceId>, since: nat,
                         after: map<InstanceId, PoolEntry>)

  function Before(start: map<InstanceId, PoolEntry>, rounds: seq<Round>, n: nat): map<InstanceId, PoolEntry>
    requires n < |rounds|
  {
    if n == 0 then start else rounds[n - 1].after
  }

  /** Successive reconciliations, each starting from what the previous one left. */
  ghost predicate History(start: map<InstanceId, PoolEntry>, rounds: seq<Round>) {
    forall n: nat :: n < |rounds| ==> RoundOk(start, rounds, n)
  }

  ghost predicate RoundOk(start: map<InstanceId, PoolEntry>, rounds: seq<Round>, n: nat)
    requires n < |rounds|
  {
    Reconciled(Before(start, rounds, n), rounds[n].adv, rounds[n].failed, rounds[n].since, rounds[n].after)
  }

  /** Over any sequence of clusters the pool stays sound and within the last
      cluster's peers. */
  lemma {:induction false} HistoryIsSound(start: map<InstanceId, PoolEntry>, rounds: seq<Round>, self: InstanceId,
                                          n: nat)
    requires Sound(start, self) && History(start, rounds) && n < |rounds|
    requires forall k :: 0 <= k < |rounds| ==> self !in rounds[k].adv
    ensures Sound(rounds[n].after, self)
    ensures rounds[n].after.Keys <= rounds[n].adv.Keys
  {
    if n > 0 { HistoryIsSound(start, rounds, self, n - 1); }
    assert RoundOk(start, rounds, n);
    ReconcilingKeepsSound(Before(start, rounds, n), rounds[n], self);
  }

  lemma ReconcilingKeepsSound(before: map<InstanceId, PoolEntry>, r: Round, self: InstanceId)
    requires Sound(before, self) && self !in r.adv
    requires Reconciled(before, r.adv, r.failed, r.since, r.after)
    ensures Sound(r.after, self) && r.after.Keys <= r.adv.Keys
  {
    forall id | id in r.after ensures id in r.adv && r.after[id].channel.endpoint == r.after[id].endpoint {
      assert EntryReconciled(before, r.adv, r.failed, r.since, r.after, id);
    }
    assert EntryReconciled(before, r.adv, r.failed, r.since, r.after, self);
  }

  predicate AdvertisedAt(rounds: seq<Round>, n: nat, id: InstanceId, endpoint: Endpoint)
    requires n < |rounds|
  {
    id in rounds[n].adv && rounds[n].adv[id] == endpoint
  }

  /** A peer that every cluster since round `k` advertised at the endpoint it had
      there keeps that very channel. */
  lemma {:induction false} ChannelIsKept(start: map<InstanceId, PoolEntry>, rounds: seq<Round>, k: nat, n: nat,
                                         id: InstanceId, e: PoolEntry)
    requires History(start, rounds) && k <= n < |rounds|
    requires id in rounds[k].after && rounds[k].after[id] == e
    requires forall j: nat :: k <= j <= n ==> AdvertisedAt(rounds, j, id, e.endpoint)
    ensures id in rounds[n].after && rounds[n].after[id] == e
  {
    if k < n {
      ChannelIsKept(start, rounds, k, n - 1, id, e);
      assert RoundOk(start, rounds, n) && AdvertisedAt(rounds, n, id, e.endpoint);
      UnchangedEndpointKeepsEntry(rounds[n - 1].after, rounds[n], id);
    }
  }

  lemma UnchangedEndpointKeepsEntry(before: map<InstanceId, PoolEntry>, r: Round, id: InstanceId)
    requires Reconciled(before, r.adv, r.failed, r.since, r.after)
    requires id in before && id in r.adv && before[id].endpoint == r.adv[id]
    ensures id in r.after && r.after[id] == before[id]
  {
    assert EntryReconciled(before, r.adv, r.failed, r.since, r.after, id);
  }

  /** After a reconciliation with a cluster the pool knows its peers with an endpoint, and
      at that endpoint unless the dial failed. */
  lemma PeersOnly(before: map<InstanceId, PoolEntry>, c: C.Map, self: InstanceId, failed: set<InstanceId>, since: nat,
                  after: map<InstanceId, PoolEntry>)
    requires Reconciled(before, Advertised(c, self), failed, since, after)
    ensures Sound(before, self) ==> Sound(after, self)
    ensures forall id :: id in after ==> id != self && id in c.consumers && c.consumers[id].consumer.endpoint != ""
    ensures forall id | id in c.consumers && id != self && c.consumers[id].consumer.endpoint != "" && id !in failed ::
              id in after && after[id].endpoint == c.consumers[id].consumer.endpoint
  {
    var adv := Advertised(c, self);
    forall id | id in c.consumers && id != self && c.consumers[id].consumer.endpoint != "" && id !in failed
      ensures id in after && after[id].endpoint == c.consumers[id].consumer.endpoint
    {
      assert EntryReconciled(before, adv, failed, since, after, id);
    }
    forall id | id in after ensures id in adv && (Sound(before, self) ==> after[id].channel.endpoint == after[id].endpoint) {
      assert EntryReconciled(before, adv, failed, since, after, id);
    }
  }

  /** A peer's channel; a consumer has none to itself. */
  function ChannelOf(entries: map<InstanceId, PoolEntry>, self: InstanceId, id: InstanceId): Result<Channel, ClientError> {
    if id == self || id !in entries then Err(NoResolution) else Ok(entries[id].channel)
  }

  // ---------- The pool ----------

  class ConnectionPool {
    const selfId: InstanceId
    var entries: map<InstanceId, PoolEntry>
    var dials: nat

    constructor (self: InstanceId)
      ensures selfId == self && entries == map[] && Sound(entries, selfId)
    {
      selfId, entries, dials := self, map[], 0;
    }

    /** The user's dial function: it may fail, and a channel it returns is new. */
    method Dial(endpoint: Endpoint) returns (r: Option<Channel>)
      modifies this`dials
      ensures dials == old(dials) + 1
      ensures r.Some? ==> r.value == Channel(endpoint, old(dials))
    {
      if * { r := Some(Channel(endpoint, dials)); } else { r := None; }
      dials := dials + 1;
    }

    /** Compares the entries with the cluster; its consumers may be visited in any
        order. */
    method Survey(c: C.Map)
      returns (seen: set<InstanceId>, toAdd: seq<(InstanceId, Endpoint)>, toRebuild: seq<(InstanceId, Endpoint)>)
      requires Index.KeyedByOwnId(c)
      ensures seen == Advertised(c, selfId).Keys
      ensures Complete(entries, Advertised(c, selfId), toAdd + toRebuild)
    {
      ghost var adv := Advertised(c, selfId);
      seen, toAdd, toRebuild := {}, [], [];
      var left := c.consumers.Keys;
      WorkListStarts(entries, adv, left, true);
      WorkListStarts(entries, adv, left, false);
      while left != {}
        invariant left <= c.consumers.Keys
        invariant seen == adv.Keys - left
        invariant WorkList(entries, adv, toAdd, left, true)
        invariant WorkList(entries, adv, toRebuild, left, false)
        decreases |left|
      {
        var key :| key in left;
        SeenGrows(adv.Keys, left, key);
        seen, toAdd, toRebuild := Compare(c.consumers[key].consumer, adv, left, seen, toAdd, toRebuild);
        left := left - {key};
      }
      WorkListsJoin(entries, adv, toAdd, toRebuild);
    }

    /** Compares one consumer of the cluster with its entry. */
    method Compare(consumer: Instance, ghost adv: map<InstanceId, Endpoint>, ghost left: set<InstanceId>,
                   seen: set<InstanceId>, toAdd: seq<(InstanceId, Endpoint)>, toRebuild: seq<(InstanceId, Endpoint)>)
      returns (seen': set<InstanceId>, toAdd': seq<(InstanceId, Endpoint)>, toRebuild': seq<(InstanceId, Endpoint)>)
      requires consumer.id in left
      requires consumer.id in adv <==> consumer.id != selfId && consumer.endpoint != ""
      requires consumer.id in adv ==> adv[consumer.id] == consumer.endpoint
      requires WorkList(entries, adv, toAdd, left, true) && WorkList(entries, adv, toRebuild, left, false)
      ensures seen' == if consumer.id in adv then seen + {consumer.id} else seen
      ensures WorkList(entries, adv, toAdd', left - {consumer.id}, true)
      ensures WorkList(entries, adv, toRebuild', left - {consumer.id}, false)
    {
      seen', toAdd', toRebuild' := seen, toAdd, toRebuild;
      WorkListVisits(entries, adv, toAdd, left, true, consumer.id);
      WorkListVisits(entries, adv, toRebuild, left, false, consumer.id);
      if consumer.id != selfId && consumer.endpoint != "" {
        seen' := seen + {consumer.id};
        if consumer.id !in entries {
          toAdd' := toAdd + [(consumer.id, consumer.endpoint)];
        } else if entries[consumer.id].endpoint != consumer.endpoint {
          toRebuild' := toRebuild + [(consumer.id, consumer.endpoint)];
        }
      }
      assert toAdd' == Noted(entries, adv, toAdd, true, consumer.id);
      assert toRebuild' == Noted(entries, adv, toRebuild, false, consumer.id);
    }

    method DialAll(work: seq<(InstanceId, Endpoint)>, ghost adv: map<InstanceId, Endpoint>)
      returns (ghost failed: set<InstanceId>)
      requires Complete(entries, adv, work)
      modifies this
      ensures forall id :: id in failed ==> Stale(old(entries), adv, id)
      ensures Progress(old(entries), adv, failed, old(dials), entries, work)
    {
      failed := {};
      var n := 0;
      while n < |work|
        invariant 0 <= n <= |work|
        invariant dials >= old(dials)
        invariant forall id :: id in failed ==> Queued(work[..n], id)
        invariant Progress(old(entries), adv, failed, old(dials), entries, work[..n])
      {
        var channel := Dial(work[n].1);
        ProgressStep(old(entries), adv, failed, old(dials), entries, work, n, channel);
        forall id | Queued(work[..n], id) || id == work[n].0 ensures Queued(work[..n + 1], id) {
          QueuedSnoc(work, n, id);
        }
        if channel.Some? {
          entries := entries[work[n].0 := PoolEntry(work[n].1, channel.value)];
        } else {
          failed := failed + {work[n].0};
        }
        n := n + 1;
      }
      assert work[..n] == work;
    }

    method ApplyCluster(c: C.Map) returns (ghost failed: set<InstanceId>)
      requires Index.KeyedByOwnId(c)
      modifies this
      ensures Reconciled(old(entries), Advertised(c, selfId), failed, old(dials), entries)
      ensures Sound(old(entries), selfId) ==> Sound(entries, selfId)
      ensures forall id :: id in entries ==> id != selfId && id in c.consumers && c.consumers[id].consumer.endpoint != ""
      ensures forall id | id in c.consumers && id != selfId && c.consumers[id].consumer.endpoint != "" && id !in failed ::
                id in entries && entries[id].endpoint == c.consumers[id].consumer.endpoint
    {
      ghost var adv := Advertised(c, selfId);
      var seen, toAdd, toRebuild := Survey(c);
      failed := DialAll(toAdd + toRebuild, adv);
      ghost var unfiltered := entries;
      entries := map id | id in entries && id in seen :: entries[id];
      forall id ensures EntryReconciled(old(entries), adv, failed, old(dials), entries, id) {
        assert EntryProgress(old(entries), adv, failed, old(dials), unfiltered, toAdd + toRebuild, id);
        assert Queued(toAdd + toRebuild, id) <==> Stale(old(entries), adv, id);
      }
      PeersOnly(old(entries), c, selfId, failed, old(dials), entries);
    }

    function Resolve(id: InstanceId): (r: Result<Channel, ClientError>)
      reads this
      ensures r.Ok? <==> id != selfId && id in entries
      ensures r.Ok? ==> r.value == entries[id].channel
      ensures r.Err? ==> r.error == NoResolution
    {
      ChannelOf(entries, selfId, id)
    }
  }

  predicate Queued(work: seq<(InstanceId, Endpoint)>, id: InstanceId) {
    exists n :: 0 <= n < |work| && work[n].0 == id
  }

  /** The peers to dial among those already visited, each once: those with no entry
      (`isNew`) or those whose entry has another endpoint. */
  ghost predicate WorkList(entries: map<InstanceId, PoolEntry>, adv: map<InstanceId, Endpoint>,
                           work: seq<(InstanceId, Endpoint)>, left: set<InstanceId>, isNew: bool) {
    && (forall n :: 0 <= n < |work| ==>
          && Stale(entries, adv, work[n].0) && work[n].1 == adv[work[n].0]
          && work[n].0 !in left && (work[n].0 !in entries <==> isNew))
    && (forall m, n :: 0 <= m < n < |work| ==> work[m].0 != work[n].0)
    && (forall id :: Stale(entries, adv, id) && id !in left && (id !in entries <==> isNew) ==> Queued(work, id))
  }

  lemma SeenGrows(keys: set<InstanceId>, left: set<InstanceId>, key: InstanceId)
    requires key in left
    ensures keys - (left - {key}) == if key in keys then (keys - left) + {key} else keys - left
  {}

  lemma WorkListStarts(entries: map<InstanceId, PoolEntry>, adv: map<InstanceId, Endpoint>,
                       left: set<InstanceId>, isNew: bool)
    requires adv.Keys <= left
    ensures WorkList(entries, adv, [], left, isNew)
  {}

  ghost function Noted(entries: map<InstanceId, PoolEntry>, adv: map<InstanceId, Endpoint>,
                       work: seq<(InstanceId, Endpoint)>, isNew: bool, key: InstanceId): seq<(InstanceId, Endpoint)> {
    if Stale(entries, adv, key) && (key !in entries <==> isNew) then work + [(key, adv[key])] else work
  }

  /** Visiting `key` adds it to the list it belongs on, if any. */
  lemma WorkListVisits(entries: map<InstanceId, PoolEntry>, adv: map<InstanceId, Endpoint>,
                       work: seq<(InstanceId, Endpoint)>, left: set<InstanceId>, isNew: bool, key: InstanceId)
    requires WorkList(entries, adv, work, left, isNew) && key in left
    ensures WorkList(entries, adv, Noted(entries, adv, work, isNew, key), left - {key}, isNew)
  {
    if Stale(entries, adv, key) && (key !in entries <==> isNew) {
      var work' := work + [(key, adv[key])];
      forall id | Stale(entries, adv, id) && id !in left - {key} && (id !in entries <==> isNew)
        ensures Queued(work', id)
      {
        if id == key {
          assert work'[|work|].0 == id;
        } else {
          assert Queued(work, id);
          var n :| 0 <= n < |work| && work[n].0 == id;
          assert work'[n].0 == id;
        }
      }
    }
  }

  /** Every stale peer is to be dialled, once, at its advertised endpoint. */
  ghost predicate Complete(entries: map<InstanceId, PoolEntry>, adv: map<InstanceId, Endpoint>,
                           work: seq<(InstanceId, Endpoint)>) {
    && (forall n :: 0 <= n < |work| ==> Stale(entries, adv, work[n].0) && work[n].1 == adv[work[n].0])
    && (forall m, n :: 0 <= m < n < |work| ==> work[m].0 != work[n].0)
    && (forall id :: Stale(entries, adv, id) ==> Queued(work, id))
  }

  lemma WorkListsJoin(entries: map<InstanceId, PoolEntry>, adv: map<InstanceId, Endpoint>,
                      added: seq<(InstanceId, Endpoint)>, rebuilt: seq<(InstanceId, Endpoint)>)
    requires WorkList(entries, adv, added, {}, true) && WorkList(entries, adv, rebuilt, {}, false)
    ensures Complete(entries, adv, added + rebuilt)
  {
    var work := added + rebuilt;
    forall id | Stale(entries, adv, id) ensures Queued(work, id) {
      if id !in entries {
        assert Queued(added, id);
        var n :| 0 <= n < |added| && added[n].0 == id;
        assert work[n].0 == id;
      } else {
        assert Queued(rebuilt, id);
        var n :| 0 <= n < |rebuilt| && rebuilt[n].0 == id;
        assert work[|added| + n].0 == id;
      }
    }
  }

  lemma QueuedSnoc(work: seq<(InstanceId, Endpoint)>, n: nat, id: InstanceId)
    requires n < |work|
    ensures Queued(work[..n + 1], id) <==> Queued(work[..n], id) || work[n].0 == id
  {
    if Queued(work[..n], id) {
      var m :| 0 <= m < n && work[..n][m].0 == id;
      assert work[..n + 1][m].0 == id;
    }
    if work[n].0 == id { assert work[..n + 1][n].0 == id; }
  }

  /** The entry of `id` once the peers of `done` were dialled. */
  ghost predicate EntryProgress(before: map<InstanceId, PoolEntry>, adv: map<InstanceId, Endpoint>,
                                failed: set<InstanceId>, since: nat, now: map<InstanceId, PoolEntry>,
                                done: seq<(InstanceId, Endpoint)>, id: InstanceId) {
    if Queued(done, id) && id !in failed then
      && id in adv && id in now && now[id].endpoint == adv[id]
      && now[id].channel.endpoint == adv[id] && now[id].channel.dial >= since
    else (id in now <==> id in before) && (id in now ==> now[id] == before[id])
  }

  ghost predicate Progress(before: map<InstanceId, PoolEntry>, adv: map<InstanceId, Endpoint>,
                           failed: set<InstanceId>, since: nat, now: map<InstanceId, PoolEntry>,
                           done: seq<(InstanceId, Endpoint)>) {
    forall id :: EntryProgress(before, adv, failed, since, now, done, id)
  }

  lemma ProgressStep(before: map<InstanceId, PoolEntry>, adv: map<InstanceId, Endpoint>,
                     failed: set<InstanceId>, since: nat, now: map<InstanceId, PoolEntry>,
                     work: seq<(InstanceId, Endpoint)>, n: nat, channel: Option<Channel>)
    requires Complete(before, adv, work) && n < |work|
    requires forall id :: id in failed ==> Queued(work[..n], id)
    requires Progress(before, adv, failed, since, now, work[..n])
    requires channel.Some? ==> channel.value.endpoint == work[n].1 && channel.value.dial >= since
    ensures channel.Some? ==>
              Progress(before, adv, failed, since, now[work[n].0 := PoolEntry(work[n].1, channel.value)], work[..n + 1])
    ensures channel.None? ==> Progress(before, adv, failed + {work[n].0}, since, now, work[..n + 1])
  {
    assert !Queued(work[..n], work[n].0);
    var now' := if channel.Some? then now[work[n].0 := PoolEntry(work[n].1, channel.value)] else now;
    var failed' := if channel.Some? then failed else failed + {work[n].0};
    var done := work[..n + 1];
    forall id ensures EntryProgress(before, adv, failed', since, now', done, id) {
      assert EntryProgress(before, adv, failed, since, now, work[..n], id);
      QueuedSnoc(work, n, id);
    }
  }

  // ---------- The resolver ----------

  const PREFERRED: seq<GrantState> := [Active, AllocatedLoaded, Revoked]

  /** The location of the owner a lookup found. */
  function Location(c: C.Map, found: Option<C.GrantEntry>): Option<Location> {
    if found.None? || found.value.consumer !in c.consumers then None
    else Some(c.consumers[found.value.consumer].consumer.location)
  }

  function ResolveKey(entries: map<InstanceId, PoolEntry>, self: InstanceId, domain: DomainName,
                      key: DomainKey, found: Option<C.GrantEntry>): Result<Channel, ClientError> {
    if key.domain != domain then Err(InvalidMessage)
    else if found.None? then Err(NoResolution)
    else ChannelOf(entries, self, found.value.consumer)
  }

  /** The resolver's lookups prefer Active, then AllocatedLoaded, then Revoked, and find no other. */
  lemma ResolverPreference(c: C.Map, key: DomainKey, r: Option<C.GrantEntry>)
    requires L.IsLookup(c, key, PREFERRED, r)
    ensures if L.Has(c, key, Active) then r.Some? && r.value.state == Active
            else if L.Has(c, key, AllocatedLoaded) then r.Some? && r.value.state == AllocatedLoaded
            else if L.Has(c, key, Revoked) then r.Some? && r.value.state == Revoked
            else r.None?
  {
    var w := PREFERRED;
    assert w[0] == Active && w[1] == AllocatedLoaded && w[2] == Revoked;
    if n :| 0 <= n < 3 && L.Has(c, key, w[n]) && forall m :: 0 <= m < n ==> !L.Has(c, key, w[m]) {
      L.EarliestStateWins(c, key, w, r, n);
    }
  }

  /** In every reachable cluster the owner's location is known exactly when the
      lookup finds an owner, and then it is the one that this consumer goes by. */
  lemma LocationExactlyWhenFound(ms: seq<C.Message>, key: DomainKey, found: Option<C.GrantEntry>)
    requires L.IsLookup(C.ReceivedAll(C.EMPTY, ms), key, PREFERRED, found)
    ensures var c := C.ReceivedAll(C.EMPTY, ms);
            if found.None? then Location(c, found) == None
            else found.value.consumer in c.consumers
                 && Location(c, found) == Some(c.consumers[found.value.consumer].consumer.location)
  {
    Index.ReachableIsIndexed(C.EMPTY, ms);
    if found.Some? { L.OwnerIsPresent(C.ReceivedAll(C.EMPTY, ms), key, PREFERRED, found); }
  }

  /** With the pool reconciled with a reachable cluster and no failed dial, a key of
      the resolver's domain resolves exactly when its owner is another consumer
      that advertises an endpoint, and then to a channel dialled from it. */
  lemma ResolvesExactlyWhen(ms: seq<C.Message>, before: map<InstanceId, PoolEntry>, since: nat,
                            entries: map<InstanceId, PoolEntry>, self: InstanceId, domain: DomainName,
                            key: DomainKey, found: Option<C.GrantEntry>)
    requires Sound(before, self)
    requires Reconciled(before, Advertised(C.ReceivedAll(C.EMPTY, ms), self), {}, since, entries)
    requires L.IsLookup(C.ReceivedAll(C.EMPTY, ms), key, PREFERRED, found)
    ensures var c := C.ReceivedAll(C.EMPTY, ms);
            var r := ResolveKey(entries, self, domain, key, found);
            && (r.Ok? <==>
                  && key.domain == domain && found.Some? && found.value.consumer != self
                  && found.value.consumer in c.consumers
                  && c.consumers[found.value.consumer].consumer.endpoint != "")
            && (r.Ok? ==> r.value.endpoint == c.consumers[found.value.consumer].consumer.endpoint)
            && (r.Err? ==> r.error == if key.domain != domain then InvalidMessage else NoResolution)
  {
    var c := C.ReceivedAll(C.EMPTY, ms);
    var adv := Advertised(c, self);
    Index.ReachableIsIndexed(C.EMPTY, ms);
    EndpointsAgreeExactlyWhen(before, adv, {}, since, entries);
    if found.Some? {
      L.OwnerIsPresent(c, key, PREFERRED, found);
      var id := found.value.consumer;
      assert id in Endpoints(entries) <==> id in adv;
      assert EntryReconciled(before, adv, {}, since, entries, id);
    }
  }

  /** A snapshot of one peer without grants. */
  function PeerAt(e: Endpoint): C.Message {
    var peer := RawInstance(Some(RawLocated(Some(2), None, "peer", Some(0))), e);
    C.Message(C.SnapshotBody(C.Snapshot([C.Assignment(Some(peer), [])], None, [])), 1, None)
  }

  lemma PeerIsAdvertised(ms: seq<C.Message>, e: Endpoint)
    requires e != ""
    ensures Advertised(C.ReceivedAll(C.EMPTY, ms + [PeerAt(e)]), 1) == map[2 := e]
  {
    var peer := PeerAt(e).body.snapshot.assignments[0].consumer.value;
    var i := DecodeInstance(peer).value;
    var c := C.Map(C.ClusterId(1, None, C.EPOCH), map[], map[], []);
    var t := C.WithConsumer(c, i);
    assert C.AddGrants(t, 2, []) == C.Outcome(t, None);
    assert [C.Assignment(Some(peer), [])][1..] == [];
    assert C.ApplyAssignments(t, []) == C.Outcome(t, None);
    assert C.ApplyAssignments(c, [C.Assignment(Some(peer), [])]) == C.Outcome(t, None);
    LastMessage(C.EMPTY, ms, PeerAt(e));
    assert C.Received(C.ReceivedAll(C.EMPTY, ms), PeerAt(e)) == t;
  }

  lemma {:induction false} LastMessage(c: C.Map, ms: seq<C.Message>, m: C.Message)
    ensures C.ReceivedAll(c, ms + [m]) == C.Received(C.ReceivedAll(c, ms), m)
    decreases |ms|
  {
    if ms == [] {
      assert ms + [m] == [m] && [m][1..] == [];
      assert C.ReceivedAll(C.Received(c, m), []) == C.Received(c, m);
    } else {
      assert (ms + [m])[1..] == ms[1..] + [m];
      LastMessage(C.Received(c, ms[0]), ms[1..], m);
    }
  }

  /** A peer is advertised at "a" and dialled; it moves to "b", and the dial fails.
      It still resolves, to the channel dialled from "a". */
  lemma FailedDialKeepsOldEndpoint(after: map<InstanceId, PoolEntry>)
    ensures var first := map[2 := PoolEntry("a", Channel("a", 0))];
            var moved := Advertised(C.ReceivedAll(C.EMPTY, [PeerAt("a")] + [PeerAt("b")]), 1);
            && Reconciled(map[], Advertised(C.ReceivedAll(C.EMPTY, [] + [PeerAt("a")]), 1), {}, 0, first)
            && (Reconciled(first, moved, {2}, 1, after) <==> after == first)
            && moved == map[2 := "b"] && ChannelOf(first, 1, 2) == Ok(Channel("a", 0))
  {
    var first := map[2 := PoolEntry("a", Channel("a", 0))];
    PeerIsAdvertised([], "a");
    PeerIsAdvertised([PeerAt("a")], "b");
    var moved: map<InstanceId, Endpoint> := map[2 := "b"];
    FailedDialChangesNothing(first, moved, after);
  }

  /** Nothing but the failed dial was to be done. */
  lemma FailedDialChangesNothing(before: map<InstanceId, PoolEntry>, adv: map<InstanceId, Endpoint>,
                                 after: map<InstanceId, PoolEntry>)
    requires before.Keys == adv.Keys == {2} && Stale(before, adv, 2)
    ensures Reconciled(before, adv, {2}, 1, after) <==> after == before
  {
    if Reconciled(before, adv, {2}, 1, after) {
      forall id ensures id in after <==> id in before { assert EntryReconciled(before, adv, {2}, 1, after, id); }
      assert EntryReconciled(before, adv, {2}, 1, after, 2);
    } else if after == before {
      forall id ensures EntryReconciled(before, adv, {2}, 1, after, id) {}
    }
  }
}
