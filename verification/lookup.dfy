/** Which grant owns a key, and when that is unambiguous. */
module Lookup {
  import opened Ids
  import opened Cluster
  import opened ClusterIndex

  /** The order on key text: by the first differing character, shorter first. */
  predicate Less(a: string, b: string)
    decreases |a|
  {
    if b == [] then false
    else if a == [] then true
    else a[0] < b[0] || (a[0] == b[0] && Less(a[1..], b[1..]))
  }

  lemma {:induction false} Trichotomy(a: string, b: string)
    ensures Less(a, b) || Less(b, a) || a == b
    ensures !(Less(a, b) && Less(b, a)) && !Less(a, a)
    decreases |a|
  {
    if a != [] && b != [] {
      Trichotomy(a[1..], b[1..]);
      Trichotomy(a[1..], a[1..]);
      if a[0] == b[0] && a[1..] == b[1..] { assert a == [a[0]] + a[1..] == b; }
    } else if a != [] {
      Trichotomy(a[1..], a[1..]);
    }
  }

  lemma {:induction false} Transitive(a: string, b: string, c: string)
    requires Less(a, b) && Less(b, c)
    ensures Less(a, c)
    decreases |a|
  {
    if a != [] && a[0] == b[0] == c[0] { Transitive(a[1..], b[1..], c[1..]); }
  }

  /** Text comes before whatever it is the beginning of. */
  lemma {:induction false} PrefixComesFirst(p: string, s: string)
    ensures !Less(p + s, p)
    ensures s != "" ==> Less(p, p + s)
    decreases |p|
  {
    if p != "" {
      assert (p + s)[1..] == p[1..] + s;
      PrefixComesFirst(p[1..], s);
    }
  }

  /** Otherwise the first character in which two texts differ decides, whatever follows it. */
  lemma {:induction false} FirstDifferenceDecides(p: string, x: char, s: string, y: char, t: string)
    requires x != y
    ensures Less(p + [x] + s, p + [y] + t) <==> x < y
    decreases |p|
  {
    var a, b := p + [x] + s, p + [y] + t;
    if p == "" {
      assert a[0] == x && b[0] == y;
    } else {
      assert a[1..] == p[1..] + [x] + s && b[1..] == p[1..] + [y] + t;
      FirstDifferenceDecides(p[1..], x, s, y, t);
    }
  }

  /** An empty bound is no bound; `from` is inclusive, `to` exclusive. */
  predicate Covers(s: Shard, key: DomainKey) {
    && s.domain == key.domain
    && (s.region == "" || s.region == key.region)
    && (s.from == "" || !Less(key.key, s.from))
    && (s.to == "" || Less(key.key, s.to))
  }

  const DEFAULT_STATES: seq<GrantState> := [Active, Revoked, AllocatedLoaded, RevokedUnloaded]

  function Wanted(states: seq<GrantState>): seq<GrantState> {
    if states == [] then DEFAULT_STATES else states
  }

  predicate Answers(c: Map, key: DomainKey, state: GrantState, g: GrantId) {
    g in c.grants && c.grants[g].state == state && Covers(c.grants[g].shard, key)
  }

  /** What a lookup may return: a covering grant of the earliest wanted state that
      has one, and nothing exactly when no wanted state has one. */
  ghost predicate IsLookup(c: Map, key: DomainKey, states: seq<GrantState>, r: Option<GrantEntry>) {
    match r
    case None => forall n, g :: 0 <= n < |Wanted(states)| ==> !Answers(c, key, Wanted(states)[n], g)
    case Some(e) =>
      exists n, g ::
        && 0 <= n < |Wanted(states)|
        && Answers(c, key, Wanted(states)[n], g) && c.grants[g] == e
        && (forall m, h :: 0 <= m < n ==> !Answers(c, key, Wanted(states)[m], h))
  }

  // ---------- A chain of shards partitions the keys ----------

  /** Consecutive shards of one domain and region meet at strictly increasing
      bounds, and the two ends are open. */
  predicate Chain(shards: seq<Shard>) {
    && shards != []
    && shards[0].from == "" && shards[|shards| - 1].to == ""
    && (forall n :: 0 <= n < |shards| ==>
          shards[n].domain == shards[0].domain && shards[n].region == shards[0].region)
    && (forall n :: 0 < n < |shards| ==> shards[n].from == shards[n - 1].to && shards[n].from != "")
    && (forall n :: 0 < n < |shards| - 1 ==> Less(shards[n].from, shards[n].to))
  }

  /** The keys the chain as a whole is about. */
  predicate InScope(shards: seq<Shard>, key: DomainKey)
    requires shards != []
  {
    shards[0].domain == key.domain && (shards[0].region == "" || shards[0].region == key.region)
  }

  lemma {:induction false} BoundsIncrease(shards: seq<Shard>, m: nat, n: nat)
    requires Chain(shards) && 0 < m <= n < |shards|
    ensures m == n || Less(shards[m].from, shards[n].from)
    decreases n - m
  {
    if m < n {
      BoundsIncrease(shards, m, n - 1);
      assert Less(shards[n - 1].from, shards[n].from);
      if m < n - 1 { Transitive(shards[m].from, shards[n - 1].from, shards[n].from); }
    }
  }

  /** The last shard whose lower bound the key reaches. */
  lemma {:induction false} FindShard(shards: seq<Shard>, key: DomainKey, upTo: nat) returns (n: nat)
    requires Chain(shards) && upTo < |shards|
    ensures n <= upTo && (n == 0 || !Less(key.key, shards[n].from))
    ensures n < upTo ==> Less(key.key, shards[n].to)
  {
    if upTo == 0 || !Less(key.key, shards[upTo].from) {
      n := upTo;
    } else {
      n := FindShard(shards, key, upTo - 1);
    }
  }

  lemma AtMostOneCovers(shards: seq<Shard>, key: DomainKey, m: nat, n: nat)
    requires Chain(shards) && m < n < |shards|
    ensures !(Covers(shards[m], key) && Covers(shards[n], key))
  {
    if Covers(shards[m], key) && Covers(shards[n], key) {
      BoundsIncrease(shards, m + 1, n);
      assert shards[m].to == shards[m + 1].from;
      Trichotomy(key.key, shards[n].from);
      if m + 1 < n { Transitive(key.key, shards[m + 1].from, shards[n].from); }
    }
  }

  /** Of a chain exactly one shard covers a key in scope, and none any other. */
  lemma ChainPartitions(shards: seq<Shard>, key: DomainKey)
    requires Chain(shards)
    ensures InScope(shards, key) <==> exists n :: 0 <= n < |shards| && Covers(shards[n], key)
    ensures forall m, n ::
              0 <= m < |shards| && 0 <= n < |shards| && Covers(shards[m], key) && Covers(shards[n], key) ==> m == n
  {
    if InScope(shards, key) {
      var n := FindShard(shards, key, |shards| - 1);
      assert Covers(shards[n], key);
    }
    forall m, n | 0 <= m < |shards| && 0 <= n < |shards| && Covers(shards[m], key) && Covers(shards[n], key)
      ensures m == n
    {
      if m < n { AtMostOneCovers(shards, key, m, n); }
      if n < m { AtMostOneCovers(shards, key, n, m); }
    }
  }

  /** The key has reached the lower bound of shard `n`, and not that of the next. */
  predicate LastReached(shards: seq<Shard>, key: string, n: int) {
    && 0 <= n < |shards|
    && (n > 0 ==> key == shards[n].from || Less(shards[n].from, key))
    && (n + 1 < |shards| ==> Less(key, shards[n + 1].from))
  }

  /** The lower bounds alone decide: the one cover of a key in scope is the last shard
      whose lower bound it has reached. */
  lemma CoverIsLastReached(shards: seq<Shard>, key: DomainKey, n: int)
    requires Chain(shards) && InScope(shards, key) && 0 <= n < |shards|
    ensures Covers(shards[n], key) <==> LastReached(shards, key.key, n)
  {
    Trichotomy(key.key, shards[n].from);
    if n + 1 < |shards| { assert shards[n].to == shards[n + 1].from; }
  }

  /** A key on the boundary of two shards belongs to the upper one, and to no other. */
  lemma BoundaryBelongsAbove(shards: seq<Shard>, key: DomainKey, n: int)
    requires Chain(shards) && InScope(shards, key) && 0 < n < |shards| && key.key == shards[n].from
    ensures LastReached(shards, key.key, n)
    ensures forall m :: 0 <= m < |shards| ==> (Covers(shards[m], key) <==> m == n)
  {
    if n + 1 < |shards| { assert Less(shards[n].from, shards[n].to) && shards[n + 1].from == shards[n].to; }
    CoverIsLastReached(shards, key, n);
    ChainPartitions(shards, key);
  }

  /** In the map the grants of the key's domain are on shards of the chain, and `g` is
      the only one on the `n`-th that is in a wanted state. */
  ghost predicate OneServes(c: Map, shards: seq<Shard>, key: DomainKey, states: seq<GrantState>, n: int, g: GrantId) {
    && 0 <= n < |shards|
    && g in c.grants && c.grants[g].shard == shards[n] && c.grants[g].state in Wanted(states)
    && (forall h :: h in c.grants && c.grants[h].shard.domain == key.domain ==> c.grants[h].shard in shards)
    && (forall h :: h in c.grants && c.grants[h].shard == shards[n] && c.grants[h].state in Wanted(states) ==> h == g)
  }

  /** A lookup answers with the grant on the last shard whose lower bound the key has reached. */
  lemma LookupFollowsBounds(c: Map, shards: seq<Shard>, key: DomainKey, states: seq<GrantState>, n: int, g: GrantId,
                            r: Option<GrantEntry>)
    requires Chain(shards) && InScope(shards, key) && LastReached(shards, key.key, n)
    requires OneServes(c, shards, key, states, n, g) && IsLookup(c, key, states, r)
    ensures r == Some(c.grants[g])
  {
    var w := Wanted(states);
    CoverIsLastReached(shards, key, n);
    ChainPartitions(shards, key);
    var k :| 0 <= k < |w| && w[k] == c.grants[g].state;
    assert Answers(c, key, w[k], g);
    assert r.Some?;
    var m, h :| 0 <= m < |w| && Answers(c, key, w[m], h) && c.grants[h] == r.value;
    var j :| 0 <= j < |shards| && shards[j] == c.grants[h].shard;
    assert j == n;
  }

  /** So at a boundary it answers with the grant on the upper shard. */
  lemma LookupAtBoundary(c: Map, shards: seq<Shard>, key: DomainKey, states: seq<GrantState>, n: int, g: GrantId,
                         r: Option<GrantEntry>)
    requires Chain(shards) && InScope(shards, key) && 0 < n < |shards| && key.key == shards[n].from
    requires OneServes(c, shards, key, states, n, g) && IsLookup(c, key, states, r)
    ensures r == Some(c.grants[g]) && r.value.shard.from == key.key
  {
    BoundaryBelongsAbove(shards, key, n);
    LookupFollowsBounds(c, shards, key, states, n, g, r);
  }

  // ---------- The order of the states ----------

  ghost predicate Has(c: Map, key: DomainKey, state: GrantState) {
    exists g :: Answers(c, key, state, g)
  }

  lemma EarliestOfWanted(c: Map, key: DomainKey, states: seq<GrantState>, r: Option<GrantEntry>, n: int)
    requires IsLookup(c, key, states, r) && 0 <= n < |Wanted(states)|
    requires Has(c, key, Wanted(states)[n]) && forall m :: 0 <= m < n ==> !Has(c, key, Wanted(states)[m])
    ensures r.Some? && r.value.state == Wanted(states)[n]
  {
    var w := Wanted(states);
    var g :| Answers(c, key, w[n], g);
    assert r.Some?;
    var k, h :| 0 <= k < |w| && Answers(c, key, w[k], h) && c.grants[h] == r.value
                && forall m, x :: 0 <= m < k ==> !Answers(c, key, w[m], x);
    assert Has(c, key, w[k]);
  }

  /** Of the given states the earliest one that a covering grant is in. */
  lemma EarliestStateWins(c: Map, key: DomainKey, states: seq<GrantState>, r: Option<GrantEntry>, n: int)
    requires IsLookup(c, key, states, r) && 0 <= n < |states|
    requires Has(c, key, states[n]) && forall m :: 0 <= m < n ==> !Has(c, key, states[m])
    ensures r.Some? && r.value.state == states[n]
  {
    EarliestOfWanted(c, key, states, r, n);
  }

  /** Asked for no state in particular, a lookup prefers Active, then Revoked, then
      AllocatedLoaded, then RevokedUnloaded, and finds no other. */
  lemma DefaultPreference(c: Map, key: DomainKey, r: Option<GrantEntry>)
    requires IsLookup(c, key, [], r)
    ensures if Has(c, key, Active) then r.Some? && r.value.state == Active
            else if Has(c, key, Revoked) then r.Some? && r.value.state == Revoked
            else if Has(c, key, AllocatedLoaded) then r.Some? && r.value.state == AllocatedLoaded
            else if Has(c, key, RevokedUnloaded) then r.Some? && r.value.state == RevokedUnloaded
            else r.None?
  {
    var w := Wanted([]);
    assert w[0] == Active && w[1] == Revoked && w[2] == AllocatedLoaded && w[3] == RevokedUnloaded;
    if n :| 0 <= n < 4 && Has(c, key, w[n]) && forall m :: 0 <= m < n ==> !Has(c, key, w[m]) {
      EarliestOfWanted(c, key, [], r, n);
    }
  }

  /** Grants on shards of the key's domain stay within the chain, and no shard
      has two grants in one state. */
  ghost predicate Unambiguous(c: Map, shards: seq<Shard>, key: DomainKey) {
    && (forall g :: g in c.grants && c.grants[g].shard.domain == key.domain ==> c.grants[g].shard in shards)
    && (forall g, h | g in c.grants && h in c.grants ::
          c.grants[g].shard == c.grants[h].shard && c.grants[g].state == c.grants[h].state ==> g == h)
  }

  lemma AnswersAgree(c: Map, shards: seq<Shard>, key: DomainKey, state: GrantState, g: GrantId, h: GrantId)
    requires Chain(shards) && Unambiguous(c, shards, key)
    requires Answers(c, key, state, g) && Answers(c, key, state, h)
    ensures g == h
  {
    var m :| 0 <= m < |shards| && shards[m] == c.grants[g].shard;
    var n :| 0 <= n < |shards| && shards[n] == c.grants[h].shard;
    ChainPartitions(shards, key);
  }

  /** Over a partition with at most one grant per shard and state, the answer does
      not depend on the order in which the grants are visited. */
  lemma LookupIsDeterministic(c: Map, shards: seq<Shard>, key: DomainKey, states: seq<GrantState>,
                              r1: Option<GrantEntry>, r2: Option<GrantEntry>)
    requires Chain(shards) && Unambiguous(c, shards, key)
    requires IsLookup(c, key, states, r1) && IsLookup(c, key, states, r2)
    ensures r1 == r2
  {
    var w := Wanted(states);
    if r1.Some? && r2.Some? {
      var m, g :| 0 <= m < |w| && Answers(c, key, w[m], g) && c.grants[g] == r1.value
                  && (forall k, x :: 0 <= k < m ==> !Answers(c, key, w[k], x));
      var n, h :| 0 <= n < |w| && Answers(c, key, w[n], h) && c.grants[h] == r2.value
                  && (forall k, x :: 0 <= k < n ==> !Answers(c, key, w[k], x));
      assert m == n;
      AnswersAgree(c, shards, key, w[m], g, h);
    }
  }

  /** In an indexed map the consumer of whatever a lookup returns is present. */
  lemma OwnerIsPresent(c: Map, key: DomainKey, states: seq<GrantState>, r: Option<GrantEntry>)
    requires Indexed(c) && IsLookup(c, key, states, r) && r.Some?
    ensures r.value.consumer in c.consumers
    ensures c.consumers[r.value.consumer].consumer.id == r.value.consumer
  {
    var g :| g in c.grants && c.grants[g] == r.value;
    assert Linked(c, g);
  }
}
