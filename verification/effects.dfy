/** What a whole message of the coordinator does to the driver's table and to the
    Ownerships it handed out, told by the states before and after and by the fields
    of the message. */
module Effects {
  import opened Ids
  import opened Consumer
  import H = ConsumerHistory

  // ---------- Elements of a batch ----------

  predicate Named(gs: seq<RawGrant>, id: GrantId) {
    exists n :: 0 <= n < |gs| && gs[n].id == id
  }

  /** `n` is the last element of the batch for `id`. */
  predicate IsLast(gs: seq<RawGrant>, id: GrantId, n: int) {
    0 <= n < |gs| && gs[n].id == id && forall m :: n < m < |gs| ==> gs[m].id != id
  }

  /** `n` is the last element for `id` that carries a lease. */
  predicate IsLastLeased(gs: seq<RawGrant>, id: GrantId, n: int) {
    && 0 <= n < |gs| && gs[n].id == id && gs[n].lease.Some?
    && forall m :: n < m < |gs| && gs[m].id == id ==> gs[m].lease.None?
  }

  predicate Leased(gs: seq<RawGrant>, id: GrantId) {
    exists n :: 0 <= n < |gs| && gs[n].id == id && gs[n].lease.Some?
  }

  // ---------- What changes at one id ----------

  predicate SameAt(s: State, t: State, id: GrantId) {
    && (id in t.table <==> id in s.table) && (id in s.table ==> t.table[id] == s.table[id])
    && Issued(t, id) == Issued(s, id)
  }

  /** Of the Ownerships issued for an id, only the `inc`-th may differ. */
  predicate OnlyAt(before: seq<Own>, after: seq<Own>, inc: nat) {
    |after| == |before| && forall n :: 0 <= n < |before| && n != inc ==> after[n] == before[n]
  }

  /** The entry stays with its Ownership, and no other Ownership of the id changes. */
  predicate Stays(s: State, t: State, id: GrantId) {
    && id in s.table && id in t.table && t.table[id].inc == s.table[id].inc < |Issued(s, id)|
    && OnlyAt(Issued(s, id), Issued(t, id), s.table[id].inc)
  }

  ghost predicate RevokedAt(gs: seq<RawGrant>, s: State, t: State, id: GrantId) {
    if id !in s.table || !Named(gs, id) then SameAt(s, t, id)
    else
      && Stays(s, t, id) && t.table[id].revoked
      && (forall n :: IsLast(gs, id, n) ==> t.table[id].grant == gs[n])
      && var o, p := Issued(s, id)[s.table[id].inc], Issued(t, id)[s.table[id].inc];
         && p == Own(o.active, true, o.expired, o.unloaded, o.loaded, p.deadline)
         && (forall n :: IsLastLeased(gs, id, n) ==> p.deadline == gs[n].lease.value)
         && (!Leased(gs, id) ==> p.deadline == o.deadline)
  }

  ghost predicate PromotedAt(gs: seq<RawGrant>, s: State, t: State, id: GrantId) {
    if id !in s.table || !Named(gs, id) then SameAt(s, t, id)
    else
      && Stays(s, t, id) && t.table[id].revoked == s.table[id].revoked
      && (forall n :: IsLast(gs, id, n) ==> t.table[id].grant == gs[n])
      && var o, p := Issued(s, id)[s.table[id].inc], Issued(t, id)[s.table[id].inc];
         p == Own(true, o.revoked, o.expired, o.unloaded, o.loaded, o.deadline)
  }

  predicate NotifiedAt(update: Option<RawGrant>, target: Option<RawGrant>, s: State, t: State, id: GrantId) {
    if target.None? || update.None? || target.value.id != id || id !in s.table || update.value.state !in {4, 5}
    then SameAt(s, t, id)
    else
      && Stays(s, t, id) && t.table[id] == s.table[id]
      && var o, p := Issued(s, id)[s.table[id].inc], Issued(t, id)[s.table[id].inc];
         if update.value.state == 4 then p == Own(o.active, o.revoked, o.expired, o.unloaded, true, o.deadline)
         else p == Own(o.active, o.revoked, o.expired, true, o.loaded, o.deadline)
  }

  predicate ExtendedAt(lease: Option<Time>, s: State, t: State, id: GrantId) {
    if lease.None? || id !in s.table || s.table[id].revoked then SameAt(s, t, id)
    else
      && Stays(s, t, id) && t.table[id] == s.table[id]
      && var o, p := Issued(s, id)[s.table[id].inc], Issued(t, id)[s.table[id].inc];
         p == Own(o.active, o.revoked, o.expired, o.unloaded, o.loaded, lease.value)
  }

  // ---------- Assigns ----------

  /** The element names its shard in full. */
  predicate Usable(g: RawGrant) {
    g.shard.Some? && g.shard.value.domain.Some? && g.shard.value.domain.value.service.Some?
  }

  /** How many usable elements of the batch name `id`. */
  function Count(gs: seq<RawGrant>, id: GrantId): nat {
    if gs == [] then 0
    else Count(gs[..|gs| - 1], id) + (if Usable(gs[|gs| - 1]) && gs[|gs| - 1].id == id then 1 else 0)
  }

  /** The Ownership made for `g`; `replaced` tells whether a later element took its place. */
  predicate MadeFor(g: RawGrant, o: Own, leaseNow: Time, checkNow: Time, replaced: bool) {
    && o.deadline == (if g.lease.Some? then g.lease.value else leaseNow + 30_000)
    && (o.active <==> g.state == 1) && (o.revoked <==> g.state == 3 || g.state == 5)
    && (o.expired <==> replaced || checkNow > o.deadline)
    && !o.loaded && !o.unloaded
  }

  /** Element `k`, if usable, left its Ownership, and the entry if it is the last for its id. */
  predicate LeftBy(gs: seq<RawGrant>, clock: nat -> Time, s: State, t: State, id: GrantId, k: nat)
    requires k < |gs|
  {
    Usable(gs[k]) && gs[k].id == id ==>
      var inc := |Issued(s, id)| + Count(gs[..k], id);
      && inc < |Issued(t, id)|
      && MadeFor(gs[k], Issued(t, id)[inc], clock(2 * k), clock(2 * k + 1), inc < |Issued(t, id)| - 1)
      && (inc == |Issued(t, id)| - 1 ==>
            id in t.table && t.table[id] == Entry(gs[k], inc, gs[k].state == 3 || gs[k].state == 5))
  }

  /** The Ownerships issued before are as they were, but one whose place was taken has expired. */
  predicate OldKept(before: seq<Own>, after: seq<Own>, current: int) {
    && |before| <= |after|
    && forall n :: 0 <= n < |before| ==>
         after[n] == Own(before[n].active, before[n].revoked, before[n].expired || n == current,
                         before[n].unloaded, before[n].loaded, before[n].deadline)
  }

  ghost predicate AssignedAt(gs: seq<RawGrant>, clock: nat -> Time, s: State, t: State, id: GrantId) {
    if Count(gs, id) == 0 then SameAt(s, t, id)
    else
      && |Issued(t, id)| == |Issued(s, id)| + Count(gs, id)
      && id in t.table && t.table[id].inc == |Issued(t, id)| - 1
      && OldKept(Issued(s, id), Issued(t, id), if id in s.table then s.table[id].inc else -1)
      && forall k: nat :: k < |gs| ==> LeftBy(gs, clock, s, t, id, k)
  }

  /** The log of a batch: each usable element in turn, after the removal of the entry it replaces. */
  function Announced(gs: seq<RawGrant>, s: State): seq<GrantEvent> {
    if gs == [] then []
    else
      var before, g := gs[..|gs| - 1], gs[|gs| - 1];
      if !Usable(g) then Announced(before, s)
      else
        var d := g.shard.value.domain.value;
        Announced(before, s)
        + (if g.id in s.table || Count(before, g.id) > 0 then [Removed(g.id)] else [])
        + [Assigned(g.id,
                    Shard(DomainName(d.service.value, d.name), DomainTypeFromI32(g.shard.value.kind),
                          g.shard.value.region, g.shard.value.from, g.shard.value.to),
                    |Issued(s, g.id)| + Count(before, g.id))]
  }

  // ---------- Whole messages ----------

  ghost predicate RevokeEffect(gs: seq<RawGrant>, s: State, t: State) {
    t.events == s.events && t.closed == s.closed && forall id :: RevokedAt(gs, s, t, id)
  }

  ghost predicate PromoteEffect(gs: seq<RawGrant>, s: State, t: State) {
    t.events == s.events && t.closed == s.closed && forall id :: PromotedAt(gs, s, t, id)
  }

  ghost predicate AssignEffect(gs: seq<RawGrant>, clock: nat -> Time, s: State, t: State) {
    && t.closed == s.closed && t.events == s.events + Announced(gs, s)
    && forall id :: AssignedAt(gs, clock, s, t, id)
  }

  /** The effect of a message, for each grant and every Ownership. */
  ghost predicate Effect(m: ClientMessage, clock: nat -> Time, s: State, t: State) {
    match m
    case Assign(gs) => AssignEffect(gs, clock, s, t)
    case Promote(gs) => PromoteEffect(gs, s, t)
    case Revoke(gs) => RevokeEffect(gs, s, t)
    case Notify(update, target) =>
      t.events == s.events && t.closed == s.closed && forall id :: NotifiedAt(update, target, s, t, id)
    case Extend(lease) =>
      t.events == s.events && t.closed == s.closed && forall id :: ExtendedAt(lease, s, t, id)
    case Other => t == s
  }

  // ---------- Revoke ----------

  lemma NamedSnoc(gs: seq<RawGrant>, g: RawGrant, id: GrantId)
    ensures Named(gs + [g], id) <==> Named(gs, id) || g.id == id
    ensures Leased(gs + [g], id) <==> Leased(gs, id) || (g.id == id && g.lease.Some?)
  {
    var all := gs + [g];
    assert all[|gs|] == g;
    if n :| 0 <= n < |gs| && gs[n].id == id { assert all[n].id == id; }
    if n :| 0 <= n < |gs| && gs[n].id == id && gs[n].lease.Some? { assert all[n].id == id && all[n].lease.Some?; }
  }

  lemma LastSnoc(gs: seq<RawGrant>, g: RawGrant, id: GrantId, n: int)
    ensures IsLast(gs + [g], id, n) <==> if g.id == id then n == |gs| else IsLast(gs, id, n)
    ensures IsLastLeased(gs + [g], id, n) <==> if g.id == id && g.lease.Some? then n == |gs| else IsLastLeased(gs, id, n)
  {
    var all := gs + [g];
    assert all[|gs|] == g;
    assert forall m :: 0 <= m < |gs| ==> all[m] == gs[m];
  }

  lemma RevokeAnother(gs: seq<RawGrant>, g: RawGrant, s: State, t: State, id: GrantId)
    requires TableOk(s) && TableOk(t) && RevokedAt(gs, s, t, id)
    ensures RevokedAt(gs + [g], s, OnRevoke(t, g), id)
  {
    NamedSnoc(gs, g, id);
    forall n ensures IsLast(gs + [g], id, n) <==> if g.id == id then n == |gs| else IsLast(gs, id, n)
             ensures IsLastLeased(gs + [g], id, n) <==>
                       if g.id == id && g.lease.Some? then n == |gs| else IsLastLeased(gs, id, n) {
      LastSnoc(gs, g, id, n);
    }
  }

  lemma PromoteAnother(gs: seq<RawGrant>, g: RawGrant, s: State, t: State, id: GrantId)
    requires TableOk(s) && TableOk(t) && PromotedAt(gs, s, t, id)
    ensures PromotedAt(gs + [g], s, OnPromote(t, g), id)
  {
    NamedSnoc(gs, g, id);
    forall n ensures IsLast(gs + [g], id, n) <==> if g.id == id then n == |gs| else IsLast(gs, id, n) {
      LastSnoc(gs, g, id, n);
    }
  }

  lemma {:induction false} RevokesDo(s: State, gs: seq<RawGrant>, items: seq<Item>)
    requires TableOk(s) && |items| == |gs| && forall n :: 0 <= n < |gs| ==> items[n] == IRevoke(gs[n])
    ensures RevokeEffect(gs, s, Steps(s, items))
  {
    if gs != [] {
      var before, g := gs[..|gs| - 1], gs[|gs| - 1];
      RevokesDo(s, before, items[..|gs| - 1]);
      H.StepsSnoc(s, items[..|gs| - 1], IRevoke(g));
      assert items == items[..|gs| - 1] + [IRevoke(g)] && gs == before + [g];
      forall id ensures RevokedAt(gs, s, Steps(s, items), id) {
        RevokeAnother(before, g, s, Steps(s, items[..|gs| - 1]), id);
      }
    }
  }

  lemma {:induction false} PromotesDo(s: State, gs: seq<RawGrant>, items: seq<Item>)
    requires TableOk(s) && |items| == |gs| && forall n :: 0 <= n < |gs| ==> items[n] == IPromote(gs[n])
    ensures PromoteEffect(gs, s, Steps(s, items))
  {
    if gs != [] {
      var before, g := gs[..|gs| - 1], gs[|gs| - 1];
      PromotesDo(s, before, items[..|gs| - 1]);
      H.StepsSnoc(s, items[..|gs| - 1], IPromote(g));
      assert items == items[..|gs| - 1] + [IPromote(g)] && gs == before + [g];
      forall id ensures PromotedAt(gs, s, Steps(s, items), id) {
        PromoteAnother(before, g, s, Steps(s, items[..|gs| - 1]), id);
      }
    }
  }

  lemma NotifyDoes(s: State, update: Option<RawGrant>, target: Option<RawGrant>, id: GrantId)
    requires TableOk(s)
    ensures NotifiedAt(update, target, s, OnNotify(s, update, target), id)
  {}

  lemma ExtendDoes(s: State, lease: Option<Time>, id: GrantId)
    requires TableOk(s)
    ensures ExtendedAt(lease, s, OnExtend(s, lease), id)
  {}

  // ---------- Assign ----------

  /** What an element of a batch makes the driver do; its clock readings have the numbers `n` and `n + 1`. */
  function ElementItems(g: RawGrant, clock: nat -> Time, n: nat): seq<Item> {
    if Usable(g) then [IRemove(g.id), IAssign(g, clock(n), clock(n + 1))] else []
  }

  lemma UsableDecodes(g: RawGrant)
    ensures Usable(g) <==> AssignedShard(g).Some?
    ensures Usable(g) ==>
              var d := g.shard.value.domain.value;
              AssignedShard(g) == Some(Shard(DomainName(d.service.value, d.name), DomainTypeFromI32(g.shard.value.kind),
                                             g.shard.value.region, g.shard.value.from, g.shard.value.to))
  {}

  lemma {:induction false} BatchSnoc(gs: seq<RawGrant>, g: RawGrant, clock: nat -> Time, n: nat)
    ensures AssignItems(gs + [g], clock, n) == AssignItems(gs, clock, n) + ElementItems(g, clock, n + 2 * |gs|)
    decreases |gs|
  {
    UsableDecodes(g);
    if gs == [] {
      assert gs + [g] == [g] && [g][1..] == [];
    } else {
      assert (gs + [g])[1..] == gs[1..] + [g];
      BatchSnoc(gs[1..], g, clock, n + 2);
    }
  }

  /** One usable element, at its own id. */
  predicate Took(g: RawGrant, leaseNow: Time, checkNow: Time, s: State, t: State) {
    var id, list, list' := g.id, Issued(s, g.id), Issued(t, g.id);
    && |list'| == |list| + 1
    && OldKept(list, list', if id in s.table then s.table[id].inc else -1)
    && MadeFor(g, list'[|list|], leaseNow, checkNow, false)
    && id in t.table && t.table[id] == Entry(g, |list|, g.state == 3 || g.state == 5)
  }

  /** A table as the driver keeps it once the entry of `id` has been removed. */
  lemma RemovalDoes(s: State, id: GrantId, j: GrantId)
    requires TableOk(s)
    ensures var t := RemoveGrant(s, id);
            && id !in t.table && t.closed == s.closed
            && t.events == s.events + (if id in s.table then [Removed(id)] else [])
            && (j != id ==> SameAt(s, t, j))
            && OldKept(Issued(s, id), Issued(t, id), if id in s.table then s.table[id].inc else -1)
            && |Issued(t, id)| == |Issued(s, id)|
  {}

  lemma IssueDoes(s: State, g: RawGrant, leaseNow: Time, checkNow: Time, j: GrantId)
    requires TableOk(s) && Usable(g) && g.id !in s.table
    ensures var t := OnAssign(s, g, leaseNow, checkNow);
            && t.closed == s.closed
            && t.events == s.events + [Assigned(g.id, AssignedShard(g).value, |Issued(s, g.id)|)]
            && Took(g, leaseNow, checkNow, s, t)
            && (j != g.id ==> SameAt(s, t, j))
  {
    UsableDecodes(g);
  }

  lemma ElementDoes(s: State, g: RawGrant, leaseNow: Time, checkNow: Time, j: GrantId)
    requires TableOk(s) && Usable(g)
    ensures var t := Steps(s, [IRemove(g.id), IAssign(g, leaseNow, checkNow)]);
            && t.closed == s.closed
            && t.events == s.events + (if g.id in s.table then [Removed(g.id)] else [])
                           + [Assigned(g.id, AssignedShard(g).value, |Issued(s, g.id)|)]
            && Took(g, leaseNow, checkNow, s, t)
            && (j != g.id ==> SameAt(s, t, j))
  {
    var r := Step(s, IRemove(g.id));
    RemovalDoes(s, g.id, j);
    IssueDoes(r, g, leaseNow, checkNow, j);
    TwoSteps(s, IRemove(g.id), IAssign(g, leaseNow, checkNow));
  }

  lemma TwoSteps(s: State, a: Item, b: Item)
    requires TableOk(s)
    ensures Steps(s, [a, b]) == Step(Step(s, a), b)
  {
    assert [a, b][1..] == [b] && [b][1..] == [];
    assert Steps(Step(Step(s, a), b), []) == Step(Step(s, a), b);
  }

  lemma CountSnoc(gs: seq<RawGrant>, g: RawGrant, id: GrantId)
    ensures Count(gs + [g], id) == Count(gs, id) + (if Usable(g) && g.id == id then 1 else 0)
  {
    assert (gs + [g])[..|gs|] == gs;
  }

  lemma AssignAnother(gs: seq<RawGrant>, g: RawGrant, clock: nat -> Time, s: State, t: State, u: State)
    requires AssignedAt(gs, clock, s, t, g.id) && Usable(g)
    requires Took(g, clock(2 * |gs|), clock(2 * |gs| + 1), t, u)
    requires TableOk(t)
    ensures AssignedAt(gs + [g], clock, s, u, g.id)
  {
    var id := g.id;
    CountSnoc(gs, g, id);
    forall k: nat | k < |gs + [g]| ensures LeftBy(gs + [g], clock, s, u, id, k) {
      if k < |gs| {
        assert (gs + [g])[..k] == gs[..k];
        CountWithin(gs, k, id);
        assert Count(gs, id) > 0 ==> LeftBy(gs, clock, s, t, id, k);
      } else {
        assert (gs + [g])[..k] == gs;
      }
    }
  }

  /** An element that names the id has fewer before it than there are in all. */
  lemma {:induction false} CountWithin(gs: seq<RawGrant>, k: nat, id: GrantId)
    requires k < |gs|
    ensures Count(gs[..k], id) + (if Usable(gs[k]) && gs[k].id == id then 1 else 0) <= Count(gs, id)
  {
    var before := gs[..|gs| - 1];
    if k < |gs| - 1 {
      CountWithin(before, k, id);
      assert before[..k] == gs[..k];
    }
  }

  /** Elements that name another id, or no shard, leave an id as it is. */
  lemma UnconcernedAt(gs: seq<RawGrant>, g: RawGrant, clock: nat -> Time, s: State, t: State, u: State, id: GrantId)
    requires AssignedAt(gs, clock, s, t, id) && SameAt(t, u, id)
    requires !Usable(g) || g.id != id
    ensures AssignedAt(gs + [g], clock, s, u, id)
  {
    CountSnoc(gs, g, id);
    if Count(gs, id) > 0 {
      forall k: nat | k < |gs + [g]| ensures LeftBy(gs + [g], clock, s, u, id, k) {
        if k < |gs| {
          assert (gs + [g])[..k] == gs[..k];
          assert LeftBy(gs, clock, s, t, id, k);
        }
      }
    }
  }

  /** How many Ownerships an id has got so far, and whether it has an entry. */
  predicate CountedAt(gs: seq<RawGrant>, s: State, t: State, id: GrantId) {
    && |Issued(t, id)| == |Issued(s, id)| + Count(gs, id)
    && (id in t.table <==> id in s.table || Count(gs, id) > 0)
  }

  lemma AnnouncedSnoc(gs: seq<RawGrant>, g: RawGrant, s: State, t: State)
    requires Usable(g) && CountedAt(gs, s, t, g.id)
    ensures Announced(gs + [g], s) == Announced(gs, s)
            + ((if g.id in t.table then [Removed(g.id)] else [])
               + [Assigned(g.id, AssignedShard(g).value, |Issued(t, g.id)|)])
  {
    UsableDecodes(g);
    assert (gs + [g])[..|gs|] == gs;
  }

  lemma ElementAt(s: State, gs: seq<RawGrant>, g: RawGrant, clock: nat -> Time, t: State, id: GrantId)
    requires TableOk(t) && AssignedAt(gs, clock, s, t, id)
    ensures AssignedAt(gs + [g], clock, s, Steps(t, ElementItems(g, clock, 2 * |gs|)), id)
  {
    var u := Steps(t, ElementItems(g, clock, 2 * |gs|));
    if !Usable(g) {
      UnconcernedAt(gs, g, clock, s, t, u, id);
    } else {
      ElementDoes(t, g, clock(2 * |gs|), clock(2 * |gs| + 1), id);
      if g.id == id {
        AssignAnother(gs, g, clock, s, t, u);
      } else {
        UnconcernedAt(gs, g, clock, s, t, u, id);
      }
    }
  }

  lemma ElementIsLogged(s: State, gs: seq<RawGrant>, g: RawGrant, clock: nat -> Time, t: State)
    requires TableOk(t) && CountedAt(gs, s, t, g.id)
    requires t.closed == s.closed && t.events == s.events + Announced(gs, s)
    ensures var u := Steps(t, ElementItems(g, clock, 2 * |gs|));
            u.closed == s.closed && u.events == s.events + Announced(gs + [g], s)
  {
    assert (gs + [g])[..|gs|] == gs;
    if Usable(g) {
      AnnouncedSnoc(gs, g, s, t);
      ElementDoes(t, g, clock(2 * |gs|), clock(2 * |gs| + 1), g.id);
    }
  }

  lemma ElementFollows(s: State, gs: seq<RawGrant>, g: RawGrant, clock: nat -> Time, t: State)
    requires TableOk(t) && AssignEffect(gs, clock, s, t)
    ensures AssignEffect(gs + [g], clock, s, Steps(t, ElementItems(g, clock, 2 * |gs|)))
  {
    assert AssignedAt(gs, clock, s, t, g.id);
    ElementIsLogged(s, gs, g, clock, t);
    forall id ensures AssignedAt(gs + [g], clock, s, Steps(t, ElementItems(g, clock, 2 * |gs|)), id) {
      assert AssignedAt(gs, clock, s, t, id);
      ElementAt(s, gs, g, clock, t, id);
    }
  }

  lemma Joined(s: State, all: seq<Item>, a: seq<Item>, b: seq<Item>)
    requires TableOk(s) && all == a + b
    ensures Steps(s, all) == Steps(Steps(s, a), b)
  {
    H.StepsConcat(s, a, b);
  }

  lemma {:induction false} AssignsDo(s: State, gs: seq<RawGrant>, clock: nat -> Time, items: seq<Item>)
    requires TableOk(s) && items == AssignItems(gs, clock, 0)
    ensures AssignEffect(gs, clock, s, Steps(s, items))
    decreases |gs|
  {
    if gs == [] {
      NoneDo(s, clock);
    } else {
      var before, g := gs[..|gs| - 1], gs[|gs| - 1];
      var earlier := AssignItems(before, clock, 0);
      AssignsDo(s, before, clock, earlier);
      BatchSnoc(before, g, clock, 0);
      assert gs == before + [g];
      Joined(s, items, earlier, ElementItems(g, clock, 2 * |before|));
      ElementFollows(s, before, g, clock, Steps(s, earlier));
    }
  }

  /** An Assign by itself, as the two things the driver does. */
  lemma OneAssigned(s: State, g: RawGrant, leaseNow: Time, checkNow: Time)
    requires TableOk(s)
    ensures AssignEffect([g], n => if n == 0 then leaseNow else checkNow, s,
                         if AssignedShard(g).None? then s
                         else Step(Step(s, IRemove(g.id)), IAssign(g, leaseNow, checkNow)))
  {
    var clock: nat -> Time := n => if n == 0 then leaseNow else checkNow;
    UsableDecodes(g);
    NoneDo(s, clock);
    ElementFollows(s, [], g, clock, s);
    assert [] + [g] == [g];
    TwoSteps(s, IRemove(g.id), IAssign(g, leaseNow, checkNow));
  }

  lemma NoneDo(s: State, clock: nat -> Time)
    requires TableOk(s)
    ensures AssignEffect([], clock, s, Steps(s, []))
  {}

  // ---------- Timers and removals ----------

  /** A timer closes `expired` of the Ownership it was made for and changes nothing else. */
  lemma TimerEffect(s: State, id: GrantId, inc: nat, j: GrantId)
    requires TableOk(s)
    ensures var t := Step(s, ITimer(id, inc));
            && t.table == s.table && t.events == s.events && t.closed == s.closed
            && if j == id && inc < |Issued(s, id)|
               then
                 var o := Issued(s, id)[inc];
                 && OnlyAt(Issued(s, id), Issued(t, id), inc)
                 && Issued(t, id)[inc] == Own(o.active, o.revoked, true, o.unloaded, o.loaded, o.deadline)
               else Issued(t, j) == Issued(s, j)
  {}

  /** A removal expires the Ownership of the entry, takes the entry out and announces it;
      of an id that has no entry it changes nothing. */
  lemma RemovalEffect(s: State, id: GrantId, j: GrantId)
    requires TableOk(s)
    ensures var t := Step(s, IRemove(id));
            if id !in s.table then t == s
            else
              var inc := s.table[id].inc;
              var o := Issued(s, id)[inc];
              && t.table == s.table - {id} && t.events == s.events + [Removed(id)] && t.closed == s.closed
              && OnlyAt(Issued(s, id), Issued(t, id), inc)
              && Issued(t, id)[inc] == Own(o.active, o.revoked, true, o.unloaded, o.loaded, o.deadline)
              && (j != id ==> Issued(t, j) == Issued(s, j))
  {}

  // ---------- The result ----------

  /** From any state of the driver, a whole message does what its fields say, to each
      grant and to every Ownership ever issued, and nothing else. */
  lemma MessageEffect(s: State, m: ClientMessage, clock: nat -> Time)
    requires TableOk(s)
    ensures Effect(m, clock, s, Steps(s, Items(m, clock)))
  {
    match m {
      case Assign(gs) => AssignsDo(s, gs, clock, Items(m, clock));
      case Promote(gs) => PromotesDo(s, gs, Items(m, clock));
      case Revoke(gs) => RevokesDo(s, gs, Items(m, clock));
      case Notify(update, target) =>
        OneStep(s, INotify(update, target));
        forall id ensures NotifiedAt(update, target, s, OnNotify(s, update, target), id) {
          NotifyDoes(s, update, target, id);
        }
      case Extend(lease) =>
        OneStep(s, IExtend(lease));
        forall id ensures ExtendedAt(lease, s, OnExtend(s, lease), id) { ExtendDoes(s, lease, id); }
      case Other =>
    }
  }

  lemma OneStep(s: State, i: Item)
    requires TableOk(s)
    ensures Steps(s, [i]) == Step(s, i)
  {
    assert [i][1..] == [];
    assert Steps(Step(s, i), []) == Step(s, i);
  }
}
