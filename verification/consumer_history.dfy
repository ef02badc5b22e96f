/** The driver's state after any history: each grant follows an automaton of its
    own, the event log is the table, and the deadline is the lease in force. */
module ConsumerHistory {
  import opened Ids
  import opened Consumer

  // ---------- One grant by itself ----------

  /** Everything the driver holds about one id. */
  datatype Slice = Slice(entry: Option<Entry>, owned: seq<Own>, events: seq<GrantEvent>)

  predicate Names(e: GrantEvent, id: GrantId) { e.id == id }

  function EventsOf(events: seq<GrantEvent>, id: GrantId): seq<GrantEvent> {
    if events == [] then []
    else
      var rest := EventsOf(events[..|events| - 1], id);
      if Names(events[|events| - 1], id) then rest + [events[|events| - 1]] else rest
  }

  function SliceOf(s: State, id: GrantId): Slice {
    Slice(if id in s.table then Some(s.table[id]) else None, Issued(s, id), EventsOf(s.events, id))
  }

  /** The items that may affect a grant: those naming it, and every Extend. */
  predicate Concerns(i: Item, id: GrantId) {
    match i
    case IAssign(g, _, _) => g.id == id
    case IPromote(g) => g.id == id
    case IRevoke(g) => g.id == id
    case INotify(_, target) => target.Some? && target.value.id == id
    case IExtend(_) => true
    case ITimer(i, _) => i == id
    case IRemove(i) => i == id
    case IClose => false
  }

  predicate SliceOk(v: Slice) {
    v.entry.Some? ==> v.entry.value.inc < |v.owned|
  }

  function Current(v: Slice): Own
    requires SliceOk(v) && v.entry.Some?
  {
    v.owned[v.entry.value.inc]
  }

  function WithCurrent(v: Slice, o: Own): Slice
    requires SliceOk(v) && v.entry.Some?
  {
    v.(owned := v.owned[v.entry.value.inc := o])
  }

  function Retire(v: Slice, id: GrantId): Slice
    requires SliceOk(v)
  {
    if v.entry.None? then v
    else Slice(None, WithCurrent(v, Current(v).(expired := true)).owned, v.events + [Removed(id)])
  }

  /** The automaton of one grant. It knows no other id and no table. */
  function GrantStep(v: Slice, i: Item, id: GrantId): (t: Slice)
    requires SliceOk(v)
    ensures SliceOk(t)
  {
    match i
    case IAssign(g, leaseNow, checkNow) =>
      if AssignedShard(g).None? then v
      else
        var state := GrantStateFromI32(g.state);
        var left := Retire(v, id);
        Slice(Some(Entry(g, |v.owned|, StartsRevoked(state))),
              left.owned + [NewOwn(state, AssignLease(g, leaseNow), checkNow)],
              left.events + [Assigned(id, AssignedShard(g).value, |v.owned|)])
    case IPromote(g) =>
      if v.entry.None? then v
      else WithCurrent(v, Current(v).(active := true)).(entry := Some(v.entry.value.(grant := g)))
    case IRevoke(g) =>
      if v.entry.None? then v
      else
        var o := Current(v).(revoked := true);
        WithCurrent(v, if g.lease.Some? then o.(deadline := g.lease.value) else o)
        .(entry := Some(v.entry.value.(grant := g, revoked := true)))
    case INotify(update, _) =>
      if v.entry.None? || update.None? then v
      else if update.value.state == 4 then WithCurrent(v, Current(v).(loaded := true))
      else if update.value.state == 5 then WithCurrent(v, Current(v).(unloaded := true))
      else v
    case IExtend(lease) =>
      if v.entry.None? || lease.None? || v.entry.value.revoked then v
      else WithCurrent(v, Current(v).(deadline := lease.value))
    case ITimer(_, inc) =>
      if inc < |v.owned| then v.(owned := v.owned[inc := v.owned[inc].(expired := true)]) else v
    case IRemove(_) => Retire(v, id)
    case IClose => v
  }

  function GrantSteps(v: Slice, items: seq<Item>, id: GrantId): (t: Slice)
    requires SliceOk(v)
    ensures SliceOk(t)
    decreases |items|
  {
    if items == [] then v else GrantSteps(GrantStep(v, items[0], id), items[1..], id)
  }

  function About(items: seq<Item>, id: GrantId): seq<Item> {
    if items == [] then []
    else if Concerns(items[0], id) then [items[0]] + About(items[1..], id)
    else About(items[1..], id)
  }

  lemma EventsOfSnoc(events: seq<GrantEvent>, e: GrantEvent, id: GrantId)
    ensures EventsOf(events + [e], id) == if e.id == id then EventsOf(events, id) + [e] else EventsOf(events, id)
  {
    assert (events + [e])[..|events|] == events;
  }

  lemma RemoveProjects(s: State, at: GrantId, id: GrantId)
    requires TableOk(s)
    ensures SliceOf(RemoveGrant(s, at), id) == if at == id then Retire(SliceOf(s, id), id) else SliceOf(s, id)
    ensures RemoveGrant(s, at).closed == s.closed
  {
    EventsOfSnoc(s.events, Removed(at), id);
  }

  lemma IssueProjects(s: State, g: RawGrant, shard: Shard, deadline: Time, now: Time, id: GrantId)
    requires TableOk(s)
    ensures var v := SliceOf(s, id);
            var inc := |Issued(s, g.id)|;
            var state := GrantStateFromI32(g.state);
            SliceOf(Issue(s, g, shard, deadline, now), id) ==
            if g.id == id
            then Slice(Some(Entry(g, inc, StartsRevoked(state))),
                       v.owned + [NewOwn(state, deadline, now)],
                       v.events + [Assigned(id, shard, inc)])
            else v
  {
    EventsOfSnoc(s.events, Assigned(g.id, shard, |Issued(s, g.id)|), id);
  }

  lemma AssignProjects(s: State, g: RawGrant, leaseNow: Time, checkNow: Time, id: GrantId)
    requires TableOk(s)
    ensures SliceOf(OnAssign(s, g, leaseNow, checkNow), id)
         == if g.id == id then GrantStep(SliceOf(s, id), IAssign(g, leaseNow, checkNow), id) else SliceOf(s, id)
  {
    if AssignedShard(g).Some? {
      RemoveProjects(s, g.id, id);
      var s1 := RemoveGrant(s, g.id);
      IssueProjects(s1, g, AssignedShard(g).value, AssignLease(g, leaseNow), checkNow, id);
      if g.id == id { assert |Issued(s1, id)| == |Issued(s, id)|; }
    }
  }

  lemma PromoteProjects(s: State, g: RawGrant, id: GrantId)
    requires TableOk(s)
    ensures SliceOf(OnPromote(s, g), id)
         == if g.id == id then GrantStep(SliceOf(s, id), IPromote(g), id) else SliceOf(s, id)
  {}

  lemma RevokeProjects(s: State, g: RawGrant, id: GrantId)
    requires TableOk(s)
    ensures SliceOf(OnRevoke(s, g), id)
         == if g.id == id then GrantStep(SliceOf(s, id), IRevoke(g), id) else SliceOf(s, id)
  {}

  lemma SetOwnProjects(s: State, at: GrantId, inc: nat, o: Own, id: GrantId)
    requires TableOk(s) && inc < |Issued(s, at)|
    ensures SliceOf(SetOwn(s, at, inc, o), id)
         == if at == id then SliceOf(s, id).(owned := Issued(s, id)[inc := o]) else SliceOf(s, id)
  {}

  lemma NotifyProjects(s: State, update: Option<RawGrant>, target: Option<RawGrant>, id: GrantId)
    requires TableOk(s)
    ensures SliceOf(OnNotify(s, update, target), id)
         == if target.Some? && target.value.id == id then GrantStep(SliceOf(s, id), INotify(update, target), id)
            else SliceOf(s, id)
  {
    if target.Some? && update.Some? && target.value.id in s.table {
      var at := target.value.id;
      var o := OwnOf(s, at);
      if update.value.state == 4 { SetOwnProjects(s, at, s.table[at].inc, o.(loaded := true), id); }
      if update.value.state == 5 { SetOwnProjects(s, at, s.table[at].inc, o.(unloaded := true), id); }
    }
  }

  lemma ExtendProjects(s: State, lease: Option<Time>, id: GrantId)
    requires TableOk(s)
    ensures SliceOf(OnExtend(s, lease), id) == GrantStep(SliceOf(s, id), IExtend(lease), id)
  {}

  lemma StepProjects(s: State, i: Item, id: GrantId)
    requires TableOk(s)
    ensures SliceOf(Step(s, i), id)
         == if Concerns(i, id) then GrantStep(SliceOf(s, id), i, id) else SliceOf(s, id)
  {
    match i {
      case IAssign(g, leaseNow, checkNow) => AssignProjects(s, g, leaseNow, checkNow, id);
      case IPromote(g) => PromoteProjects(s, g, id);
      case IRevoke(g) => RevokeProjects(s, g, id);
      case INotify(update, target) => NotifyProjects(s, update, target, id);
      case IExtend(lease) => ExtendProjects(s, lease, id);
      case ITimer(_, _) =>
      case IRemove(at) => RemoveProjects(s, at, id);
      case IClose =>
    }
  }

  /** After any history, what the driver holds about a grant is what the one-grant
      automaton reaches on the items naming it and every Extend. Other grants,
      batching, duplicates and undecodable items make no difference. */
  lemma {:induction false} Projection(s: State, items: seq<Item>, id: GrantId)
    requires TableOk(s)
    ensures SliceOf(Steps(s, items), id) == GrantSteps(SliceOf(s, id), About(items, id), id)
    decreases |items|
  {
    if items != [] {
      StepProjects(s, items[0], id);
      Projection(Step(s, items[0]), items[1..], id);
      if Concerns(items[0], id) {
        assert About(items, id)[1..] == About(items[1..], id);
      }
    }
  }

  // ---------- The event log ----------

  /** Events of one id: Assigned and Removed in turn, the Assigned ones numbered. */
  predicate Alternates(events: seq<GrantEvent>, id: GrantId) {
    forall k :: 0 <= k < |events| ==>
      events[k].id == id &&
      if k % 2 == 0 then events[k].Assigned? && events[k].inc == k / 2 else events[k].Removed?
  }

  /** What holds of one grant after any history. */
  predicate GrantOk(v: Slice, id: GrantId) {
    && SliceOk(v)
    && Alternates(v.events, id)
    && |v.events| == (if v.entry.Some? then 2 * |v.owned| - 1 else 2 * |v.owned|)
    && (v.entry.Some? ==>
          v.owned != [] && v.entry.value.inc == |v.owned| - 1 && v.entry.value.revoked == Current(v).revoked)
    && (forall n :: 0 <= n < |v.owned| - 1 ==> v.owned[n].expired)
    && (v.entry.None? && v.owned != [] ==> v.owned[|v.owned| - 1].expired)
  }

  lemma RetireKeeps(v: Slice, id: GrantId)
    requires GrantOk(v, id)
    ensures GrantOk(Retire(v, id), id)
  {}

  lemma AssignKeeps(v: Slice, i: Item, id: GrantId)
    requires GrantOk(v, id) && i.IAssign?
    ensures GrantOk(GrantStep(v, i, id), id)
  {
    RetireKeeps(v, id);
  }

  /** Changing an Ownership without reopening a latch or touching `revoked`. */
  lemma OwnChangeKeeps(v: Slice, id: GrantId, n: nat, o: Own)
    requires GrantOk(v, id) && n < |v.owned|
    requires o.revoked == v.owned[n].revoked && (v.owned[n].expired ==> o.expired)
    ensures GrantOk(v.(owned := v.owned[n := o]), id)
  {}

  lemma RevokeKeeps(v: Slice, i: Item, id: GrantId)
    requires GrantOk(v, id) && i.IRevoke?
    ensures GrantOk(GrantStep(v, i, id), id)
  {}

  lemma GrantStepKeeps(v: Slice, i: Item, id: GrantId)
    requires GrantOk(v, id)
    ensures GrantOk(GrantStep(v, i, id), id)
  {
    match i {
      case IAssign(_, _, _) => AssignKeeps(v, i, id);
      case IRevoke(_) => RevokeKeeps(v, i, id);
      case IPromote(g) =>
        if v.entry.Some? { OwnChangeKeeps(v, id, v.entry.value.inc, Current(v).(active := true)); }
      case INotify(_, _) =>
        if v.entry.Some? {
          OwnChangeKeeps(v, id, v.entry.value.inc, Current(v).(loaded := true));
          OwnChangeKeeps(v, id, v.entry.value.inc, Current(v).(unloaded := true));
        }
      case IExtend(lease) =>
        if v.entry.Some? && lease.Some? {
          OwnChangeKeeps(v, id, v.entry.value.inc, Current(v).(deadline := lease.value));
        }
      case ITimer(_, n) => if n < |v.owned| { OwnChangeKeeps(v, id, n, v.owned[n].(expired := true)); }
      case IRemove(_) => RetireKeeps(v, id);
      case IClose =>
    }
  }

  lemma {:induction false} HistoryKeeps(s: State, items: seq<Item>, id: GrantId)
    requires TableOk(s) && GrantOk(SliceOf(s, id), id)
    ensures GrantOk(SliceOf(Steps(s, items), id), id)
    decreases |items|
  {
    if items != [] {
      StepProjects(s, items[0], id);
      GrantStepKeeps(SliceOf(s, id), items[0], id);
      HistoryKeeps(Step(s, items[0]), items[1..], id);
    }
  }

  /** The table a reader of the event log would rebuild. */
  function Replay(events: seq<GrantEvent>): map<GrantId, nat> {
    if events == [] then map[]
    else
      match events[|events| - 1]
      case Assigned(id, _, inc) => Replay(events[..|events| - 1])[id := inc]
      case Removed(id) => Replay(events[..|events| - 1]) - {id}
  }

  /** Replaying sees each id through its own events only. */
  lemma {:induction false} ReplayIsLocal(events: seq<GrantEvent>, id: GrantId)
    ensures var own := EventsOf(events, id);
            if own == [] || own[|own| - 1].Removed? then id !in Replay(events)
            else id in Replay(events) && Replay(events)[id] == own[|own| - 1].inc
  {
    if events != [] { ReplayIsLocal(events[..|events| - 1], id); }
  }

  lemma LastEventTells(v: Slice, id: GrantId)
    requires GrantOk(v, id)
    ensures v.entry.None? <==> v.events == [] || v.events[|v.events| - 1].Removed?
    ensures v.entry.Some? ==> v.events[|v.events| - 1].inc == v.entry.value.inc
  {}

  /** After any history from an empty table: the log replays to exactly the
      table; per id its events alternate; an entry's flag is its `revoked` latch;
      and every Ownership ever issued is the one in the table or has expired. */
  lemma LogIsTheTable(items: seq<Item>)
    ensures var s := Steps(EMPTY, items);
            && Replay(s.events) == (map id | id in s.table :: s.table[id].inc)
            && (forall id :: Alternates(EventsOf(s.events, id), id))
            && (forall id | id in s.table :: s.table[id].revoked == OwnOf(s, id).revoked)
            && (forall id, n :: 0 <= n < |Issued(s, id)| ==>
                  Issued(s, id)[n].expired || (id in s.table && s.table[id].inc == n))
  {
    var s := Steps(EMPTY, items);
    forall id ensures GrantOk(SliceOf(s, id), id) { HistoryKeeps(EMPTY, items, id); }
    forall id ensures id in Replay(s.events) <==> id in s.table
              ensures id in s.table ==> Replay(s.events)[id] == s.table[id].inc
    {
      ReplayIsLocal(s.events, id);
      LastEventTells(SliceOf(s, id), id);
    }
    forall id, n | 0 <= n < |Issued(s, id)|
      ensures Issued(s, id)[n].expired || (id in s.table && s.table[id].inc == n)
    {
      assert GrantOk(SliceOf(s, id), id);
    }
    forall id ensures Alternates(EventsOf(s.events, id), id) { assert GrantOk(SliceOf(s, id), id); }
    forall id | id in s.table ensures s.table[id].revoked == OwnOf(s, id).revoked {
      assert GrantOk(SliceOf(s, id), id);
    }
  }

  // ---------- The lease in force ----------

  predicate Assigns(i: Item, id: GrantId) {
    i.IAssign? && i.grant.id == id && AssignedShard(i.grant).Some?
  }

  predicate Revokes(i: Item, id: GrantId) { i.IRevoke? && i.grant.id == id }

  /** Item `a` is the last Assign of the grant. */
  predicate LastAssign(h: seq<Item>, id: GrantId, a: nat) {
    a < |h| && Assigns(h[a], id) && forall j :: a < j < |h| ==> !Assigns(h[j], id)
  }

  /** Between its Assign at `a` and item `k`, the grant was revoked. */
  predicate RevokedBy(h: seq<Item>, id: GrantId, a: nat, k: nat)
    requires a < |h| && Assigns(h[a], id) && k <= |h|
  {
    h[a].grant.state == 3 || h[a].grant.state == 5 || exists j :: a < j < k && Revokes(h[j], id)
  }

  /** Item `k` sets the deadline: the Assign itself, a Revoke carrying a lease, or
      an Extend received before any revocation. */
  predicate SetsLease(h: seq<Item>, id: GrantId, a: nat, k: nat)
    requires a < |h| && Assigns(h[a], id) && k < |h|
  {
    || k == a
    || (k > a && Revokes(h[k], id) && h[k].grant.lease.Some?)
    || (k > a && h[k].IExtend? && h[k].lease.Some? && !RevokedBy(h, id, a, k))
  }

  /** The deadline that a Revoke or an Extend carries. */
  function LeaseOf(i: Item): Option<Time> {
    match i
    case IRevoke(g) => g.lease
    case IExtend(lease) => lease
    case _ => None
  }

  /** The deadline is what the item's own fields say; an Assign without a lease lasts
      thirty seconds from when it is read. */
  ghost predicate LeaseInForce(h: seq<Item>, id: GrantId, e: Entry, o: Own, a: nat, k: nat) {
    && LastAssign(h, id, a) && k < |h| && SetsLease(h, id, a, k)
    && (forall j :: k < j < |h| ==> !SetsLease(h, id, a, j))
    && (match h[k]
        case IAssign(g, now, _) => o.deadline == if g.lease.Some? then g.lease.value else now + 30_000
        case IRevoke(g) => g.lease == Some(o.deadline)
        case IExtend(lease) => lease == Some(o.deadline)
        case _ => false)
    && (e.revoked <==> RevokedBy(h, id, a, |h|))
  }

  lemma {:induction false} StepsSnoc(s: State, items: seq<Item>, i: Item)
    requires TableOk(s)
    ensures Steps(s, items + [i]) == Step(Steps(s, items), i)
    decreases |items|
  {
    if items == [] {
      assert Steps(Step(s, i), []) == Step(s, i);
      assert items + [i] == [i];
    } else {
      assert (items + [i])[1..] == items[1..] + [i];
      StepsSnoc(Step(s, items[0]), items[1..], i);
    }
  }

  lemma {:induction false} StepsConcat(s: State, a: seq<Item>, b: seq<Item>)
    requires TableOk(s)
    ensures Steps(s, a + b) == Steps(Steps(s, a), b)
    decreases |a|
  {
    if a == [] {
      assert a + b == b;
    } else {
      assert (a + b)[1..] == a[1..] + b;
      StepsConcat(Step(s, a[0]), a[1..], b);
    }
  }

  /** The deadline of a grant in the table is the lease of the last item that
      could set it: no Extend after a revocation counts. */
  lemma {:induction false} DeadlineIsLeaseInForce(h: seq<Item>, id: GrantId) returns (a: nat, k: nat)
    requires id in Steps(EMPTY, h).table
    ensures LeaseInForce(h, id, Steps(EMPTY, h).table[id], OwnOf(Steps(EMPTY, h), id), a, k)
    decreases |h|
  {
    if h == [] { return; }
    var before, i := h[..|h| - 1], h[|h| - 1];
    assert h == before + [i];
    StepsSnoc(EMPTY, before, i);
    var v := SliceOf(Steps(EMPTY, before), id);
    var t := SliceOf(Steps(EMPTY, h), id);
    StepProjects(Steps(EMPTY, before), i, id);
    assert t.entry == Some(Steps(EMPTY, h).table[id]) && Current(t) == OwnOf(Steps(EMPTY, h), id);
    if Assigns(i, id) {
      a, k := |h| - 1, |h| - 1;
      AssignStartsLease(h, v, t, id);
      return;
    }
    HistoryKeeps(EMPTY, before, id);
    if Concerns(i, id) { OtherItemMovesLease(v, i, id); }
    assert v.entry.Some?;
    a, k := DeadlineIsLeaseInForce(before, id);
    k := LeaseCarriesOver(h, id, v.entry.value, Current(v), t.entry.value, Current(t), a, k);
  }

  /** How one more item, not an Assign, affects the lease in force. */
  lemma LeaseCarriesOver(h: seq<Item>, id: GrantId, e: Entry, o: Own, e': Entry, o': Own, a: nat, k: nat)
    returns (k': nat)
    requires h != [] && !Assigns(h[|h| - 1], id)
    requires LeaseInForce(h[..|h| - 1], id, e, o, a, k)
    requires var i := h[|h| - 1];
             && (e'.revoked <==> e.revoked || Revokes(i, id))
             && o'.deadline ==
                  if (Revokes(i, id) || (i.IExtend? && !e.revoked)) && LeaseOf(i).Some?
                  then LeaseOf(i).value else o.deadline
    ensures LeaseInForce(h, id, e', o', a, k')
  {
    EarlierItemsAgree(h, id, a);
    k' := if SetsLease(h, id, a, |h| - 1) then |h| - 1 else k;
  }

  lemma OtherItemMovesLease(v: Slice, i: Item, id: GrantId)
    requires GrantOk(v, id) && Concerns(i, id) && !Assigns(i, id)
    requires GrantStep(v, i, id).entry.Some?
    ensures v.entry.Some?
    ensures var t := GrantStep(v, i, id);
            && t.entry.value.revoked == (v.entry.value.revoked || i.IRevoke?)
            && Current(t).deadline ==
                 if (i.IRevoke? || (i.IExtend? && !v.entry.value.revoked)) && LeaseOf(i).Some?
                 then LeaseOf(i).value else Current(v).deadline
  {}

  lemma AssignStartsLease(h: seq<Item>, v: Slice, t: Slice, id: GrantId)
    requires h != [] && SliceOk(v) && Assigns(h[|h| - 1], id)
    requires t == GrantStep(v, h[|h| - 1], id)
    ensures t.entry.Some? && LeaseInForce(h, id, t.entry.value, Current(t), |h| - 1, |h| - 1)
  {
    var left := Retire(v, id);
    assert |left.owned| == |v.owned|;
  }

  lemma EarlierItemsAgree(h: seq<Item>, id: GrantId, a: nat)
    requires h != [] && a < |h| - 1 && Assigns(h[a], id)
    ensures forall k | 0 <= k <= |h| - 1 ::
              RevokedBy(h, id, a, k) == RevokedBy(h[..|h| - 1], id, a, k)
    ensures forall k | 0 <= k < |h| - 1 ::
              SetsLease(h, id, a, k) == SetsLease(h[..|h| - 1], id, a, k)
    ensures RevokedBy(h, id, a, |h|) <==> RevokedBy(h, id, a, |h| - 1) || Revokes(h[|h| - 1], id)
  {
    var b := h[..|h| - 1];
    forall k | 0 <= k <= |h| - 1 ensures RevokedBy(h, id, a, k) == RevokedBy(b, id, a, k) {
      if exists j :: a < j < k && Revokes(h[j], id) {
        var j :| a < j < k && Revokes(h[j], id);
        assert Revokes(b[j], id);
      }
      if exists j :: a < j < k && Revokes(b[j], id) {
        var j :| a < j < k && Revokes(b[j], id);
        assert Revokes(h[j], id);
      }
    }
  }

  /** Neither assigned, revoked nor removed by this item. */
  predicate Spares(i: Item, id: GrantId) {
    Concerns(i, id) ==> !i.IRevoke? && !i.IRemove? && !Assigns(i, id)
  }

  lemma SparedDeadline(v: Slice, i: Item, id: GrantId)
    requires SliceOk(v) && v.entry.Some? && v.entry.value.revoked && Concerns(i, id) && Spares(i, id)
    ensures var t := GrantStep(v, i, id);
            t.entry.Some? && t.entry.value.revoked && Current(t).deadline == Current(v).deadline
  {}

  /** From any state: while no item assigns, revokes or removes a revoked grant,
      nothing moves its deadline, so the lease a Revoke left is the last word. */
  lemma {:induction false} RevokedDeadlineIsFixed(s: State, items: seq<Item>, id: GrantId)
    requires TableOk(s) && id in s.table && s.table[id].revoked
    requires forall i :: i in items ==> Spares(i, id)
    ensures var t := Steps(s, items);
            id in t.table && t.table[id].revoked && OwnOf(t, id).deadline == OwnOf(s, id).deadline
    decreases |items|
  {
    if items != [] {
      assert Spares(items[0], id);
      StepProjects(s, items[0], id);
      var v, t := SliceOf(s, id), SliceOf(Step(s, items[0]), id);
      if Concerns(items[0], id) { SparedDeadline(v, items[0], id); }
      assert t.entry.Some? && Current(t).deadline == Current(v).deadline;
      RevokedDeadlineIsFixed(Step(s, items[0]), items[1..], id);
    }
  }

  /** Where the item sets or moves a deadline of the grant, it is at most `bound`. */
  predicate LeasesAtMost(i: Item, id: GrantId, bound: Time) {
    match i
    case IAssign(g, now, _) => g.id == id && AssignedShard(g).Some? ==>
      if g.lease.Some? then g.lease.value <= bound else now + 30_000 <= bound
    case IRevoke(g) => g.id == id && g.lease.Some? ==> g.lease.value <= bound
    case IExtend(lease) => lease.Some? ==> lease.value <= bound
    case _ => true
  }

  lemma RevokedIsSeen(h: seq<Item>, id: GrantId, a: nat, r: nat, k: nat)
    requires a < r < k <= |h| && Assigns(h[a], id) && Revokes(h[r], id)
    ensures RevokedBy(h, id, a, k)
  {}

  /** What a coordinator may count on. It sends items in order, among them at `r` a
      Revoke whose lease is no shorter than any it sent for the grant before, and
      later neither assigns the grant nor revokes it with a longer lease. Then
      however many of the items have arrived, and whatever it extends meanwhile,
      the consumer's deadline for the grant is never beyond the lease of the Revoke. */
  lemma RevokeBoundsTheLease(sent: seq<Item>, arrived: nat, r: nat, id: GrantId)
    requires arrived <= |sent| && r < |sent|
    requires sent[r].IRevoke? && sent[r].grant.id == id && sent[r].grant.lease.Some?
    requires forall j :: 0 <= j < r ==> LeasesAtMost(sent[j], id, sent[r].grant.lease.value)
    requires forall j :: r < j < |sent| ==>
               !Assigns(sent[j], id) && (sent[j].IExtend? || LeasesAtMost(sent[j], id, sent[r].grant.lease.value))
    ensures var s := Steps(EMPTY, sent[..arrived]);
            id in s.table ==> OwnOf(s, id).deadline <= sent[r].grant.lease.value
  {
    var h := sent[..arrived];
    if id in Steps(EMPTY, h).table {
      var a, k := DeadlineIsLeaseInForce(h, id);
      assert h[k] == sent[k] && h[a] == sent[a];
      if a < r < k { RevokedIsSeen(h, id, a, r, k); }
      assert k != r ==> LeasesAtMost(sent[k], id, sent[r].grant.lease.value);
    }
  }

  // ---------- The end of the driver ----------

  lemma StepCloses(s: State, i: Item)
    requires TableOk(s)
    ensures Step(s, i).closed == (s.closed || i == IClose)
  {}

  /** Only the last step of the exit closes the driver's latch. */
  lemma {:induction false} ClosedExactlyAfterExit(s: State, items: seq<Item>)
    requires TableOk(s)
    ensures Steps(s, items).closed <==> s.closed || IClose in items
    decreases |items|
  {
    if items != [] {
      StepCloses(s, items[0]);
      ClosedExactlyAfterExit(Step(s, items[0]), items[1..]);
      assert items == [items[0]] + items[1..];
    }
  }

  lemma {:induction false} TimersChangeNothingElse(s: State, items: seq<Item>)
    requires TableOk(s) && forall i :: i in items ==> i.ITimer?
    ensures Steps(s, items).table == s.table
    decreases |items|
  {
    if items != [] {
      assert items[0] in items;
      TimersChangeNothingElse(Step(s, items[0]), items[1..]);
    }
  }

  /** Once the table is empty every Ownership ever issued has expired; timers that
      fire later change none of it. */
  lemma EmptyTableMeansExpired(before: seq<Item>, timers: seq<Item>)
    requires Steps(EMPTY, before).table == map[]
    requires forall i :: i in timers ==> i.ITimer?
    ensures var s := Steps(EMPTY, before + timers);
            s.table == map[] && forall id, n :: 0 <= n < |Issued(s, id)| ==> Issued(s, id)[n].expired
  {
    StepsConcat(EMPTY, before, timers);
    TimersChangeNothingElse(Steps(EMPTY, before), timers);
    LogIsTheTable(before + timers);
  }
}
