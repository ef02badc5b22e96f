/** A driver's item, done as steps of the tasks: whatever its driver holds about an
    Ownership is what the tasks around the grant see. */
module Mirror {
  import opened Ids
  import opened Lifecycle
  import opened LifecycleSafety
  import opened Fleet
  import S = Consumer

  predicate Mirrors(o: Latches, own: S.Own) {
    && o.active == own.active && o.revoked == own.revoked && o.expired == own.expired
    && o.unloaded == own.unloaded && o.loaded == own.loaded
  }

  /** The tasks of incarnation `k` exist exactly if its driver issued an Ownership
      for it, and they see the latches as the driver left them. */
  predicate KeyAgrees(k: Key, s: S.State, incs: map<Key, Incarnation>) {
    && (k in incs <==> k.inc < |S.Issued(s, k.id)|)
    && (k in incs ==> Mirrors(incs[k].o, S.Issued(s, k.id)[k.inc]) && incs[k].grant.id == k.id)
  }

  ghost predicate Agrees(c: nat, s: S.State, incs: map<Key, Incarnation>) {
    forall k: Key :: k.consumer == c ==> KeyAgrees(k, s, incs)
  }

  /** Nothing changed for the other consumers. */
  ghost predicate OthersSame(c: nat, incs: map<Key, Incarnation>, incs': map<Key, Incarnation>) {
    forall k: Key :: k.consumer != c ==>
      (k in incs' <==> k in incs) && (k in incs ==> incs'[k] == incs[k])
  }

  /** The move is possible, and brings the tasks of `c` to agree with `t`. */
  ghost predicate Leads(w: World, move: Option<Action>, c: nat, t: S.State) {
    Movable(w, move) && Agrees(c, t, Moved(w, move).incs) && OthersSame(c, w.incs, Moved(w, move).incs)
  }

  /** The driver changes nothing that the tasks see. */
  predicate SameLatches(s: S.State, t: S.State, id: GrantId) {
    && |S.Issued(t, id)| == |S.Issued(s, id)|
    && forall n :: 0 <= n < |S.Issued(s, id)| ==>
         S.Issued(t, id)[n] == S.Issued(s, id)[n].(deadline := S.Issued(t, id)[n].deadline)
  }

  lemma NothingLeads(w: World, c: nat, s: S.State, t: S.State)
    requires Agrees(c, s, w.incs)
    requires forall id :: SameLatches(s, t, id)
    ensures Leads(w, None, c, t)
  {
    forall k: Key | k.consumer == c ensures KeyAgrees(k, t, w.incs) {
      assert KeyAgrees(k, s, w.incs) && SameLatches(s, t, k.id);
    }
  }

  function CloseOwn(o: S.Own, l: DriverLatch): S.Own {
    o.(active := o.active || l.LActive?, revoked := o.revoked || l.LRevoked?,
       expired := o.expired || l.LExpired?, unloaded := o.unloaded || l.LUnloaded?,
       loaded := o.loaded || l.LLoaded?)
  }

  /** Closing one latch on both sides. */
  lemma CloseLeads(w: World, c: nat, s: S.State, id: GrantId, n: nat, l: DriverLatch, t: S.State)
    requires Agrees(c, s, w.incs) && n < |S.Issued(s, id)|
    requires t.owned.Keys == s.owned.Keys
    requires forall j :: j != id ==> S.Issued(t, j) == S.Issued(s, j)
    requires |S.Issued(t, id)| == |S.Issued(s, id)|
    requires forall m :: 0 <= m < |S.Issued(s, id)| && m != n ==> S.Issued(t, id)[m] == S.Issued(s, id)[m]
    requires S.Issued(t, id)[n] == CloseOwn(S.Issued(s, id)[n], l).(deadline := S.Issued(t, id)[n].deadline)
    ensures Leads(w, Some(Close(Key(c, id, n), l)), c, t)
  {
    var key := Key(c, id, n);
    assert KeyAgrees(key, s, w.incs);
    forall k: Key | k.consumer == c ensures KeyAgrees(k, t, Next(w, Close(key, l)).incs) {
      assert KeyAgrees(k, s, w.incs);
    }
  }

  /** The same, when the driver's state after it is given by its new Ownership. */
  lemma SetLeads(w: World, c: nat, s: S.State, id: GrantId, n: nat, l: DriverLatch, deadline: Time, t: S.State)
    requires Agrees(c, s, w.incs) && n < |S.Issued(s, id)|
    requires t.owned == S.SetOwn(s, id, n, CloseOwn(S.Issued(s, id)[n], l).(deadline := deadline)).owned
    ensures Leads(w, Some(Close(Key(c, id, n), l)), c, t)
  {
    assert S.Issued(t, id) == S.Issued(s, id)[n := CloseOwn(S.Issued(s, id)[n], l).(deadline := deadline)];
    CloseLeads(w, c, s, id, n, l, t);
  }

  /** Closing a latch of the grant in the table, whatever becomes of its deadline
      and of the table. */
  lemma CurrentLeads(w: World, c: nat, s: S.State, id: GrantId, l: DriverLatch, deadline: Time, t: S.State)
    requires S.TableOk(s) && Agrees(c, s, w.incs)
    requires if id in s.table
             then t.owned == S.SetOwn(s, id, s.table[id].inc,
                                      CloseOwn(S.OwnOf(s, id), l).(deadline := deadline)).owned
             else t.owned == s.owned
    ensures Leads(w, CloseCurrent(c, s, id, l), c, t)
  {
    if id in s.table {
      SetLeads(w, c, s, id, s.table[id].inc, l, deadline, t);
    } else {
      NothingLeads(w, c, s, t);
    }
  }

  function DeadlineOf(s: S.State, id: GrantId): Time
    requires S.TableOk(s)
  {
    if id in s.table then S.OwnOf(s, id).deadline else 0
  }

  lemma RemoveLeads(w: World, c: nat, s: S.State, id: GrantId)
    requires S.TableOk(s) && Agrees(c, s, w.incs)
    ensures Leads(w, CloseCurrent(c, s, id, LExpired), c, S.RemoveGrant(s, id))
  {
    CurrentLeads(w, c, s, id, LExpired, DeadlineOf(s, id), S.RemoveGrant(s, id));
  }

  lemma IssueLeads(w: World, c: nat, s: S.State, g: RawGrant, shard: Shard, deadline: Time, now: Time)
    requires S.TableOk(s) && Agrees(c, s, w.incs)
    ensures Leads(w, Some(Assign(Key(c, g.id, |S.Issued(s, g.id)|), g,
                                 LatchesOf(S.NewOwn(GrantStateFromI32(g.state), deadline, now)))),
                  c, S.Issue(s, g, shard, deadline, now))
  {
    var key := Key(c, g.id, |S.Issued(s, g.id)|);
    var a := Assign(key, g, LatchesOf(S.NewOwn(GrantStateFromI32(g.state), deadline, now)));
    assert KeyAgrees(key, s, w.incs);
    forall k: Key | k.consumer == c
      ensures KeyAgrees(k, S.Issue(s, g, shard, deadline, now), Next(w, a).incs)
    {
      assert KeyAgrees(k, s, w.incs);
    }
  }

  lemma AssignLeads(w: World, c: nat, s: S.State, g: RawGrant, leaseNow: Time, checkNow: Time)
    requires S.TableOk(s) && Agrees(c, s, w.incs) && !Replaces(s, S.IAssign(g, leaseNow, checkNow))
    ensures Leads(w, ActionOf(c, s, S.IAssign(g, leaseNow, checkNow)), c, S.OnAssign(s, g, leaseNow, checkNow))
  {
    if S.AssignedShard(g).None? {
      NothingLeads(w, c, s, s);
    } else {
      IssueLeads(w, c, s, g, S.AssignedShard(g).value, S.AssignLease(g, leaseNow), checkNow);
    }
  }

  lemma PromoteLeads(w: World, c: nat, s: S.State, g: RawGrant)
    requires S.TableOk(s) && Agrees(c, s, w.incs)
    ensures Leads(w, CloseCurrent(c, s, g.id, LActive), c, S.OnPromote(s, g))
  {
    CurrentLeads(w, c, s, g.id, LActive, DeadlineOf(s, g.id), S.OnPromote(s, g));
  }

  lemma RevokeLeads(w: World, c: nat, s: S.State, g: RawGrant)
    requires S.TableOk(s) && Agrees(c, s, w.incs)
    ensures Leads(w, CloseCurrent(c, s, g.id, LRevoked), c, S.OnRevoke(s, g))
  {
    var deadline := if g.lease.Some? then g.lease.value else DeadlineOf(s, g.id);
    CurrentLeads(w, c, s, g.id, LRevoked, deadline, S.OnRevoke(s, g));
  }

  lemma NotifyLeads(w: World, c: nat, s: S.State, update: Option<RawGrant>, target: Option<RawGrant>)
    requires S.TableOk(s) && Agrees(c, s, w.incs)
    ensures Leads(w, ActionOf(c, s, S.INotify(update, target)), c, S.OnNotify(s, update, target))
  {
    var t := S.OnNotify(s, update, target);
    if update.Some? && target.Some? && GrantStateFromI32(update.value.state).AllocatedLoaded? {
      CurrentLeads(w, c, s, target.value.id, LLoaded, DeadlineOf(s, target.value.id), t);
    } else if update.Some? && target.Some? && GrantStateFromI32(update.value.state).RevokedUnloaded? {
      CurrentLeads(w, c, s, target.value.id, LUnloaded, DeadlineOf(s, target.value.id), t);
    } else {
      NothingLeads(w, c, s, s);
    }
  }

  lemma ExtendLeads(w: World, c: nat, s: S.State, lease: Option<Time>)
    requires S.TableOk(s) && Agrees(c, s, w.incs)
    ensures Leads(w, None, c, S.OnExtend(s, lease))
  {
    forall id ensures SameLatches(s, S.OnExtend(s, lease), id) {}
    NothingLeads(w, c, s, S.OnExtend(s, lease));
  }

  lemma TimerLeads(w: World, c: nat, s: S.State, id: GrantId, inc: nat)
    requires S.TableOk(s) && Agrees(c, s, w.incs)
    ensures Leads(w, ActionOf(c, s, S.ITimer(id, inc)), c, S.OnTimer(s, id, inc))
  {
    if inc < |S.Issued(s, id)| {
      SetLeads(w, c, s, id, inc, LExpired, S.Issued(s, id)[inc].deadline, S.OnTimer(s, id, inc));
    } else {
      NothingLeads(w, c, s, s);
    }
  }

  lemma CloseDriverLeads(w: World, c: nat, s: S.State)
    requires S.TableOk(s) && Agrees(c, s, w.incs)
    ensures Leads(w, None, c, s.(closed := true))
  {
    forall id ensures SameLatches(s, s.(closed := true), id) {}
    NothingLeads(w, c, s, s.(closed := true));
  }

  /** Whatever its driver does, the tasks can always follow, and agree again. */
  lemma ItemLeads(w: World, c: nat, s: S.State, i: S.Item)
    requires S.TableOk(s) && Agrees(c, s, w.incs) && !Replaces(s, i)
    ensures Leads(w, ActionOf(c, s, i), c, S.Step(s, i))
  {
    match i {
      case IAssign(g, leaseNow, checkNow) => AssignLeads(w, c, s, g, leaseNow, checkNow);
      case IPromote(g) => PromoteLeads(w, c, s, g);
      case IRevoke(g) => RevokeLeads(w, c, s, g);
      case INotify(update, target) => NotifyLeads(w, c, s, update, target);
      case IExtend(lease) => ExtendLeads(w, c, s, lease);
      case ITimer(id, inc) => TimerLeads(w, c, s, id, inc);
      case IRemove(id) => RemoveLeads(w, c, s, id);
      case IClose => CloseDriverLeads(w, c, s);
    }
  }

  // ---------- Steps of the tasks ----------

  /** Steps other than the driver's leave the driver's latches alone. */
  lemma TaskAgrees(w: World, a: Action, c: nat, s: S.State)
    requires Enabled(w, a) && !a.Assign? && !a.Close?
    requires Agrees(c, s, w.incs)
    ensures Agrees(c, s, Next(w, a).incs)
  {
    StepShape(w, a);
    TouchedKeepsDriverLatches(w, a);
    forall k: Key | k.consumer == c ensures KeyAgrees(k, s, Next(w, a).incs) {
      assert KeyAgrees(k, s, w.incs);
    }
  }

  lemma TouchedKeepsDriverLatches(w: World, a: Action)
    requires Enabled(w, a) && !a.Assign? && !a.Close?
    ensures a.key in w.incs && Touched(w, a).grant == w.incs[a.key].grant
    ensures var i, j := w.incs[a.key].o, Touched(w, a).o;
            j == i.(load := j.load, unload := j.unload, requested := j.requested)
  {}

  /** Every incarnation stays, with its latches closed and its history kept. */
  ghost predicate Grown(w: World, t: World) {
    t.filters == w.filters && forall k :: k in w.incs ==> k in t.incs && Extends(w.incs[k], t.incs[k])
  }

  lemma StepGrows(w: World, a: Action)
    requires Enabled(w, a)
    ensures Grown(w, Next(w, a))
  {
    StepShape(w, a);
    if a.key in w.incs { TouchedExtends(w, a); }
  }
}
