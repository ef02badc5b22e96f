/** What holds in every history of a fleet. */
module FleetSafety {
  import opened Ids
  import opened Lifecycle
  import opened LifecycleSafety
  import opened Fleet
  import opened Mirror
  import S = Consumer
  import H = ConsumerHistory

  // ---------- Why a latch may be closed ----------

  /** Some run of the grant closed the latch behind the signal. */
  ghost predicate Signalled(w: World, id: GrantId, s: Signal) {
    exists k :: k in w.incs && k.id == id && SignalLatch(w.incs[k], s)
  }

  /** The former owner has let go: its run unloaded, or its lease lapsed. */
  ghost predicate Gone(f: Fleet, a: GrantId) {
    a in f.lapsed || Signalled(f.w, a, UnloadSignal)
  }

  ghost predicate Freed(f: Fleet, b: GrantId) {
    b in f.source ==> Gone(f, f.source[b])
  }

  predicate IsHeir(f: Fleet, b: GrantId, a: GrantId) {
    b in f.source && f.source[b] == a
  }

  /** A grant that takes over from `a` has loaded. */
  ghost predicate TakenOver(f: Fleet, a: GrantId) {
    exists b :: IsHeir(f, b, a) && Signalled(f.w, b, LoadSignal)
  }

  ghost predicate ItemOk(f: Fleet, i: S.Item) {
    match i
    case IAssign(g, _, _) => GrantStateFromI32(g.state).Active? ==> Freed(f, g.id)
    case IPromote(g) => Freed(f, g.id)
    case INotify(update, target) =>
      update.Some? && target.Some? ==>
        && (update.value.state == 5 ==> Freed(f, target.value.id))
        && (update.value.state == 4 ==> TakenOver(f, target.value.id))
    case _ => true
  }

  ghost predicate Sourced(f: Fleet, id: GrantId, o: S.Own) {
    && (o.active || o.unloaded ==> Freed(f, id))
    && (o.loaded ==> TakenOver(f, id))
  }

  ghost predicate AllSourced(f: Fleet, id: GrantId, owned: seq<S.Own>) {
    forall n :: 0 <= n < |owned| ==> Sourced(f, id, owned[n])
  }

  ghost predicate ReceiptOk(f: Fleet, u: RawGrant) {
    && (u.state == 5 ==> Signalled(f.w, u.id, UnloadSignal))
    && (u.state == 4 ==> Signalled(f.w, u.id, LoadSignal))
  }

  // ---------- The invariant ----------

  ghost predicate GrantFacts(f: Fleet, c: nat, id: GrantId) {
    H.GrantOk(H.SliceOf(DriverOf(f, c), id), id) && AllSourced(f, id, S.Issued(DriverOf(f, c), id))
  }

  ghost predicate DriverFacts(f: Fleet, c: nat) {
    && Agrees(c, DriverOf(f, c), f.w.incs)
    && (DriverOf(f, c).closed ==> DriverOf(f, c).table == map[])
  }

  ghost predicate ParcelOk(f: Fleet, p: Parcel) { p in f.sent ==> MaySend(f, p.item) }

  ghost predicate FleetInv(f: Fleet) {
    && Inv(f.w)
    && (forall c: nat :: DriverFacts(f, c))
    && (forall c: nat, id :: GrantFacts(f, c, id))
    && (forall p :: ParcelOk(f, p))
    && (forall u :: u in f.received ==> ReceiptOk(f, u))
  }

  // ---------- Facts that last ----------

  /** All that is needed to carry a fact of `f` over to `g`. */
  ghost predicate Later(f: Fleet, g: Fleet) {
    Grown(f.w, g.w) && g.source == f.source && f.received <= g.received && f.lapsed <= g.lapsed
  }

  lemma SignalLasts(w: World, t: World, id: GrantId, s: Signal)
    requires Grown(w, t) && Signalled(w, id, s)
    ensures Signalled(t, id, s)
  {
    var k :| k in w.incs && k.id == id && SignalLatch(w.incs[k], s);
    assert k in t.incs && Extends(w.incs[k], t.incs[k]);
  }

  lemma FreedLasts(f: Fleet, g: Fleet, id: GrantId)
    requires Later(f, g) && Freed(f, id)
    ensures Freed(g, id)
  {
    if id in f.source && f.source[id] !in f.lapsed {
      SignalLasts(f.w, g.w, f.source[id], UnloadSignal);
    }
  }

  lemma TakenOverLasts(f: Fleet, g: Fleet, id: GrantId)
    requires Later(f, g) && TakenOver(f, id)
    ensures TakenOver(g, id)
  {
    var b :| IsHeir(f, b, id) && Signalled(f.w, b, LoadSignal);
    SignalLasts(f.w, g.w, b, LoadSignal);
    assert IsHeir(g, b, id);
  }

  lemma SourcedLasts(f: Fleet, g: Fleet, id: GrantId, owned: seq<S.Own>)
    requires Later(f, g) && AllSourced(f, id, owned)
    ensures AllSourced(g, id, owned)
  {
    forall n | 0 <= n < |owned| ensures Sourced(g, id, owned[n]) {
      assert Sourced(f, id, owned[n]);
      if owned[n].active || owned[n].unloaded { FreedLasts(f, g, id); }
      if owned[n].loaded { TakenOverLasts(f, g, id); }
    }
  }

  lemma ReceiptLasts(f: Fleet, g: Fleet, u: RawGrant)
    requires Later(f, g) && ReceiptOk(f, u)
    ensures ReceiptOk(g, u)
  {
    if u.state == 5 { SignalLasts(f.w, g.w, u.id, UnloadSignal); }
    if u.state == 4 { SignalLasts(f.w, g.w, u.id, LoadSignal); }
  }

  /** What the coordinator may send it may still send later. */
  lemma PermissionLasts(f: Fleet, g: Fleet, i: S.Item)
    requires Later(f, g) && MaySend(f, i)
    ensures MaySend(g, i)
  {}

  // ---------- What a message is entitled to ----------

  lemma ActivationIsFreed(f: Fleet, b: GrantId)
    requires MayActivate(f, b) && forall u :: u in f.received ==> ReceiptOk(f, u)
    ensures Freed(f, b)
  {}

  lemma SendableIsOk(f: Fleet, i: S.Item)
    requires MaySend(f, i) && forall u :: u in f.received ==> ReceiptOk(f, u)
    ensures ItemOk(f, i)
  {
    match i {
      case IAssign(g, _, _) => if GrantStateFromI32(g.state).Active? { ActivationIsFreed(f, g.id); }
      case IPromote(g) => ActivationIsFreed(f, g.id);
      case INotify(update, target) =>
        if update.Some? && target.Some? {
          var u, t := update.value, target.value.id;
          if u.state == 5 { assert ReceiptOk(f, u); }
          if u.state == 4 { assert ReceiptOk(f, u) && IsHeir(f, u.id, t); }
        }
      case _ =>
    }
  }

  /** A driver closes only latches its item entitles it to. */
  lemma ItemKeepsSourced(f: Fleet, v: H.Slice, i: S.Item, id: GrantId)
    requires H.SliceOk(v) && AllSourced(f, id, v.owned)
    requires H.Concerns(i, id) && ItemOk(f, i)
    ensures AllSourced(f, id, H.GrantStep(v, i, id).owned)
  {
    var t := H.GrantStep(v, i, id);
    forall n | 0 <= n < |t.owned| ensures Sourced(f, id, t.owned[n]) {
      if n < |v.owned| { assert Sourced(f, id, v.owned[n]); }
    }
  }

  // ---------- A step ----------

  lemma MovesRun(f: Fleet, a: Act)
    requires FleetInv(f) && ItemOf(a).Some?
    requires !Replaces(DriverOf(f, ItemOf(a).value.consumer), ItemOf(a).value.item)
    ensures var p := ItemOf(a).value;
            Leads(f.w, MoveOf(f, a), p.consumer, S.Step(DriverOf(f, p.consumer), p.item))
  {
    var p := ItemOf(a).value;
    assert DriverFacts(f, p.consumer);
    ItemLeads(f.w, p.consumer, DriverOf(f, p.consumer), p.item);
  }

  lemma StepIsLater(f: Fleet, a: Act)
    requires FleetInv(f) && Can(f, a)
    ensures Inv(Do(f, a).w) && Later(f, Do(f, a))
  {
    var move := MoveOf(f, a);
    if move.Some? {
      StepKeeps(f.w, move.value);
      StepGrows(f.w, move.value);
    }
  }

  lemma ItemOfStepIsOk(f: Fleet, a: Act)
    requires FleetInv(f) && Can(f, a) && ItemOf(a).Some?
    ensures ItemOk(f, ItemOf(a).value.item)
  {
    if a.Deliver? {
      assert ParcelOk(f, a.parcel);
      SendableIsOk(f, a.parcel.item);
    }
  }

  lemma ItemLasts(f: Fleet, g: Fleet, i: S.Item)
    requires Later(f, g) && ItemOk(f, i)
    ensures ItemOk(g, i)
  {
    match i {
      case IAssign(r, _, _) => if GrantStateFromI32(r.state).Active? { FreedLasts(f, g, r.id); }
      case IPromote(r) => FreedLasts(f, g, r.id);
      case INotify(update, target) =>
        if update.Some? && target.Some? {
          if update.value.state == 5 { FreedLasts(f, g, target.value.id); }
          if update.value.state == 4 { TakenOverLasts(f, g, target.value.id); }
        }
      case _ =>
    }
  }

  lemma StepKeepsGrant(f: Fleet, a: Act, c: nat, id: GrantId)
    requires FleetInv(f) && Can(f, a)
    ensures GrantFacts(Do(f, a), c, id)
  {
    var g := Do(f, a);
    var v := H.SliceOf(DriverOf(f, c), id);
    assert GrantFacts(f, c, id);
    StepIsLater(f, a);
    SourcedLasts(f, g, id, v.owned);
    if ItemOf(a).Some? && ItemOf(a).value.consumer == c {
      var i := ItemOf(a).value.item;
      ItemOfStepIsOk(f, a);
      ItemLasts(f, g, i);
      H.StepProjects(DriverOf(f, c), i, id);
      if H.Concerns(i, id) {
        H.GrantStepKeeps(v, i, id);
        ItemKeepsSourced(g, v, i, id);
      }
      assert H.SliceOf(DriverOf(g, c), id).owned == S.Issued(DriverOf(g, c), id);
    } else {
      assert DriverOf(g, c) == DriverOf(f, c);
    }
  }

  lemma ClosedDriverIsEmpty(f: Fleet, a: Act)
    requires FleetInv(f) && Can(f, a) && ItemOf(a).Some?
    ensures var s := S.Step(DriverOf(f, ItemOf(a).value.consumer), ItemOf(a).value.item);
            s.closed ==> s.table == map[]
  {
    var c, i := ItemOf(a).value.consumer, ItemOf(a).value.item;
    assert DriverFacts(f, c);
    H.StepCloses(DriverOf(f, c), i);
    if a.Deliver? { assert ParcelOk(f, a.parcel); }
  }

  lemma StepKeepsDriver(f: Fleet, a: Act, c: nat)
    requires FleetInv(f) && Can(f, a)
    ensures DriverFacts(Do(f, a), c)
  {
    var g := Do(f, a);
    assert DriverFacts(f, c);
    if ItemOf(a).Some? {
      var p := ItemOf(a).value;
      MovesRun(f, a);
      ClosedDriverIsEmpty(f, a);
      if c != p.consumer {
        forall k: Key | k.consumer == c ensures KeyAgrees(k, DriverOf(g, c), g.w.incs) {
          assert KeyAgrees(k, DriverOf(f, c), f.w.incs);
        }
      }
    } else if a.Task? {
      TaskAgrees(f.w, a.action, c, DriverOf(f, c));
    } else {
      assert g.w == f.w;
    }
  }

  lemma ReceiptIsOk(f: Fleet, n: nat)
    requires FleetInv(f) && n < |f.w.out| && !f.w.out[n].signal.RequestSignal?
    ensures ReceiptOk(f, f.w.out[n].grant)
  {
    var m := f.w.out[n];
    assert SentOk(f.w, m);
    assert DriverFacts(f, m.key.consumer);
    assert KeyAgrees(m.key, DriverOf(f, m.key.consumer), f.w.incs);
  }

  lemma StepKeepsMail(f: Fleet, a: Act)
    requires FleetInv(f) && Can(f, a)
    ensures forall p :: ParcelOk(Do(f, a), p)
    ensures forall u :: u in Do(f, a).received ==> ReceiptOk(Do(f, a), u)
  {
    var g := Do(f, a);
    StepIsLater(f, a);
    forall p | p in g.sent ensures MaySend(g, p.item) {
      assert ParcelOk(f, p);
      PermissionLasts(f, g, p.item);
    }
    forall u | u in g.received ensures ReceiptOk(g, u) {
      if a.Receive? && u == f.w.out[a.n].grant { ReceiptIsOk(f, a.n); }
      ReceiptLasts(f, g, u);
    }
  }

  lemma FleetStepKeeps(f: Fleet, a: Act)
    requires FleetInv(f) && Can(f, a)
    ensures FleetInv(Do(f, a))
  {
    StepIsLater(f, a);
    StepKeepsMail(f, a);
    forall c: nat ensures DriverFacts(Do(f, a), c) { StepKeepsDriver(f, a, c); }
    forall c: nat, id ensures GrantFacts(Do(f, a), c, id) { StepKeepsGrant(f, a, c, id); }
  }

  lemma TryKeeps(f: Fleet, a: Act)
    requires FleetInv(f)
    ensures FleetInv(Try(f, a)) && Try(f, a).source == f.source
  {
    if Can(f, a) { FleetStepKeeps(f, a); }
  }

  lemma {:induction false} FleetKeeps(f: Fleet, acts: seq<Act>)
    requires FleetInv(f)
    ensures FleetInv(End(f, acts)) && End(f, acts).source == f.source
  {
    if acts != [] {
      FleetKeeps(f, acts[..|acts| - 1]);
      TryKeeps(End(f, acts[..|acts| - 1]), acts[|acts| - 1]);
    }
  }

  lemma StartIsOk(f: Fleet)
    requires Start(f)
    ensures FleetInv(f)
  {
    forall c: nat ensures DriverFacts(f, c) {
      forall k: Key | k.consumer == c ensures KeyAgrees(k, DriverOf(f, c), f.w.incs) {}
    }
  }

  lemma FleetReachable(f: Fleet, acts: seq<Act>)
    requires Start(f)
    ensures FleetInv(End(f, acts)) && End(f, acts).source == f.source
  {
    StartIsOk(f);
    FleetKeeps(f, acts);
  }
}
