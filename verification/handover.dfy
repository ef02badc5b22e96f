/** The handover between two owners of a shard, in every history of a fleet. */
module Handover {
  import opened Ids
  import opened Lifecycle
  import opened LifecycleSafety
  import opened LifecycleExit
  import opened Rivals
  import opened Fleet
  import opened Mirror
  import opened FleetSafety
  import S = Consumer

  // ---------- A fleet is a run of its tasks ----------

  /** The step of the tasks that an act comes down to, if it is possible. */
  function MovesOf(f: Fleet, a: Act): seq<Action> {
    if Can(f, a) && MoveOf(f, a).Some? then [MoveOf(f, a).value] else []
  }

  /** All steps of the tasks in a history, in order. */
  function AllMoves(f: Fleet, acts: seq<Act>): seq<Action> {
    if acts == [] then []
    else AllMoves(f, acts[..|acts| - 1]) + MovesOf(End(f, acts[..|acts| - 1]), acts[|acts| - 1])
  }

  /** The step delivers another Assign of the grant of `k` to its consumer. */
  predicate AssignsAgain(a: Act, k: Key) {
    && a.Deliver? && a.parcel.consumer == k.consumer && a.parcel.item.IAssign?
    && a.parcel.item.grant.id == k.id && S.AssignedShard(a.parcel.item.grant).Some?
  }

  lemma MoveReassignsNot(f: Fleet, a: Act, k: Key)
    requires !AssignsAgain(a, k)
    ensures forall m :: m in MovesOf(f, a) ==> !Reassigns(m, k)
  {}

  lemma {:induction false} MovesReassignNot(f: Fleet, acts: seq<Act>, k: Key)
    requires forall a :: a in acts ==> !AssignsAgain(a, k)
    ensures forall m :: m in AllMoves(f, acts) ==> !Reassigns(m, k)
  {
    if acts != [] {
      MovesReassignNot(f, acts[..|acts| - 1], k);
      MoveReassignsNot(End(f, acts[..|acts| - 1]), acts[|acts| - 1], k);
    }
  }

  lemma TryIsMoves(f: Fleet, a: Act)
    ensures Runs(f.w, MovesOf(f, a)) && After(f.w, MovesOf(f, a)) == Try(f, a).w
  {
    if MovesOf(f, a) != [] { RunsOne(f.w, MoveOf(f, a).value); }
  }

  /** What holds in every interleaving of the tasks therefore holds in a fleet. */
  lemma {:induction false} FleetRefinesTasks(f: Fleet, acts: seq<Act>)
    ensures Runs(f.w, AllMoves(f, acts)) && After(f.w, AllMoves(f, acts)) == End(f, acts).w
  {
    if acts != [] {
      var before := acts[..|acts| - 1];
      var g := End(f, before);
      FleetRefinesTasks(f, before);
      TryIsMoves(g, acts[|acts| - 1]);
      RunsThen(f.w, AllMoves(f, before), MovesOf(g, acts[|acts| - 1]));
    }
  }

  /** The tasks never keep a driver from doing what its messages, timers or exit
      ask: in every reachable state its latches can be closed as it wants. Where an
      Assign would replace an entry, that entry can be removed, and then it is done. */
  lemma DriverIsNeverBlocked(f: Fleet, acts: seq<Act>, c: nat, i: S.Item)
    requires Start(f)
    ensures var g := End(f, acts);
            var s := DriverOf(g, c);
            && (!Replaces(s, i) ==> Leads(g.w, ActionOf(c, s, i), c, S.Step(s, i)))
            && (Replaces(s, i) && !s.closed ==>
                  && Can(g, Remove(c, i.grant.id))
                  && !Replaces(DriverOf(Do(g, Remove(c, i.grant.id)), c), i)
                  && S.Step(DriverOf(Do(g, Remove(c, i.grant.id)), c), i) == S.Step(s, i))
  {
    FleetReachable(f, acts);
    var g := End(f, acts);
    assert DriverFacts(g, c);
    if Replaces(DriverOf(g, c), i) {
      MovesRun(g, Remove(c, i.grant.id));
    } else {
      ItemLeads(g.w, c, DriverOf(g, c), i);
    }
  }

  /** The latch a message closes, if it is about the grant. */
  predicate Carries(i: S.Item, id: GrantId, l: DriverLatch) {
    match i
    case IPromote(grant) => grant.id == id && l.LActive?
    case IRevoke(grant) => grant.id == id && l.LRevoked?
    case INotify(update, target) =>
      update.Some? && target.Some? && target.value.id == id &&
      ((update.value.state == 4 && l.LLoaded?) || (update.value.state == 5 && l.LUnloaded?))
    case _ => false
  }

  /** The branch that waits for that latch. */
  function BranchOf(l: DriverLatch): Branch {
    match l
    case LActive => OnActive
    case LRevoked => OnRevoked
    case LExpired => OnExpired
    case LUnloaded => OnUnloaded
    case LLoaded => OnLoaded
  }

  /** Where the run waits for a latch that a message can close. */
  predicate WaitsFor(pc: Pc, l: DriverLatch) {
    match l
    case LActive => pc.WaitUnload? || pc.WaitActive?
    case LRevoked => pc.WaitUnload? || pc.WaitActive? || pc.WaitRevoke?
    case LExpired => false
    case LUnloaded => pc.WaitUnload?
    case LLoaded => pc.WaitLoad?
  }

  lemma ItemCloses(s: S.State, i: S.Item, id: GrantId, l: DriverLatch)
    requires S.TableOk(s) && id in s.table && Carries(i, id, l)
    ensures var t := S.Step(s, i);
            && id in t.table && t.table[id].inc == s.table[id].inc
            && S.OwnOf(t, id) == CloseOwn(S.OwnOf(s, id), l).(deadline := S.OwnOf(t, id).deadline)
  {}

  lemma ClosedLatchLetsGo(i: Incarnation, own: S.Own, l: DriverLatch, filters: nat)
    requires Mirrors(i.o, own) && own == CloseOwn(own, l) && WaitsFor(i.pc, l)
    ensures Ready(i, BranchOf(l), filters)
  {}

  /** Each message of the protocol, once delivered, lets the run that waits for it
      go on. */
  lemma DeliveryUnblocks(f: Fleet, acts: seq<Act>, p: Parcel, id: GrantId, l: DriverLatch)
    requires Start(f) && Carries(p.item, id, l)
    requires Can(End(f, acts), Deliver(p)) && id in DriverOf(End(f, acts), p.consumer).table
    ensures var g := End(f, acts);
            var k := Key(p.consumer, id, DriverOf(g, p.consumer).table[id].inc);
            var w := Do(g, Deliver(p)).w;
            k in w.incs && (WaitsFor(w.incs[k].pc, l) ==> Enabled(w, Run(k, BranchOf(l))))
  {
    FleetReachable(f, acts);
    var g := End(f, acts);
    var s := DriverOf(g, p.consumer);
    var k := Key(p.consumer, id, s.table[id].inc);
    MovesRun(g, Deliver(p));
    ItemCloses(s, p.item, id, l);
    var w, t := Do(g, Deliver(p)).w, S.Step(s, p.item);
    assert KeyAgrees(k, t, w.incs);
    if WaitsFor(w.incs[k].pc, l) { ClosedLatchLetsGo(w.incs[k], S.OwnOf(t, id), l, w.filters); }
  }

  // ---------- Safety ----------

  /** The run has drained its Range, closed `unload` and will only clean up. */
  predicate LetGo(i: Incarnation) {
    && i.o.unload && i.r.drained && i.o.revoked
    && (i.pc.PutUnloaded? || i.pc.WaitLoad? || i.pc.Delete? || i.pc.CloseRange? || i.pc.Finished?)
  }

  lemma UnloadedHasLetGo(i: Incarnation, filters: nat)
    requires IncOk(i, filters) && i.o.unload
    ensures LetGo(i)
  {}

  lemma LoadedIsInitialized(i: Incarnation, filters: nat)
    requires IncOk(i, filters) && i.o.load
    ensures i.r.initialized
  {}

  /** Some run of `a` has let go, or the coordinator saw its lease lapse. */
  ghost predicate HandedOver(f: Fleet, a: GrantId) {
    a in f.lapsed || exists j :: j in f.w.incs && j.id == a && LetGo(f.w.incs[j])
  }

  lemma GoneIsHandedOver(f: Fleet, a: GrantId)
    requires FleetInv(f) && Gone(f, a)
    ensures HandedOver(f, a)
  {
    if a !in f.lapsed {
      var j :| j in f.w.incs && j.id == a && SignalLatch(f.w.incs[j], UnloadSignal);
      UnloadedHasLetGo(f.w.incs[j], f.w.filters);
    }
  }

  lemma RunsAreSourced(f: Fleet, k: Key)
    requires FleetInv(f) && k in f.w.incs
    ensures f.w.incs[k].o.active || f.w.incs[k].o.unloaded ==> Freed(f, k.id)
    ensures f.w.incs[k].o.loaded ==> TakenOver(f, k.id)
  {
    assert DriverFacts(f, k.consumer);
    var s := DriverOf(f, k.consumer);
    assert KeyAgrees(k, s, f.w.incs);
    assert GrantFacts(f, k.consumer, k.id);
    assert Sourced(f, k.id, S.Issued(s, k.id)[k.inc]);
  }

  /** A run of an allocated grant that has passed step 1, so everything a GrantMap
      ever shows for that grant, comes after its revoked counterpart's run has
      drained, closed `unload` and stopped serving, unless the coordinator saw
      that counterpart's lease lapse. */
  lemma HandoverIsSafe(f: Fleet, acts: seq<Act>, k: Key)
    requires Start(f) && k.id in f.source
    ensures var g := End(f, acts);
            && (k in g.w.incs && g.w.incs[k].writes != [] ==> HandedOver(g, f.source[k.id]))
            && (forall s :: s in g.w.maps && s.id == k.id ==> HandedOver(g, f.source[k.id]))
  {
    FleetReachable(f, acts);
    var g := End(f, acts);
    if k in g.w.incs && g.w.incs[k].writes != [] { PastStepOne(g, k); }
    forall s | s in g.w.maps && s.id == k.id ensures HandedOver(g, f.source[k.id]) {
      assert EntryOk(g.w, s);
      PastStepOne(g, g.w.maps[s].owner);
    }
  }

  lemma PastStepOne(g: Fleet, k: Key)
    requires FleetInv(g) && k in g.w.incs && g.w.incs[k].writes != [] && k.id in g.source
    ensures HandedOver(g, g.source[k.id])
  {
    assert IncOk(g.w.incs[k], g.w.filters);
    RunsAreSourced(g, k);
    GoneIsHandedOver(g, g.source[k.id]);
  }

  lemma LastWriteOfLetGo(i: Incarnation, filters: nat)
    requires IncOk(i, filters) && LetGo(i) && i.writes != []
    ensures i.writes[|i.writes| - 1].Revoked? || i.writes[|i.writes| - 1].RevokedUnloaded?
  {
    assert i.writes[|i.writes| - 1] == LIFECYCLE[|i.writes| - 1];
  }

  /** If the former grant was assigned once, the two owners never serve together:
      while any GrantMap shows the new grant, the former one is shown, if at all, as
      Revoked or RevokedUnloaded, unless its lease was seen to lapse. */
  lemma NeverBothServe(f: Fleet, acts: seq<Act>, now: Slot, former: Slot)
    requires Start(f)
    requires IsHeir(f, now.id, former.id)
    requires forall j, k | j in End(f, acts).w.incs && k in End(f, acts).w.incs && j.id == former.id == k.id :: j == k
    ensures var g := End(f, acts);
            now in g.w.maps && former in g.w.maps ==>
              former.id in g.lapsed || g.w.maps[former].state.Revoked? || g.w.maps[former].state.RevokedUnloaded?
  {
    FleetReachable(f, acts);
    var g := End(f, acts);
    if now in g.w.maps && former in g.w.maps && former.id !in g.lapsed {
      assert EntryOk(g.w, now) && EntryOk(g.w, former);
      PastStepOne(g, g.w.maps[now].owner);
      var j :| j in g.w.incs && j.id == former.id && LetGo(g.w.incs[j]);
      assert j == g.w.maps[former].owner;
      LastWriteOfLetGo(g.w.incs[j], g.w.filters);
    }
  }

  // ---------- No gap ----------

  /** A grant taking over from `a` has its Range initialised and `load` closed. */
  ghost predicate Inherited(f: Fleet, a: GrantId) {
    exists b :: IsHeir(f, b, a) && exists j :: j in f.w.incs && j.id == b && Serves(f.w.incs[j])
  }

  predicate Serves(i: Incarnation) { i.o.load && i.r.initialized }

  lemma TakenOverIsInherited(f: Fleet, a: GrantId)
    requires FleetInv(f) && TakenOver(f, a)
    ensures Inherited(f, a)
  {
    var b :| IsHeir(f, b, a) && Signalled(f.w, b, LoadSignal);
    var j :| j in f.w.incs && j.id == b && SignalLatch(f.w.incs[j], LoadSignal);
    LoadedIsInitialized(f.w.incs[j], f.w.filters);
    assert Serves(f.w.incs[j]);
  }

  /** A run that reached RevokedUnloaded stays in its GrantMap with that state until
      a successor has initialised its Range and loaded, or its own ownership has
      expired; provided that at some moment before its first write, or while it had
      its entry, no rival threatened it, and that its grant was not assigned to the
      consumer again since. */
  lemma HandoverLeavesNoGap(f: Fleet, before: seq<Act>, after: seq<Act>, k: Key)
    requires Start(f)
    requires Alone(End(f, before).w, k) && HasEntry(End(f, before).w, k)
    requires forall a :: a in after ==> !AssignsAgain(a, k)
    ensures k in End(End(f, before), after).w.incs
    ensures var g := End(End(f, before), after);
            var i := g.w.incs[k];
            RevokedUnloaded in i.writes ==>
              || (SlotOf(k, i) in g.w.maps && g.w.maps[SlotOf(k, i)] == Entry(RevokedUnloaded, k))
              || Inherited(g, k.id)
              || i.o.expired
  {
    FleetReachable(f, before);
    var s := End(f, before);
    FleetKeeps(s, after);
    FleetRefinesTasks(s, after);
    MovesReassignNot(s, after, k);
    EntriesKept(s.w, AllMoves(s, after), k);
    if RevokedUnloaded in End(s, after).w.incs[k].writes { NoGapNow(End(s, after), k); }
  }

  lemma NoGapNow(g: Fleet, k: Key)
    requires FleetInv(g) && k in g.w.incs && HasEntry(g.w, k) && RevokedUnloaded in g.w.incs[k].writes
    ensures var i := g.w.incs[k];
            || (SlotOf(k, i) in g.w.maps && g.w.maps[SlotOf(k, i)] == Entry(RevokedUnloaded, k))
            || Inherited(g, k.id)
            || i.o.expired
  {
    var i := g.w.incs[k];
    assert IncOk(i, g.w.filters);
    assert |i.writes| == 5;
    if !i.pc.WaitLoad? && i.o.loaded {
      RunsAreSourced(g, k);
      TakenOverIsInherited(g, k.id);
    }
  }

  // ---------- After a clean exit ----------

  /** After a clean exit of its driver every run of a consumer has expired. From
      there, in every continuation of the fleet: a run takes at most `Rank` more
      steps of its own; only the user's `drain` call can keep it from taking one;
      once it has ended, its Range is closed and no GrantMap shows it. */
  lemma CleanExitEndsEveryRun(f: Fleet, before: seq<Act>, after: seq<Act>, k: Key)
    requires Start(f)
    requires DriverOf(End(f, before), k.consumer).closed
    requires k in End(f, before).w.incs
    ensures var g := End(f, before);
            var t := End(g, after).w;
            && g.w.incs[k].o.expired && k in t.incs
            && OwnSteps(AllMoves(g, after), k) <= Rank(g.w.incs[k], g.w.filters)
            && (Over(t.incs[k]) || AwaitsDrainCall(t.incs[k]) || exists b :: Enabled(t, Run(k, b)))
            && (t.incs[k].pc.Finished? && Held(g.w.incs[k]) ==>
                  t.incs[k].r.closed && forall s :: s in t.maps ==> t.maps[s].owner != k)
  {
    FleetReachable(f, before);
    var g := End(f, before);
    ClosedMeansExpired(g, k);
    FleetKeeps(g, after);
    FleetRefinesTasks(g, after);
    OwnStepsBounded(g.w, AllMoves(g, after), k);
    var t := End(g, after).w;
    if !Over(t.incs[k]) && !AwaitsDrainCall(t.incs[k]) {
      ExpiredIsNeverBlocked(t.incs[k], t.filters);
      var b :| Ready(t.incs[k], b, t.filters);
      assert Enabled(t, Run(k, b));
    }
    forall s | s in t.maps && t.incs[k].pc.Finished? ensures t.maps[s].owner != k { assert EntryOk(t, s); }
  }

  lemma ClosedMeansExpired(g: Fleet, k: Key)
    requires FleetInv(g) && DriverOf(g, k.consumer).closed && k in g.w.incs
    ensures g.w.incs[k].o.expired
  {
    assert DriverFacts(g, k.consumer);
    assert KeyAgrees(k, DriverOf(g, k.consumer), g.w.incs);
    assert GrantFacts(g, k.consumer, k.id);
  }
}
