/** What holds in every interleaving of the tasks around the grants. */
module LifecycleSafety {
  import opened Ids
  import opened Lifecycle

  // ---------- One incarnation ----------

  /** How many GrantMap writes a run has behind it at each point of its way. */
  predicate WritesAt(pc: Pc, n: nat) {
    match pc
    case Unspawned => n == 0
    case Arrived => n == 0
    case Offered => n == 0
    case WaitUnload => n == 0
    case PutAllocated => n == 0
    case WaitInit => n == 1
    case Load => n == 1
    case PutLoaded => n == 1
    case WaitActive => n == 2
    case PutActive => n == 2
    case WaitRevoke => n == 3
    case PutRevoked => n == 3
    case Drain => n == 4
    case WaitDrain => n == 4
    case CheckRange => n == 4
    case Unload => n == 4
    case PutUnloaded => n == 4
    case WaitLoad => n == 5
    case _ => n <= 5
  }

  predicate PastUnload(i: Incarnation) { i.pc.PutAllocated? || |i.writes| >= 1 }

  predicate Loaded(i: Incarnation) { i.pc.PutLoaded? || |i.writes| >= 2 }

  predicate Activated(i: Incarnation) { i.pc.PutActive? || |i.writes| >= 3 }

  predicate WasRevoked(i: Incarnation) { i.pc.PutRevoked? || |i.writes| >= 4 }

  predicate Unloaded(i: Incarnation) { i.pc.PutUnloaded? || |i.writes| >= 5 }

  predicate BeforeFilter(pc: Pc) { pc.Unspawned? || pc.Arrived? || pc.Offered? }

  predicate Prefix(writes: seq<GrantState>) {
    |writes| <= 5 && forall n :: 0 <= n < |writes| ==> writes[n] == LIFECYCLE[n]
  }

  /** Taking over: what the run knows up to its `load`. */
  predicate TakenInOrder(i: Incarnation) {
    && (PastUnload(i) ==> i.o.active || i.o.unloaded)
    && (i.pc.Load? || Loaded(i) ==> i.r.initialized)
    && (i.o.load <==> Loaded(i))
  }

  /** Giving up: what it knows up to its `unload`. */
  predicate GivenInOrder(i: Incarnation) {
    && (Activated(i) ==> i.o.active)
    && (WasRevoked(i) ==> i.o.revoked)
    && (i.pc.CheckRange? || i.pc.Unload? || Unloaded(i) ==> i.r.drained)
    && (i.o.unload <==> Unloaded(i))
  }

  predicate InOrder(i: Incarnation) {
    WritesAt(i.pc, |i.writes|) && TakenInOrder(i) && GivenInOrder(i)
  }

  /** Why a run is over. */
  predicate Excused(i: Incarnation) {
    && (|i.writes| == 5 && !i.pc.WaitLoad? ==> i.o.loaded || i.o.expired)
    && (i.pc.Delete? || i.pc.CloseRange? ==> i.o.revoked || i.o.expired || i.r.closed || i.o.loaded)
  }

  ghost predicate DeclinedBelow(i: Incarnation) {
    forall f: nat :: f in i.declined <==> f < i.filter
  }

  /** A revoke request not made by the user was made after the last filter. */
  ghost predicate RequestOk(i: Incarnation, filters: nat) {
    && DeclinedBelow(i)
    && (i.pc.Unspawned? || i.pc.Arrived? ==> i.filter == 0)
    && i.filter <= filters
    && (i.o.requested ==> i.userRequested || (i.pc.Finished? && i.filter == filters))
    && (!BeforeFilter(i.pc) && !i.pc.Finished? ==> i.filter < filters)
  }

  ghost predicate IncOk(i: Incarnation, filters: nat) {
    Prefix(i.writes) && InOrder(i) && Excused(i) && RequestOk(i, filters)
  }

  lemma RunKeepsPrefix(i: Incarnation, b: Branch, filters: nat)
    requires IncOk(i, filters) && Ready(i, b, filters)
    ensures Prefix(RunNext(i, b).writes)
  {}

  lemma RunKeepsCount(i: Incarnation, b: Branch, filters: nat)
    requires WritesAt(i.pc, |i.writes|) && Ready(i, b, filters)
    ensures WritesAt(RunNext(i, b).pc, |RunNext(i, b).writes|)
  {}

  lemma RunKeepsTaken(i: Incarnation, b: Branch, filters: nat)
    requires InOrder(i) && Ready(i, b, filters)
    ensures TakenInOrder(RunNext(i, b))
  {}

  lemma RunKeepsActivated(i: Incarnation, b: Branch, filters: nat)
    requires WritesAt(i.pc, |i.writes|) && GivenInOrder(i) && Ready(i, b, filters)
    ensures var j := RunNext(i, b);
            (Activated(j) ==> j.o.active) && (WasRevoked(j) ==> j.o.revoked)
  {}

  lemma RunKeepsDrained(i: Incarnation, b: Branch, filters: nat)
    requires WritesAt(i.pc, |i.writes|) && GivenInOrder(i) && Ready(i, b, filters)
    ensures var j := RunNext(i, b);
            && (j.pc.CheckRange? || j.pc.Unload? || Unloaded(j) ==> j.r.drained)
            && (j.o.unload <==> Unloaded(j))
  {}

  lemma RunKeepsExcused(i: Incarnation, b: Branch, filters: nat)
    requires InOrder(i) && Excused(i) && Ready(i, b, filters)
    ensures Excused(RunNext(i, b))
  {}

  lemma RunKeepsRequest(i: Incarnation, b: Branch, filters: nat)
    requires IncOk(i, filters) && Ready(i, b, filters)
    ensures RequestOk(RunNext(i, b), filters)
  {}

  lemma RunKeepsInc(i: Incarnation, b: Branch, filters: nat)
    requires IncOk(i, filters) && Ready(i, b, filters)
    ensures IncOk(RunNext(i, b), filters)
  {
    RunKeepsPrefix(i, b, filters);
    RunKeepsCount(i, b, filters);
    RunKeepsTaken(i, b, filters);
    RunKeepsActivated(i, b, filters);
    RunKeepsDrained(i, b, filters);
    RunKeepsExcused(i, b, filters);
    RunKeepsRequest(i, b, filters);
  }

  /** Closing more latches from outside invalidates nothing. */
  lemma CloseKeepsInc(i: Incarnation, l: DriverLatch, filters: nat)
    requires IncOk(i, filters)
    ensures IncOk(Closed(i, l), filters)
  {}

  lemma UserKeepsInc(i: Incarnation, u: UserLatch, filters: nat)
    requires IncOk(i, filters)
    ensures IncOk(UserClosed(i, u), filters)
  {}

  lemma WatchKeepsInc(i: Incarnation, s: Signal, step: WatchStep, filters: nat)
    requires IncOk(i, filters)
    ensures IncOk(Watched(i, s, step), filters)
  {}

  // ---------- What a step may change ----------

  /** The only incarnation a step changes. */
  function Touched(w: World, a: Action): Incarnation
    requires Enabled(w, a)
  {
    match a
    case Assign(_, g, o) => Fresh(g, o)
    case Close(key, l) => Closed(w.incs[key], l)
    case UserCloses(key, u) => UserClosed(w.incs[key], u)
    case Spawn(key) => w.incs[key].(pc := Arrived)
    case Run(key, b) => RunNext(w.incs[key], b)
    case Watch(key, s, step) => Watched(w.incs[key], s, step)
  }

  /** Latches stay closed, and the grant and the history of an incarnation stay. */
  predicate Extends(i: Incarnation, j: Incarnation) {
    && j.grant == i.grant
    && i.writes <= j.writes
    && (i.o.active ==> j.o.active) && (i.o.revoked ==> j.o.revoked) && (i.o.expired ==> j.o.expired)
    && (i.o.unloaded ==> j.o.unloaded) && (i.o.loaded ==> j.o.loaded)
    && (i.o.load ==> j.o.load) && (i.o.unload ==> j.o.unload) && (i.o.requested ==> j.o.requested)
    && (i.r.initialized ==> j.r.initialized) && (i.r.drained ==> j.r.drained)
  }

  /** How a step may change one run and the GrantMaps together. */
  predicate MapStep(key: Key, i: Incarnation, j: Incarnation, maps: map<Slot, Entry>, maps': map<Slot, Entry>) {
    || (maps' == maps && j.writes == i.writes && (Live(i.pc) ==> Live(j.pc) && j.filter == i.filter))
    || (&& Live(i.pc) && Live(j.pc) && j.filter == i.filter
        && |j.writes| == |i.writes| + 1
        && maps' == maps[SlotOf(key, j) := Entry(j.writes[|i.writes|], key)])
    || (i.pc.Delete? && j.writes == i.writes && !Live(j.pc) && j.filter == i.filter
        && maps' == maps - {SlotOf(key, i)})
  }

  lemma RunIsMapStep(key: Key, i: Incarnation, b: Branch, filters: nat, maps: map<Slot, Entry>)
    requires Ready(i, b, filters)
    ensures MapStep(key, i, RunNext(i, b), maps, MapsAfter(maps, key, i))
  {}

  lemma RunExtends(i: Incarnation, b: Branch, filters: nat)
    requires Ready(i, b, filters)
    ensures Extends(i, RunNext(i, b))
    ensures RunNext(i, b).watchers == i.watchers
  {}

  lemma CloseExtends(i: Incarnation, l: DriverLatch)
    ensures Extends(i, Closed(i, l)) && Closed(i, l).watchers == i.watchers
  {}

  lemma UserExtends(i: Incarnation, u: UserLatch)
    ensures Extends(i, UserClosed(i, u)) && UserClosed(i, u).watchers == i.watchers
  {}

  lemma WatchExtends(i: Incarnation, s: Signal, step: WatchStep)
    ensures Extends(i, Watched(i, s, step))
  {}

  lemma TouchedExtends(w: World, a: Action)
    requires Enabled(w, a) && a.key in w.incs
    ensures Extends(w.incs[a.key], Touched(w, a))
    ensures !a.Watch? ==> Touched(w, a).watchers == w.incs[a.key].watchers
  {
    match a {
      case Close(key, l) => CloseExtends(w.incs[key], l);
      case UserCloses(key, u) => UserExtends(w.incs[key], u);
      case Spawn(_) =>
      case Run(key, b) => RunExtends(w.incs[key], b, w.filters);
      case Watch(key, s, step) => WatchExtends(w.incs[key], s, step);
    }
  }

  lemma StepShape(w: World, a: Action)
    requires Enabled(w, a)
    ensures Next(w, a).incs == w.incs[a.key := Touched(w, a)]
    ensures Next(w, a).filters == w.filters
    ensures a.key in w.incs ==> MapStep(a.key, w.incs[a.key], Touched(w, a), w.maps, Next(w, a).maps)
    ensures a.key !in w.incs ==> Next(w, a).maps == w.maps
  {
    if a.Run? { RunIsMapStep(a.key, w.incs[a.key], a.branch, w.filters, w.maps); }
  }

  lemma StepKeepsInc(w: World, a: Action)
    requires Enabled(w, a)
    requires a.key in w.incs ==> IncOk(w.incs[a.key], w.filters)
    ensures IncOk(Touched(w, a), w.filters)
  {
    match a {
      case Assign(_, _, _) =>
      case Close(key, l) => CloseKeepsInc(w.incs[key], l, w.filters);
      case UserCloses(key, u) => UserKeepsInc(w.incs[key], u, w.filters);
      case Spawn(_) =>
      case Run(key, b) => RunKeepsInc(w.incs[key], b, w.filters);
      case Watch(key, s, step) => WatchKeepsInc(w.incs[key], s, step, w.filters);
    }
  }

  // ---------- The GrantMaps ----------

  /** A GrantMap entry belongs to a run that still holds its grant, and shows
      the last state that run wrote. */
  predicate EntryOk(w: World, s: Slot) {
    s in w.maps ==>
      var e := w.maps[s];
      && e.owner in w.incs
      && var i := w.incs[e.owner];
         SlotOf(e.owner, i) == s && Live(i.pc) && i.writes != [] && e.state == i.writes[|i.writes| - 1]
  }

  ghost predicate MapsOk(w: World) {
    forall s :: EntryOk(w, s)
  }

  // ---------- The outbound log ----------

  /** A watcher sends only after its latch closed. */
  predicate SendingOk(i: Incarnation) {
    && (i.watchers.load.Sending? ==> i.o.load)
    && (i.watchers.unload.Sending? ==> i.o.unload)
    && (i.watchers.request.Sending? ==> i.o.requested)
  }

  predicate SentOk(w: World, m: Out) {
    && m.key in w.incs
    && var i := w.incs[m.key];
       SignalLatch(i, m.signal) && WatcherOf(i, m.signal).Done? && m.grant == SentGrant(i.grant, m.signal)
  }

  ghost predicate OutOk(w: World) {
    && (forall n :: 0 <= n < |w.out| ==> SentOk(w, w.out[n]))
    && (forall m, n :: 0 <= m < n < |w.out| ==>
          w.out[m].key != w.out[n].key || w.out[m].signal != w.out[n].signal)
    && (forall k :: k in w.incs ==> SendingOk(w.incs[k]))
  }

  ghost predicate IncsOk(w: World) {
    forall k :: k in w.incs ==> IncOk(w.incs[k], w.filters)
  }

  ghost predicate Inv(w: World) {
    IncsOk(w) && MapsOk(w) && OutOk(w)
  }

  lemma StepKeepsIncs(w: World, a: Action)
    requires IncsOk(w) && Enabled(w, a)
    ensures IncsOk(Next(w, a))
  {
    StepKeepsInc(w, a);
    StepShape(w, a);
  }

  lemma MapStepKeeps(w: World, t: World, key: Key, j: Incarnation)
    requires MapsOk(w)
    requires t.incs == w.incs[key := j]
    requires if key in w.incs then MapStep(key, w.incs[key], j, w.maps, t.maps) else t.maps == w.maps
    ensures MapsOk(t)
  {
    forall s ensures EntryOk(t, s) {
      assert EntryOk(w, s);
    }
  }

  lemma StepKeepsMaps(w: World, a: Action)
    requires MapsOk(w) && Enabled(w, a)
    ensures MapsOk(Next(w, a))
  {
    StepShape(w, a);
    MapStepKeeps(w, Next(w, a), a.key, Touched(w, a));
  }

  lemma WatchKeepsOut(w: World, t: World, key: Key, s: Signal, step: WatchStep)
    requires OutOk(w) && Enabled(w, Watch(key, s, step))
    requires t.incs == w.incs[key := Watched(w.incs[key], s, step)]
    requires t.out == if step.Send? then w.out + [Out(key, s, SentGrant(w.incs[key].grant, s))] else w.out
    ensures OutOk(t)
  {
    assert SendingOk(w.incs[key]);
    forall n | 0 <= n < |t.out| ensures SentOk(t, t.out[n]) {
      if n < |w.out| { assert SentOk(w, w.out[n]); }
    }
    forall m, n | 0 <= m < n < |t.out|
      ensures t.out[m].key != t.out[n].key || t.out[m].signal != t.out[n].signal
    {
      assert SentOk(w, w.out[m]);
    }
  }

  lemma OtherKeepsOut(w: World, t: World, key: Key, j: Incarnation)
    requires OutOk(w)
    requires t.incs == w.incs[key := j] && t.out == w.out
    requires if key in w.incs then Extends(w.incs[key], j) && j.watchers == w.incs[key].watchers
             else j.watchers == Watchers(Watching, Watching, Watching)
    ensures OutOk(t)
  {
    forall n | 0 <= n < |t.out| ensures SentOk(t, t.out[n]) {
      assert SentOk(w, w.out[n]);
    }
  }

  lemma StepKeepsOut(w: World, a: Action)
    requires OutOk(w) && Enabled(w, a)
    ensures OutOk(Next(w, a))
  {
    if a.Watch? {
      WatchKeepsOut(w, Next(w, a), a.key, a.signal, a.step);
    } else {
      StepShape(w, a);
      if a.key in w.incs {
        TouchedExtends(w, a);
      }
      OtherKeepsOut(w, Next(w, a), a.key, Touched(w, a));
    }
  }

  lemma StepKeeps(w: World, a: Action)
    requires Inv(w) && Enabled(w, a)
    ensures Inv(Next(w, a))
  {
    StepKeepsIncs(w, a);
    StepKeepsMaps(w, a);
    StepKeepsOut(w, a);
  }

  lemma {:induction false} RunKeeps(w: World, run: seq<Action>)
    requires Inv(w) && Runs(w, run)
    ensures Inv(After(w, run)) && After(w, run).filters == w.filters
    decreases |run|
  {
    if run != [] {
      StepKeeps(w, run[0]);
      RunKeeps(Next(w, run[0]), run[1..]);
    }
  }

  lemma Reachable(w: World, run: seq<Action>)
    requires Initial(w) && Runs(w, run)
    ensures Inv(After(w, run)) && After(w, run).filters == w.filters
  {
    RunKeeps(w, run);
  }

  // ---------- The main results ----------

  /** In every interleaving the GrantMap writes of a run are a prefix of the
      lifecycle; `load` means the Range initialised after the counterpart was
      gone, and `unload` means the drain completed after load, activation and
      revocation. */
  lemma LifecycleOrder(w: World, run: seq<Action>, k: Key)
    requires Initial(w) && Runs(w, run) && k in After(w, run).incs
    ensures var i := After(w, run).incs[k];
            && i.writes <= [GrantState.Allocated, AllocatedLoaded, Active, Revoked, RevokedUnloaded]
            && (i.writes != [] ==> i.o.active || i.o.unloaded)
            && (i.o.load ==> i.r.initialized && (i.o.unloaded || i.o.active))
            && (i.o.unload ==> i.r.drained && i.o.load && i.o.active && i.o.revoked)
            && (AllocatedLoaded in i.writes ==> i.o.load)
            && (Active in i.writes ==> i.o.active) && (Revoked in i.writes ==> i.o.revoked)
            && (RevokedUnloaded in i.writes ==> i.o.unload)
  {
    Reachable(w, run);
    var i := After(w, run).incs[k];
    assert IncOk(i, w.filters);
    assert LIFECYCLE[..|i.writes|] <= LIFECYCLE;
  }

  /** Every GrantMap entry belongs to a run that has not yet cleaned up, even
      when a duplicate Assign gives two overlapping runs of one id; with no live
      run the maps are empty. */
  lemma MapHoldsOnlyLiveRuns(w: World, run: seq<Action>)
    requires Initial(w) && Runs(w, run)
    ensures var t := After(w, run);
            && (forall s :: s in t.maps ==>
                  && t.maps[s].owner in t.incs && Live(t.incs[t.maps[s].owner].pc)
                  && SlotOf(t.maps[s].owner, t.incs[t.maps[s].owner]) == s)
            && ((forall k :: k in t.incs ==> !Live(t.incs[k].pc)) ==> t.maps == map[])
  {
    Reachable(w, run);
    var t := After(w, run);
    forall s | s in t.maps
      ensures && t.maps[s].owner in t.incs && Live(t.incs[t.maps[s].owner].pc)
              && SlotOf(t.maps[s].owner, t.incs[t.maps[s].owner]) == s
    {
      assert EntryOk(t, s);
    }
    if t.maps.Keys != {} {
      var s :| s in t.maps.Keys;
      assert EntryOk(t, s);
    }
  }

  /** Per incarnation the outbound log holds each signal at most once, with the
      assigned grant, and only if its latch closed. A revoke request that the user
      did not make appears only when every filter of the chain declined. */
  lemma SignalsSentAtMostOnce(w: World, run: seq<Action>, m: nat, n: nat)
    requires Initial(w) && Runs(w, run)
    requires m < |After(w, run).out| && n < |After(w, run).out|
    ensures var t := After(w, run);
            && (t.out[m].key == t.out[n].key && t.out[m].signal == t.out[n].signal ==> m == n)
            && t.out[m].key in t.incs
            && var i := t.incs[t.out[m].key];
               match t.out[m].signal
               case LoadSignal => i.o.load && t.out[m].grant == i.grant.(state := 4)
               case UnloadSignal => i.o.unload && t.out[m].grant == i.grant.(state := 5)
               case RequestSignal =>
                 && i.o.requested && t.out[m].grant == i.grant
                 && (i.userRequested || forall f: nat :: f < w.filters ==> f in i.declined)
  {
    Reachable(w, run);
    var t := After(w, run);
    assert SentOk(t, t.out[m]);
    assert IncOk(t.incs[t.out[m].key], w.filters);
  }
}
