/** What makes a run give its grant up: a Range that closed itself keeps it from
    unloading, and an open one lets it go on; a wait that bails ends it for good. */
module RangeClosed {
  import opened Ids
  import opened Lifecycle
  import opened LifecycleSafety
  import opened LifecycleExit

  /** The Range is closed, and the run has not yet passed the check that comes before `unload`. */
  predicate ClosedInTime(i: Incarnation) { i.r.closed && !i.o.unload && !i.pc.Unload? }

  lemma StepKeepsClosed(w: World, a: Action, k: Key)
    requires Enabled(w, a) && k in w.incs && ClosedInTime(w.incs[k])
    ensures k in Next(w, a).incs && ClosedInTime(Next(w, a).incs[k])
  {
    StepShape(w, a);
  }

  lemma {:induction false} RunKeepsClosed(w: World, run: seq<Action>, k: Key)
    requires Runs(w, run) && k in w.incs && ClosedInTime(w.incs[k])
    ensures k in After(w, run).incs && ClosedInTime(After(w, run).incs[k])
    decreases |run|
  {
    if run != [] {
      StepKeepsClosed(w, run[0], k);
      RunKeepsClosed(Next(w, run[0]), run[1..], k);
    }
  }

  /** What an unload shows of itself. */
  predicate ShowsUnload(w: World, k: Key)
    requires k in w.incs
  {
    || w.incs[k].o.unload
    || RevokedUnloaded in w.incs[k].writes
    || exists n :: 0 <= n < |w.out| && w.out[n].key == k && w.out[n].signal == UnloadSignal
  }

  lemma UnloadIsShownOnlyWhenClosed(w: World, k: Key)
    requires Inv(w) && k in w.incs && ShowsUnload(w, k)
    ensures w.incs[k].o.unload
  {
    assert IncOk(w.incs[k], w.filters);
    forall n | 0 <= n < |w.out| && w.out[n].key == k && w.out[n].signal == UnloadSignal ensures w.incs[k].o.unload {
      assert SentOk(w, w.out[n]);
    }
  }

  /** In every interleaving: once the Range is closed before the check, no continuation
      closes the run's `unload`, writes RevokedUnloaded, or sends its Update. */
  lemma ClosedRangeBarsUnload(w: World, before: seq<Action>, after: seq<Action>, k: Key)
    requires Initial(w) && Runs(w, before) && Runs(After(w, before), after)
    requires k in After(w, before).incs && ClosedInTime(After(w, before).incs[k])
    ensures var t := After(After(w, before), after);
            && k in t.incs && !t.incs[k].o.unload && RevokedUnloaded !in t.incs[k].writes
            && forall n :: 0 <= n < |t.out| && t.out[n].key == k ==> t.out[n].signal != UnloadSignal
  {
    var s := After(w, before);
    Reachable(w, before);
    RunKeeps(s, after);
    RunKeepsClosed(s, after, k);
    var t := After(s, after);
    if ShowsUnload(t, k) { UnloadIsShownOnlyWhenClosed(t, k); }
    assert !ShowsUnload(t, k);
  }

  /** With the check passed, nothing but the run's own next step is to come. */
  lemma {:induction false} NextOwnStepUnloads(w: World, run: seq<Action>, k: Key)
    requires Runs(w, run) && k in w.incs && (w.incs[k].pc.Unload? || w.incs[k].o.unload)
    ensures var t := After(w, run);
            && k in t.incs
            && (OwnSteps(run, k) > 0 ==> t.incs[k].o.unload)
            && (t.incs[k].o.unload || Enabled(t, Run(k, Go)))
    decreases |run|
  {
    if run != [] {
      StepShape(w, run[0]);
      if run[0].key == k { TouchedExtends(w, run[0]); }
      NextOwnStepUnloads(Next(w, run[0]), run[1..], k);
      if Next(w, run[0]).incs[k].o.unload { UnloadStays(Next(w, run[0]), run[1..], k); }
    }
  }

  lemma {:induction false} UnloadStays(w: World, run: seq<Action>, k: Key)
    requires Runs(w, run) && k in w.incs && w.incs[k].o.unload
    ensures k in After(w, run).incs && After(w, run).incs[k].o.unload
    decreases |run|
  {
    if run != [] {
      StepShape(w, run[0]);
      if run[0].key == k { TouchedExtends(w, run[0]); }
      UnloadStays(Next(w, run[0]), run[1..], k);
    }
  }

  /** The check before `unload` decides: a run that is at it unloads with its next own
      step but one if and only if the Range is open when it looks. */
  lemma CheckDecides(w: World, before: seq<Action>, b: Branch, after: seq<Action>, k: Key)
    requires Initial(w) && Runs(w, before)
    requires k in After(w, before).incs && After(w, before).incs[k].pc.CheckRange?
    requires Enabled(After(w, before), Run(k, b)) && Runs(Next(After(w, before), Run(k, b)), after)
    ensures var s := After(w, before);
            var t := After(Next(s, Run(k, b)), after);
            && k in t.incs
            && (t.incs[k].o.unload ==> !s.incs[k].r.closed)
            && (!s.incs[k].r.closed ==> if OwnSteps(after, k) > 0 then t.incs[k].o.unload
                                        else t.incs[k].o.unload || Enabled(t, Run(k, Go)))
  {
    Reachable(w, before);
    var s := After(w, before);
    assert IncOk(s.incs[k], s.filters);
    StepShape(s, Run(k, b));
    if s.incs[k].r.closed {
      RunKeepsClosed(Next(s, Run(k, b)), after, k);
    } else {
      NextOwnStepUnloads(Next(s, Run(k, b)), after, k);
    }
  }

  // ---------- Bails ----------

  /** A step with which the run gives its grant up, or does not take it on. */
  predicate Bails(i: Incarnation, b: Branch) {
    || b.OnExpired? || (i.pc.Arrived? && i.o.expired)
    || (i.pc.WaitInit? && b.OnRangeClosed?)
    || ((i.pc.WaitUnload? || i.pc.WaitActive?) && b.OnRevoked?)
  }

  predicate Leaving(pc: Pc) { pc.Delete? || pc.CloseRange? || pc.Finished? }

  /** What a run tells the world is the same in both. */
  predicate SaysTheSame(i: Incarnation, j: Incarnation) {
    j.writes == i.writes && j.o.load == i.o.load && j.o.unload == i.o.unload
  }

  lemma LeavingSaysNothing(w: World, a: Action, k: Key)
    requires Enabled(w, a) && k in w.incs && Leaving(w.incs[k].pc)
    ensures k in Next(w, a).incs && Leaving(Next(w, a).incs[k].pc) && SaysTheSame(w.incs[k], Next(w, a).incs[k])
  {
    StepShape(w, a);
  }

  lemma {:induction false} LeavingForGood(w: World, run: seq<Action>, k: Key)
    requires Runs(w, run) && k in w.incs && Leaving(w.incs[k].pc)
    ensures k in After(w, run).incs && SaysTheSame(w.incs[k], After(w, run).incs[k])
    decreases |run|
  {
    if run != [] {
      LeavingSaysNothing(w, run[0], k);
      LeavingForGood(Next(w, run[0]), run[1..], k);
    }
  }

  /** A wait that ends because the grant expired or was revoked, or the Range closed,
      ends the run: from then on it writes nothing to its GrantMap and closes neither
      `load` nor `unload`, whatever else becomes of its latches. */
  lemma BailIsFinal(w: World, b: Branch, after: seq<Action>, k: Key)
    requires Enabled(w, Run(k, b)) && Bails(w.incs[k], b)
    requires Runs(Next(w, Run(k, b)), after)
    ensures var t := After(Next(w, Run(k, b)), after);
            k in t.incs && SaysTheSame(w.incs[k], t.incs[k])
  {
    StepShape(w, Run(k, b));
    LeavingForGood(Next(w, Run(k, b)), after, k);
  }

  /** What a run waits for at each of its waits: it can go on exactly when one of these
      latches is closed, and at the other points of its way at once. */
  lemma BlockedExactlyWhen(i: Incarnation, filters: nat)
    ensures (exists b :: Ready(i, b, filters)) <==>
            match i.pc
            case WaitUnload => i.o.active || i.o.unloaded || i.o.revoked || i.o.expired
            case WaitInit => i.r.initialized || i.r.closed || i.o.expired
            case WaitActive => i.o.active || i.o.revoked || i.o.expired
            case WaitRevoke => i.o.revoked || i.o.expired
            case Drain => i.r.drainReturned
            case WaitDrain => i.r.drained || i.o.expired
            case WaitLoad => i.o.loaded || i.o.expired
            case _ => !Over(i)
  {
    var b := Waker(i, filters);
    assert Ready(i, b, filters) || forall b :: !Ready(i, b, filters);
  }

  /** A branch that is ready if any is. */
  function Waker(i: Incarnation, filters: nat): Branch {
    match i.pc
    case Offered => if i.filter < filters then Accept else Go
    case WaitUnload => if i.o.active then OnActive else if i.o.unloaded then OnUnloaded
                       else if i.o.revoked then OnRevoked else OnExpired
    case WaitInit => if i.r.initialized then OnInitialized else if i.r.closed then OnRangeClosed else OnExpired
    case WaitActive => if i.o.active then OnActive else if i.o.revoked then OnRevoked else OnExpired
    case WaitRevoke => if i.o.revoked then OnRevoked else OnExpired
    case Drain => OnDrainReturned
    case WaitDrain => if i.r.drained then OnDrained else OnExpired
    case WaitLoad => if i.o.loaded then OnLoaded else OnExpired
    case _ => Go
  }
}
