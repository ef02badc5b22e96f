/** Once a grant has expired its run cannot be kept from ending. */
module LifecycleExit {
  import opened Lifecycle
  import opened LifecycleSafety

  /** A bound on the steps the task itself still takes. */
  function Rank(i: Incarnation, filters: nat): nat {
    match i.pc
    case Finished => 0
    case CloseRange => 1
    case Delete => 2
    case WaitLoad => 3
    case PutUnloaded => 4
    case Unload => 5
    case CheckRange => 6
    case WaitDrain => 7
    case Drain => 8
    case PutRevoked => 9
    case WaitRevoke => 10
    case PutActive => 11
    case WaitActive => 12
    case PutLoaded => 13
    case Load => 14
    case WaitInit => 15
    case PutAllocated => 16
    case WaitUnload => 17
    case Offered => if i.filter <= filters then 18 + filters - i.filter else 18
    case Arrived => 19 + filters
    case Unspawned => 20 + filters
  }

  /** What the run waits for, other than its own ownership ending. */
  predicate AwaitsDrainCall(i: Incarnation) { i.pc.Drain? && !i.r.drainReturned }

  predicate Over(i: Incarnation) { i.pc.Unspawned? || i.pc.Finished? }

  /** A filter took the grant; once the run is over, its Range is closed. */
  predicate Held(i: Incarnation) {
    Live(i.pc) || i.pc.CloseRange? || (i.pc.Finished? && i.r.closed)
  }

  lemma ExpiredIsNeverBlocked(i: Incarnation, filters: nat)
    requires i.o.expired && !Over(i) && !AwaitsDrainCall(i)
    ensures exists b :: Ready(i, b, filters)
  {
    var b := if i.pc.Offered? then (if i.filter < filters then Accept else Go)
             else if i.pc.WaitUnload? || i.pc.WaitInit? || i.pc.WaitActive? || i.pc.WaitRevoke?
                     || i.pc.WaitDrain? || i.pc.WaitLoad? then OnExpired
             else if i.pc.Drain? then OnDrainReturned
             else Go;
    assert Ready(i, b, filters);
  }

  lemma StepsGoDown(i: Incarnation, b: Branch, filters: nat)
    requires IncOk(i, filters) && Ready(i, b, filters)
    ensures Rank(RunNext(i, b), filters) < Rank(i, filters)
    ensures Held(i) ==> Held(RunNext(i, b))
  {}

  lemma OthersKeepRank(w: World, a: Action, k: Key)
    requires Inv(w) && Enabled(w, a) && k in w.incs && !(a.Run? && a.key == k)
    ensures k in Next(w, a).incs
    ensures Rank(Next(w, a).incs[k], w.filters) <= Rank(w.incs[k], w.filters)
    ensures Held(w.incs[k]) ==> Held(Next(w, a).incs[k])
  {
    StepShape(w, a);
  }

  function OwnSteps(run: seq<Action>, k: Key): nat {
    if run == [] then 0
    else (if run[0].Run? && run[0].key == k then 1 else 0) + OwnSteps(run[1..], k)
  }

  lemma {:induction false} OwnStepsBounded(w: World, run: seq<Action>, k: Key)
    requires Inv(w) && Runs(w, run) && k in w.incs
    ensures k in After(w, run).incs
    ensures OwnSteps(run, k) + Rank(After(w, run).incs[k], w.filters) <= Rank(w.incs[k], w.filters)
    ensures w.incs[k].o.expired ==> After(w, run).incs[k].o.expired
    ensures Held(w.incs[k]) ==> Held(After(w, run).incs[k])
    decreases |run|
  {
    if run != [] {
      var a := run[0];
      var t := Next(w, a);
      StepKeeps(w, a);
      StepShape(w, a);
      if a.Run? && a.key == k {
        StepsGoDown(w.incs[k], a.branch, w.filters);
      } else {
        OthersKeepRank(w, a, k);
      }
      if a.key == k { TouchedExtends(w, a); }
      OwnStepsBounded(t, run[1..], k);
    }
  }

  /** From any reachable state in which a grant has expired and its run holds
      it: however the tasks interleave, the run takes at most `Rank` more steps
      of its own; as long as it has not ended, only the user's `drain` call can
      keep it from taking one; and once it has ended, its Range is closed and no
      GrantMap shows it. */
  lemma BoundedExit(w: World, before: seq<Action>, after: seq<Action>, k: Key)
    requires Initial(w) && Runs(w, before) && Runs(After(w, before), after)
    requires k in After(w, before).incs
    requires After(w, before).incs[k].o.expired && Live(After(w, before).incs[k].pc)
    ensures var s := After(w, before);
            var t := After(s, after);
            && OwnSteps(after, k) <= Rank(s.incs[k], w.filters) <= 17
            && k in t.incs
            && (!t.incs[k].pc.Finished? ==>
                  AwaitsDrainCall(t.incs[k]) || exists b :: Enabled(t, Run(k, b)))
            && (t.incs[k].pc.Finished? ==>
                  t.incs[k].r.closed && forall s :: s in t.maps ==> t.maps[s].owner != k)
  {
    Reachable(w, before);
    var s := After(w, before);
    OwnStepsBounded(s, after, k);
    RunKeeps(s, after);
    var t := After(s, after);
    var i := t.incs[k];
    if !i.pc.Finished? && !AwaitsDrainCall(i) {
      ExpiredIsNeverBlocked(i, t.filters);
      var b :| Ready(i, b, t.filters);
      assert Enabled(t, Run(k, b));
    }
    if i.pc.Finished? {
      forall s | s in t.maps ensures t.maps[s].owner != k { assert EntryOk(t, s); }
    }
  }

  // ---------- All runs together ----------

  function TotalRank(w: World, keys: seq<Key>): nat
    requires forall n :: 0 <= n < |keys| ==> keys[n] in w.incs
  {
    if keys == [] then 0 else Rank(w.incs[keys[0]], w.filters) + TotalRank(w, keys[1..])
  }

  function StepsOfAll(run: seq<Action>, keys: seq<Key>): nat {
    if keys == [] then 0 else OwnSteps(run, keys[0]) + StepsOfAll(run, keys[1..])
  }

  /** Any number of runs together take boundedly many more steps. */
  lemma {:induction false} AllRunsBounded(w: World, run: seq<Action>, keys: seq<Key>)
    requires Inv(w) && Runs(w, run)
    requires forall n :: 0 <= n < |keys| ==> keys[n] in w.incs
    ensures StepsOfAll(run, keys) <= TotalRank(w, keys)
  {
    if keys != [] {
      OwnStepsBounded(w, run, keys[0]);
      AllRunsBounded(w, run, keys[1..]);
    }
  }
}
