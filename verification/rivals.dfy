/** Overlapping runs of one grant at one consumer share a place in a GrantMap. When
    a run keeps its entry, and what takes it away. */
module Rivals {
  import opened Lifecycle
  import opened LifecycleSafety
  import opened LifecycleExit

  predicate Rival(j: Key, k: Key) {
    j != k && j.consumer == k.consumer && j.id == k.id
  }

  /** A run past its first write has its entry in the GrantMap, with the last state
      it wrote. */
  predicate HasEntry(w: World, k: Key) {
    k in w.incs ==>
      var i := w.incs[k];
      Live(i.pc) && i.writes != [] ==>
        SlotOf(k, i) in w.maps && w.maps[SlotOf(k, i)] == Entry(i.writes[|i.writes| - 1], k)
  }

  predicate Past(pc: Pc) { pc.CloseRange? || pc.Finished? }

  /** A rival at `i` can still get to write or delete in the place that the run at
      `h` has, or may come to have. */
  predicate Threatens(i: Incarnation, h: Incarnation) {
    !Past(h.pc) &&
    match i.pc
    case Unspawned => !i.o.expired
    case Arrived => !i.o.expired
    case Offered => Live(h.pc) ==> i.filter <= h.filter
    case CloseRange => false
    case Finished => false
    case _ => if Live(h.pc) then i.filter == h.filter else i.filter >= h.filter
  }

  /** No rival of `k` threatens it. */
  ghost predicate Alone(w: World, k: Key) {
    k in w.incs && forall j :: j in w.incs && Rival(j, k) ==> !Threatens(w.incs[j], w.incs[k])
  }

  /** The action hands out another Ownership for the grant of `k`. */
  predicate Reassigns(a: Action, k: Key) { a.Assign? && Rival(a.key, k) }

  // ---------- Without a threat the entry stays ----------

  lemma HolderStep(i: Incarnation, h: Incarnation, b: Branch, filters: nat)
    requires IncOk(h, filters) && Ready(h, b, filters)
    ensures Threatens(i, RunNext(h, b)) ==> Threatens(i, h)
  {}

  lemma RivalStep(i: Incarnation, h: Incarnation, b: Branch, filters: nat)
    requires IncOk(i, filters) && Ready(i, b, filters)
    ensures Threatens(RunNext(i, b), h) ==> Threatens(i, h)
  {}

  /** Steps other than a run's own neither move it nor reopen `expired`. */
  lemma StaysPut(w: World, a: Action)
    requires Enabled(w, a) && a.key in w.incs && !a.Run?
    ensures var i, t := w.incs[a.key], Touched(w, a);
            && t.filter == i.filter && (i.o.expired ==> t.o.expired)
            && (t.pc == i.pc || (i.pc.Unspawned? && t.pc.Arrived?))
  {}

  /** No step brings a new threat about, whichever of the two it is a step of. */
  lemma ThreatsAreOld(w: World, a: Action, other: Incarnation)
    requires Inv(w) && Enabled(w, a) && a.key in w.incs
    ensures Threatens(other, Touched(w, a)) ==> Threatens(other, w.incs[a.key])
    ensures Threatens(Touched(w, a), other) ==> Threatens(w.incs[a.key], other)
  {
    var i := w.incs[a.key];
    assert IncOk(i, w.filters);
    if a.Run? {
      HolderStep(other, i, a.branch, w.filters);
      RivalStep(i, other, a.branch, w.filters);
    } else {
      StaysPut(w, a);
    }
  }

  lemma AloneKept(w: World, a: Action, k: Key)
    requires Inv(w) && Enabled(w, a) && Alone(w, k) && !Reassigns(a, k)
    ensures Alone(Next(w, a), k)
  {
    StepShape(w, a);
    forall j | j in Next(w, a).incs && Rival(j, k) ensures !Threatens(Next(w, a).incs[j], Next(w, a).incs[k]) {
      assert !Threatens(w.incs[j], w.incs[k]);
      if a.key == k { ThreatsAreOld(w, a, w.incs[j]); }
      if a.key == j { ThreatsAreOld(w, a, w.incs[k]); }
    }
  }

  lemma HolderIsSane(w: World, a: Action, k: Key)
    requires Inv(w) && Enabled(w, a) && k in w.incs
    ensures !Live(w.incs[k].pc) ==> Past(w.incs[k].pc) || w.incs[k].writes == []
    ensures k == a.key && Past(w.incs[k].pc) ==> Past(Touched(w, a).pc)
  {
    assert IncOk(w.incs[k], w.filters);
  }

  lemma EntryKept(w: World, a: Action, k: Key)
    requires Inv(w) && Enabled(w, a) && Alone(w, k) && HasEntry(w, k)
    ensures HasEntry(Next(w, a), k)
  {
    StepShape(w, a);
    HolderIsSane(w, a, k);
    EntryKeptAcross(w, Next(w, a), a.key, Touched(w, a), k);
  }

  lemma EntryKeptAcross(w: World, t: World, key: Key, j: Incarnation, k: Key)
    requires t.incs == w.incs[key := j] && Alone(w, k) && HasEntry(w, k)
    requires if key in w.incs then MapStep(key, w.incs[key], j, w.maps, t.maps) else t.maps == w.maps
    requires !Live(w.incs[k].pc) ==> Past(w.incs[k].pc) || w.incs[k].writes == []
    requires k == key && Past(w.incs[k].pc) ==> Past(j.pc)
    ensures HasEntry(t, k)
  {
    if key != k && key in w.incs && SlotOf(key, w.incs[key]) == SlotOf(k, w.incs[k]) {
      assert Rival(key, k) && !Threatens(w.incs[key], w.incs[k]);
    }
  }

  lemma {:induction false} EntriesKept(w: World, run: seq<Action>, k: Key)
    requires Inv(w) && Runs(w, run) && Alone(w, k) && HasEntry(w, k)
    requires forall a :: a in run ==> !Reassigns(a, k)
    ensures HasEntry(After(w, run), k) && Alone(After(w, run), k)
    decreases |run|
  {
    if run != [] {
      assert run[0] in run;
      StepKeeps(w, run[0]);
      AloneKept(w, run[0], k);
      EntryKept(w, run[0], k);
      EntriesKept(Next(w, run[0]), run[1..], k);
    }
  }

  /** From a moment at which no rival threatens a run, and while its grant is not
      assigned to the consumer again, the run, once past step 1 and until it cleans
      up, is in the GrantMap with the last state it wrote. */
  lemma EntryIsTheRunsOwn(w: World, before: seq<Action>, after: seq<Action>, k: Key)
    requires Initial(w) && Runs(w, before) && Runs(After(w, before), after)
    requires Alone(After(w, before), k) && HasEntry(After(w, before), k)
    requires forall a :: a in after ==> !Reassigns(a, k)
    ensures HasEntry(After(After(w, before), after), k)
  {
    Reachable(w, before);
    EntriesKept(After(w, before), after, k);
  }

  // ---------- A threat can be carried out ----------

  /** What the rival `j`, its user and its timer can do. */
  predicate OfRival(a: Action, j: Key) {
    a.key == j && (a == Close(j, LExpired) || a == UserCloses(j, UDrainReturned) || a.Spawn? || a.Run?)
  }

  function Pending(i: Incarnation): nat {
    (if i.o.expired then 0 else 1) + (if i.r.drainReturned then 0 else 1)
  }

  /** The next thing for a threatening rival to do. */
  function NextBlow(j: Key, i: Incarnation, f: nat): Action {
    match i.pc
    case Unspawned => Spawn(j)
    case Arrived => Run(j, Go)
    case Offered => Run(j, if i.filter < f then Decline else Accept)
    case _ =>
      if !i.o.expired then Close(j, LExpired)
      else if !i.r.drainReturned then UserCloses(j, UDrainReturned)
      else Run(j, if i.pc.Drain? then OnDrainReturned
                  else if i.pc.WaitUnload? || i.pc.WaitInit? || i.pc.WaitActive? || i.pc.WaitRevoke?
                          || i.pc.WaitDrain? || i.pc.WaitLoad? then OnExpired
                  else Go)
  }

  /** The rival as the blow leaves it. */
  function Struck(j: Key, i: Incarnation, a: Action): Incarnation {
    match a
    case Close(_, l) => Closed(i, l)
    case UserCloses(_, u) => UserClosed(i, u)
    case Spawn(_) => i.(pc := Arrived)
    case Run(_, b) => RunNext(i, b)
    case _ => i
  }

  lemma BlowIsReady(j: Key, i: Incarnation, f: nat, filters: nat)
    requires IncOk(i, filters) && f < filters
    requires match i.pc
             case Arrived => !i.o.expired
             case Offered => i.filter <= f
             case _ => !Past(i.pc)
    ensures var a := NextBlow(j, i, f);
            OfRival(a, j) && (a.Run? ==> Ready(i, a.branch, filters)) && (a.Spawn? ==> i.pc.Unspawned?)
  {}

  /** Still a threat, and closer to the blow that tells. */
  predicate Closer(t: Incarnation, i: Incarnation, h: Incarnation, filters: nat) {
    && Threatens(t, h)
    && Rank(t, filters) <= Rank(i, filters)
    && (Rank(t, filters) == Rank(i, filters) ==> Pending(t) < Pending(i))
  }

  predicate Telling(pc: Pc) { Written(pc).Some? || pc.Delete? }

  lemma BlowBringsCloser(j: Key, i: Incarnation, h: Incarnation, filters: nat)
    requires IncOk(i, filters) && Live(h.pc) && h.filter < filters && Threatens(i, h) && !Telling(i.pc)
    ensures Closer(Struck(j, i, NextBlow(j, i, h.filter)), i, h, filters)
  {
    var a := NextBlow(j, i, h.filter);
    if a.Run? { RunBringsCloser(i, h, a.branch, filters); }
  }

  lemma RunBringsCloser(i: Incarnation, h: Incarnation, b: Branch, filters: nat)
    requires IncOk(i, filters) && Live(h.pc) && Threatens(i, h) && !Telling(i.pc) && Ready(i, b, filters)
    requires i.pc.Offered? ==> h.filter < filters && b == if i.filter < h.filter then Decline else Accept
    ensures Closer(RunNext(i, b), i, h, filters)
  {
    StepsGoDown(i, b, filters);
  }

  lemma BlowIsStep(w: World, j: Key, a: Action)
    requires j in w.incs && Enabled(w, a) && OfRival(a, j)
    ensures Next(w, a).incs == w.incs[j := Struck(j, w.incs[j], a)] && Next(w, a).filters == w.filters
    ensures !Telling(w.incs[j].pc) ==> Next(w, a).maps == w.maps
  {}

  lemma BlowLands(w: World, k: Key, j: Key)
    requires Inv(w) && k in w.incs && j in w.incs && Rival(j, k)
    requires Live(w.incs[k].pc) && Threatens(w.incs[j], w.incs[k])
    ensures var i := w.incs[j];
            var a := NextBlow(j, i, w.incs[k].filter);
            && OfRival(a, j) && Enabled(w, a)
            && (!Telling(i.pc) ==> Closer(Struck(j, i, a), i, w.incs[k], w.filters))
  {
    var i, h := w.incs[j], w.incs[k];
    assert IncOk(i, w.filters) && IncOk(h, w.filters);
    BlowIsReady(j, i, h.filter, w.filters);
    if !Telling(i.pc) { BlowBringsCloser(j, i, h, w.filters); }
  }

  /** The last blow takes the entry: by a write of the rival's, or by its cleanup. */
  lemma LastBlow(w: World, k: Key, j: Key, b: Branch)
    requires Inv(w) && k in w.incs && j in w.incs && Rival(j, k) && Enabled(w, Run(j, b))
    requires Live(w.incs[k].pc) && w.incs[k].writes != [] && Threatens(w.incs[j], w.incs[k])
    requires Telling(w.incs[j].pc)
    ensures !HasEntry(Next(w, Run(j, b)), k)
  {
    assert SlotOf(j, w.incs[j]) == SlotOf(k, w.incs[k]);
  }

  /** A run with its entry, and a rival that threatens it: steps of the rival alone,
      once its lease has lapsed and its `drain` call has returned, take the entry
      while the run goes on holding the grant. */
  lemma {:induction false} RivalTakesEntry(w: World, k: Key, j: Key) returns (run: seq<Action>)
    requires Inv(w) && k in w.incs && j in w.incs && Rival(j, k)
    requires Live(w.incs[k].pc) && w.incs[k].writes != [] && Threatens(w.incs[j], w.incs[k])
    ensures Runs(w, run) && (forall a :: a in run ==> OfRival(a, j))
    ensures k in After(w, run).incs && After(w, run).incs[k] == w.incs[k] && !HasEntry(After(w, run), k)
    decreases Rank(w.incs[j], w.filters), Pending(w.incs[j])
  {
    var i := w.incs[j];
    var a := NextBlow(j, i, w.incs[k].filter);
    BlowLands(w, k, j);
    BlowIsStep(w, j, a);
    StepKeeps(w, a);
    if a.Run? && Telling(i.pc) {
      LastBlow(w, k, j, a.branch);
      RunsOne(w, a);
      run := [a];
    } else {
      var rest := RivalTakesEntry(Next(w, a), k, j);
      RunsCons(w, a, rest);
      run := [a] + rest;
    }
  }
}
