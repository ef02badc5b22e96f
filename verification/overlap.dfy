/** What a duplicate Assign does in a fleet: when a run keeps its GrantMap entry, and
    a history in which it loses it. */
module Overlap {
  import opened Ids
  import opened Folds
  import opened Lifecycle
  import opened LifecycleSafety
  import opened Rivals
  import opened Fleet
  import opened Mirror
  import opened FleetSafety
  import opened Handover
  import opened Segments
  import opened Scenes
  import S = Consumer

  /** Of two runs of a grant at one consumer, the earlier one has expired. */
  lemma OlderRunsHaveExpired(f: Fleet, acts: seq<Act>, j: Key, k: Key)
    requires Start(f)
    requires j in End(f, acts).w.incs && k in End(f, acts).w.incs && Rival(j, k) && j.inc < k.inc
    ensures End(f, acts).w.incs[j].o.expired
  {
    FleetReachable(f, acts);
    var g := End(f, acts);
    assert DriverFacts(g, k.consumer);
    assert KeyAgrees(j, DriverOf(g, k.consumer), g.w.incs) && KeyAgrees(k, DriverOf(g, k.consumer), g.w.incs);
    assert GrantFacts(g, k.consumer, k.id);
  }

  // ---------- Steps of one run as steps of a fleet ----------

  lemma TimerHappens(f: Fleet, j: Key)
    requires FleetInv(f) && j in f.w.incs
    ensures Can(f, Timer(j)) && Do(f, Timer(j)).w == Next(f.w, Close(j, LExpired))
  {
    assert DriverFacts(f, j.consumer);
    assert KeyAgrees(j, DriverOf(f, j.consumer), f.w.incs);
  }

  lemma ActHappens(f: Fleet, a: Action, j: Key) returns (act: Act)
    requires FleetInv(f) && j in f.w.incs && Enabled(f.w, a) && OfRival(a, j)
    ensures act.Task? || act.Timer?
    ensures Try(f, act).w == Next(f.w, a)
  {
    if a.Close? {
      TimerHappens(f, j);
      act := Timer(j);
    } else {
      act := Task(a);
    }
  }

  /** What one run, its user and its timer can do, a fleet can do. */
  lemma {:induction false} RunHappens(f: Fleet, run: seq<Action>, j: Key) returns (acts: seq<Act>)
    requires FleetInv(f) && j in f.w.incs && Runs(f.w, run) && forall a :: a in run ==> OfRival(a, j)
    ensures End(f, acts).w == After(f.w, run)
    ensures forall a :: a in acts ==> a.Task? || a.Timer?
    decreases |run|
  {
    acts := [];
    if run != [] {
      var act := ActHappens(f, run[0], j);
      TryKeeps(f, act);
      StepShape(f.w, run[0]);
      var rest := RunHappens(Try(f, act), run[1..], j);
      FoldOne(Try, f, act);
      FoldConcat(Try, f, [act], rest);
      acts := [act] + rest;
    }
  }

  // ---------- The exact condition ----------

  lemma AloneKeepsEntry(g: Fleet, acts: seq<Act>, k: Key)
    requires FleetInv(g) && Alone(g.w, k) && HasEntry(g.w, k)
    requires forall a :: a in acts ==> !AssignsAgain(a, k)
    ensures HasEntry(End(g, acts).w, k)
  {
    FleetRefinesTasks(g, acts);
    MovesReassignNot(g, acts, k);
    EntriesKept(g.w, AllMoves(g, acts), k);
  }

  lemma ThreatTakesEntry(g: Fleet, k: Key, j: Key) returns (acts: seq<Act>)
    requires FleetInv(g) && k in g.w.incs && j in g.w.incs && Rival(j, k)
    requires Live(g.w.incs[k].pc) && g.w.incs[k].writes != [] && Threatens(g.w.incs[j], g.w.incs[k])
    ensures forall a :: a in acts ==> !AssignsAgain(a, k)
    ensures var w := End(g, acts).w;
            k in w.incs && w.incs[k] == g.w.incs[k] && !HasEntry(w, k)
  {
    var run := RivalTakesEntry(g.w, k, j);
    acts := RunHappens(g, run, j);
  }

  /** From any reachable state in which a run holds its grant and has its entry: the
      entry survives everything that may happen, short of another Assign of the
      grant, if and only if no other run of the grant at this consumer can still
      come to this place in the GrantMap. Those that cannot have begun to close
      their Range or are over, are with another filter, are past this filter, or
      expired before the dispatcher looked. */
  lemma EntrySurvivesExactlyWhen(f: Fleet, before: seq<Act>, k: Key)
    requires Start(f)
    requires k in End(f, before).w.incs && HasEntry(End(f, before).w, k)
    requires Live(End(f, before).w.incs[k].pc) && End(f, before).w.incs[k].writes != []
    ensures Alone(End(f, before).w, k) <==>
            forall acts ::
              (forall a :: a in acts ==> !AssignsAgain(a, k)) ==> HasEntry(End(End(f, before), acts).w, k)
  {
    FleetReachable(f, before);
    var g := End(f, before);
    if Alone(g.w, k) {
      forall acts | forall a :: a in acts ==> !AssignsAgain(a, k)
        ensures HasEntry(End(g, acts).w, k)
      {
        AloneKeepsEntry(g, acts, k);
      }
    } else {
      var j :| j in g.w.incs && Rival(j, k) && Threatens(g.w.incs[j], g.w.incs[k]);
      var acts := ThreatTakesEntry(g, k, j);
    }
  }

  // ---------- A history that loses an entry ----------

  /** An active grant that a filter accepted; and its run, having recorded it, waiting
      for its Range. */
  function Recorded(g: RawGrant): Incarnation {
    Fresh(g, NewLatches(Active)).(pc := WaitInit, writes := [Allocated])
  }

  predicate ActiveGrant(f: Fleet, g: RawGrant) {
    g.state == 1 && S.AssignedShard(g).Some? && g.id !in f.source
  }

  /** The run of a freshly assigned active grant records it. */
  lemma RecordsIt(f: Fleet, w: World, n: nat, k: Key, g: RawGrant)
    requires Start(f) && Reached(f, w, {}, n) && k in w.incs && w.incs[k] == Fresh(g, NewLatches(Active)) && w.filters > 0
    ensures Reached(f, With(w, k, Recorded(g), w.maps[Slot(k.consumer, 0, k.id) := Entry(Allocated, k)]), {}, n)
  {
    var i := w.incs[k];
    Accepts(w, k);
    ComesTo(f, w, {}, n, k, i.(pc := WaitUnload), w.maps);
    var t := With(w, k, i.(pc := WaitUnload), w.maps);
    Records(t, k, OnActive, PutAllocated, Allocated, WaitInit);
    assert [] + [Allocated] == [Allocated];
    ComesTo(f, t, {}, n, k, Recorded(g), w.maps[Slot(k.consumer, 0, k.id) := Entry(Allocated, k)]);
    assert t.incs[k := Recorded(g)] == w.incs[k := Recorded(g)];
  }

  /** The grant is assigned, recorded, assigned again and recorded again. */
  lemma AssignedTwice(f: Fleet, g: RawGrant) returns (w: World)
    requires Start(f) && f.w.filters > 0 && ActiveGrant(f, g)
    ensures Reached(f, w, {}, 2)
    ensures var former, k := Key(0, g.id, 0), Key(0, g.id, 1);
            && w.incs == map[former := Closed(Recorded(g), LExpired), k := Recorded(g)]
            && w.maps == map[Slot(0, 0, g.id) := Entry(Allocated, k)] && w.filters == f.w.filters
  {
    var former, k := Key(0, g.id, 0), Key(0, g.id, 1);
    Begins(f);
    FirstAssignTo(f, f.w, {}, 0, 0, g);
    var w1 := Assigned(f.w, former, g);
    RecordsIt(f, w1, 1, former, g);
    var w2 := With(w1, former, Recorded(g), w1.maps[Slot(0, 0, g.id) := Entry(Allocated, former)]);
    var h := RemovalTo(f, w2, {}, 1, former);
    var w3 := Latched(w2, former, LExpired);
    AssignmentTo(f, h, w3, {}, 1, k, g);
    var w4 := Assigned(w3, k, g);
    RecordsIt(f, w4, 2, k, g);
    w := With(w4, k, Recorded(g), w4.maps[Slot(0, 0, g.id) := Entry(Allocated, k)]);
  }

  /** The second run has its entry; the first, expired, is about to clean up. */
  predicate BeforeCleanup(s: World, g: RawGrant) {
    var former, k := Key(0, g.id, 0), Key(0, g.id, 1);
    && s.incs.Keys == {former, k} && s.incs[former].o.expired && s.incs[former].pc.Delete?
    && s.incs[former].filter == 0 && s.incs[k] == Recorded(g)
    && s.maps == map[Slot(0, 0, g.id) := Entry(Allocated, k)] && HasEntry(s, k)
  }

  /** The first run has deleted the entry; the second goes on holding the grant. */
  predicate AfterCleanup(t: World, g: RawGrant) {
    var former, k := Key(0, g.id, 0), Key(0, g.id, 1);
    && t.incs.Keys == {former, k} && t.incs[former].pc.CloseRange? && t.incs[k] == Recorded(g)
    && t.maps == map[] && !HasEntry(t, k)
  }

  lemma GetsToCleanup(f: Fleet, g: RawGrant) returns (s: World)
    requires Start(f) && f.w.filters > 0 && ActiveGrant(f, g)
    ensures Reached(f, s, {}, 2) && BeforeCleanup(s, g)
  {
    var former := Key(0, g.id, 0);
    var w := AssignedTwice(f, g);
    var i := w.incs[former];
    Starts(w, former);
    ThenRun(w, former, i, w.maps, OnExpired);
    assert RunNext(i, OnExpired) == i.(pc := Delete);
    ComesTo(f, w, {}, 2, former, i.(pc := Delete), w.maps);
    s := With(w, former, i.(pc := Delete), w.maps);
  }

  lemma CleanupTakesEntry(s: World, g: RawGrant)
    requires BeforeCleanup(s, g)
    ensures Enabled(s, Run(Key(0, g.id, 0), Go)) && AfterCleanup(Next(s, Run(Key(0, g.id, 0), Go)), g)
  {}

  /** A history of two Assigns of one grant. Before its last act the second run has its
      entry, and the first, which has expired, is about to clean up. That cleanup takes
      the entry, and the second run goes on holding the grant without it. */
  lemma OverlapLosesEntry(f: Fleet, g: RawGrant) returns (before: seq<Act>)
    requires Start(f) && f.w.filters > 0 && ActiveGrant(f, g)
    ensures Assigns(before) == 2
    ensures BeforeCleanup(End(f, before).w, g)
    ensures AfterCleanup(End(f, before + [Task(Run(Key(0, g.id, 0), Go))]).w, g)
  {
    var last := Task(Run(Key(0, g.id, 0), Go));
    var s := GetsToCleanup(f, g);
    CleanupTakesEntry(s, g);
    var h :| SceneOf(f, h, s, {}, 2);
    before :| Tells(f, before, h, 2);
    TellsMore(f, before, h, 2, last);
    assert Try(h, last).w == Next(s, Run(Key(0, g.id, 0), Go));
  }
}
