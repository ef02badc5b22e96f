/** Histories of a fleet built stretch by stretch: what the tasks look like after each,
    what the coordinator has read, and how many Assigns were delivered. */
module Scenes {
  import opened Ids
  import opened Folds
  import opened Lifecycle
  import opened Segments
  import opened Fleet
  import opened Mirror
  import opened FleetSafety
  import opened Handover
  import S = Consumer
  import H = ConsumerHistory

  predicate IsAssign(a: Act) {
    a.Deliver? && a.parcel.item.IAssign? && S.AssignedShard(a.parcel.item.grant).Some?
  }

  /** How many Assigns a history delivers. */
  function Assigns(acts: seq<Act>): nat {
    if acts == [] then 0 else Assigns(acts[..|acts| - 1]) + if IsAssign(acts[|acts| - 1]) then 1 else 0
  }

  /** `acts` lead from `f` to `g`, and deliver `n` Assigns. */
  predicate Tells(f: Fleet, acts: seq<Act>, g: Fleet, n: nat) {
    End(f, acts) == g && Assigns(acts) == n
  }

  ghost predicate Told(f: Fleet, g: Fleet, n: nat) {
    exists acts :: Tells(f, acts, g, n)
  }

  lemma ThenAct(f: Fleet, g: Fleet, n: nat, a: Act)
    requires Told(f, g, n)
    ensures Told(f, Try(g, a), n + if IsAssign(a) then 1 else 0)
  {
    var acts :| Tells(f, acts, g, n);
    TellsMore(f, acts, g, n, a);
  }

  lemma TellsMore(f: Fleet, acts: seq<Act>, g: Fleet, n: nat, a: Act)
    requires Tells(f, acts, g, n)
    ensures Tells(f, acts + [a], Try(g, a), n + if IsAssign(a) then 1 else 0)
  {
    FoldOne(Try, g, a);
    FoldConcat(Try, f, acts, [a]);
    assert (acts + [a])[..|acts|] == acts;
  }

  // ---------- Scenes ----------

  /** The fleet stands at `w`, nothing has lapsed, and no driver has ended. */
  ghost predicate Scene(g: Fleet, source: map<GrantId, GrantId>, w: World, read: set<RawGrant>) {
    g.source == source && g.w == w && g.received == read && g.lapsed == {} && NoneClosed(g)
  }

  ghost predicate NoneClosed(g: Fleet) {
    forall c: nat :: !DriverOf(g, c).closed
  }

  lemma ScenesAreSound(f: Fleet, g: Fleet, w: World, read: set<RawGrant>, n: nat)
    requires Start(f) && SceneOf(f, g, w, read, n)
    ensures FleetInv(g)
  {
    var acts :| Tells(f, acts, g, n);
    FleetReachable(f, acts);
  }

  ghost predicate SceneOf(f: Fleet, g: Fleet, w: World, read: set<RawGrant>, n: nat) {
    Told(f, g, n) && Scene(g, f.source, w, read)
  }

  /** Some history of `n` Assigns leads to the scene. */
  ghost predicate Reached(f: Fleet, w: World, read: set<RawGrant>, n: nat) {
    exists g :: SceneOf(f, g, w, read, n)
  }

  lemma Begins(f: Fleet)
    requires Start(f)
    ensures Reached(f, f.w, {}, 0)
  {
    assert Tells(f, [], f, 0);
    assert SceneOf(f, f, f.w, {}, 0);
  }

  // ---------- Acts ----------

  /** An act that closes no driver keeps the drivers going. */
  lemma StaysOpen(g: Fleet, a: Act)
    requires Can(g, a) && !a.Shut? && (a.Deliver? ==> a.parcel.item != S.IClose)
    requires NoneClosed(g)
    ensures NoneClosed(Do(g, a))
  {
    if ItemOf(a).Some? {
      var p := ItemOf(a).value;
      H.StepCloses(DriverOf(g, p.consumer), p.item);
      assert !DriverOf(g, p.consumer).closed;
    }
    forall c: nat ensures !DriverOf(Do(g, a), c).closed { assert !DriverOf(g, c).closed; }
  }

  lemma SceneAct(f: Fleet, g: Fleet, w: World, read: set<RawGrant>, n: nat, a: Act)
    requires SceneOf(f, g, w, read, n) && Can(g, a) && !a.Shut? && !a.Lapse?
    requires a.Deliver? ==> a.parcel.item != S.IClose
    ensures SceneOf(f, Do(g, a), Do(g, a).w, Do(g, a).received, n + if IsAssign(a) then 1 else 0)
  {
    ThenAct(f, g, n, a);
    StaysOpen(g, a);
  }

  lemma {:induction false} SceneTasks(f: Fleet, g: Fleet, w: World, read: set<RawGrant>, n: nat, k: Key,
                                      run: seq<Action>)
    requires SceneOf(f, g, w, read, n) && Runs(w, run) && forall a :: a in run ==> OwnTask(a, k)
    ensures Reached(f, After(w, run), read, n)
    decreases |run|
  {
    if run == [] {
      assert After(w, run) == w;
    } else {
      assert OwnTask(run[0], k);
      SceneAct(f, g, w, read, n, Task(run[0]));
      SceneTasks(f, Do(g, Task(run[0])), Next(w, run[0]), read, n, k, run[1..]);
    }
  }

  /** The tasks of one run go on by themselves. */
  lemma TasksTo(f: Fleet, w: World, read: set<RawGrant>, n: nat, k: Key, t: World)
    requires Start(f) && Reached(f, w, read, n) && Reaches(w, k, t)
    ensures Reached(f, t, read, n)
  {
    var g :| SceneOf(f, g, w, read, n);
    var run :| Trip(w, run, k, t);
    SceneTasks(f, g, w, read, n, k, run);
  }

  lemma ComesTo(f: Fleet, w: World, read: set<RawGrant>, n: nat, k: Key, i: Incarnation, maps: map<Slot, Entry>)
    requires Start(f) && Reached(f, w, read, n) && Comes(w, k, i, maps)
    ensures Reached(f, With(w, k, i, maps), read, n)
  {
    TasksTo(f, w, read, n, k, With(w, k, i, maps));
  }

  /** What the coordinator may send after having read `read`, with nothing lapsed. */
  predicate Allowed(source: map<GrantId, GrantId>, read: set<RawGrant>, i: S.Item) {
    MaySend(Fleet(World(0, map[], map[], []), map[], source, {}, read, {}), i)
  }

  lemma AllowedMeansMay(g: Fleet, i: S.Item)
    requires g.lapsed == {} && Allowed(g.source, g.received, i)
    ensures MaySend(g, i)
  {}

  /** An item is sent; and a fleet to which it has been sent. */
  lemma IsSent(f: Fleet, w: World, read: set<RawGrant>, n: nat, g: Fleet, p: Parcel) returns (h: Fleet)
    requires Start(f) && SceneOf(f, g, w, read, n) && Allowed(f.source, read, p.item)
    ensures SceneOf(f, h, w, read, n) && p in h.sent && h.drivers == g.drivers
  {
    AllowedMeansMay(g, p.item);
    SceneAct(f, g, w, read, n, Act.Send(p));
    h := Do(g, Act.Send(p));
  }

  /** A grant whose last Ownership has not expired is in the table. */
  lemma IsInTable(g: Fleet, k: Key)
    requires FleetInv(g) && k in g.w.incs && !g.w.incs[k].o.expired
    ensures var s := DriverOf(g, k.consumer);
            k.id in s.table && s.table[k.id].inc == k.inc && |S.Issued(s, k.id)| == k.inc + 1
  {
    assert DriverFacts(g, k.consumer);
    assert KeyAgrees(k, DriverOf(g, k.consumer), g.w.incs);
    assert GrantFacts(g, k.consumer, k.id);
  }

  /** The world once the driver closed a latch of `k`. */
  function Latched(w: World, k: Key, l: DriverLatch): World
    requires k in w.incs
  {
    w.(incs := w.incs[k := Closed(w.incs[k], l)])
  }

  /** A message arrives and closes a latch of the run it is about. */
  lemma MessageTo(f: Fleet, w: World, read: set<RawGrant>, n: nat, k: Key, i: S.Item, l: DriverLatch)
    requires Start(f) && Reached(f, w, read, n) && Allowed(f.source, read, i)
    requires k in w.incs && !w.incs[k].o.expired && Carries(i, k.id, l)
    ensures Reached(f, Latched(w, k, l), read, n)
  {
    var p := Parcel(k.consumer, i);
    var g0 :| SceneOf(f, g0, w, read, n);
    var g := IsSent(f, w, read, n, g0, p);
    ScenesAreSound(f, g, w, read, n);
    IsInTable(g, k);
    MessageCloses(g, k, i, l);
    SceneAct(f, g, w, read, n, Deliver(p));
    assert SceneOf(f, Do(g, Deliver(p)), Latched(w, k, l), read, n);
  }

  lemma MessageCloses(g: Fleet, k: Key, i: S.Item, l: DriverLatch)
    requires k in g.w.incs && Carries(i, k.id, l) && Parcel(k.consumer, i) in g.sent
    requires var s := DriverOf(g, k.consumer); !s.closed && k.id in s.table && s.table[k.id].inc == k.inc
    ensures Can(g, Deliver(Parcel(k.consumer, i)))
    ensures Do(g, Deliver(Parcel(k.consumer, i))).w == Latched(g.w, k, l)
    ensures Do(g, Deliver(Parcel(k.consumer, i))).received == g.received
  {
    assert MoveOf(g, Deliver(Parcel(k.consumer, i))) == Some(Close(k, l));
  }

  /** A driver removes an entry, and the run it had goes on, expired. */
  lemma RemovalTo(f: Fleet, w: World, read: set<RawGrant>, n: nat, k: Key) returns (h: Fleet)
    requires Start(f) && Reached(f, w, read, n) && k in w.incs && !w.incs[k].o.expired
    ensures SceneOf(f, h, Latched(w, k, LExpired), read, n) && k.id !in DriverOf(h, k.consumer).table
  {
    var g :| SceneOf(f, g, w, read, n);
    var a := Remove(k.consumer, k.id);
    ScenesAreSound(f, g, w, read, n);
    IsInTable(g, k);
    assert MoveOf(g, a) == Some(Close(k, LExpired));
    assert !DriverOf(g, k.consumer).closed;
    SceneAct(f, g, w, read, n, a);
    h := Do(g, a);
  }

  /** The latches of a new Ownership whose lease has not passed. */
  function NewLatches(state: GrantState): Latches {
    Latches(state.Active?, S.StartsRevoked(state), false, false, false, false, false, false)
  }

  function AssignItem(g: RawGrant): S.Item {
    S.IAssign(g, 0, S.AssignLease(g, 0))
  }

  /** The world once `k` was assigned. */
  function Assigned(w: World, k: Key, g: RawGrant): World {
    w.(incs := w.incs[k := Fresh(g, NewLatches(GrantStateFromI32(g.state)))])
  }

  /** Incarnations are numbered without gaps. */
  lemma IsNext(g: Fleet, k: Key)
    requires FleetInv(g) && k !in g.w.incs
    requires k.inc == 0 || Key(k.consumer, k.id, k.inc - 1) in g.w.incs
    ensures |S.Issued(DriverOf(g, k.consumer), k.id)| == k.inc
  {
    assert DriverFacts(g, k.consumer);
    assert KeyAgrees(k, DriverOf(g, k.consumer), g.w.incs);
    if k.inc > 0 { assert KeyAgrees(Key(k.consumer, k.id, k.inc - 1), DriverOf(g, k.consumer), g.w.incs); }
  }

  /** A grant that is not in the table is assigned. */
  lemma AssignmentTo(f: Fleet, g0: Fleet, w: World, read: set<RawGrant>, n: nat, k: Key, r: RawGrant)
    requires Start(f) && SceneOf(f, g0, w, read, n) && Allowed(f.source, read, AssignItem(r))
    requires S.AssignedShard(r).Some? && r.id == k.id && k !in w.incs
    requires r.id !in DriverOf(g0, k.consumer).table
    requires k.inc == 0 || Key(k.consumer, k.id, k.inc - 1) in w.incs
    ensures Reached(f, Assigned(w, k, r), read, n + 1)
  {
    var p := Parcel(k.consumer, AssignItem(r));
    var g := IsSent(f, w, read, n, g0, p);
    ScenesAreSound(f, g, w, read, n);
    IsNext(g, k);
    assert !DriverOf(g, k.consumer).closed;
    assert MoveOf(g, Deliver(p)) == Some(Assign(k, r, NewLatches(GrantStateFromI32(r.state))));
    SceneAct(f, g, w, read, n, Deliver(p));
    assert SceneOf(f, Do(g, Deliver(p)), Assigned(w, k, r), read, n + 1);
  }

  /** A grant is assigned to a consumer that never had it. */
  lemma FirstAssignTo(f: Fleet, w: World, read: set<RawGrant>, n: nat, c: nat, r: RawGrant)
    requires Start(f) && Reached(f, w, read, n) && Allowed(f.source, read, AssignItem(r))
    requires S.AssignedShard(r).Some? && Key(c, r.id, 0) !in w.incs
    ensures Reached(f, Assigned(w, Key(c, r.id, 0), r), read, n + 1)
  {
    var g :| SceneOf(f, g, w, read, n);
    ScenesAreSound(f, g, w, read, n);
    IsNext(g, Key(c, r.id, 0));
    AssignmentTo(f, g, w, read, n, Key(c, r.id, 0), r);
  }

  /** A run reports one of its two signals, and the coordinator reads it. */
  lemma ReportTo(f: Fleet, w: World, read: set<RawGrant>, n: nat, k: Key, s: Signal)
    requires Start(f) && Reached(f, w, read, n) && !s.RequestSignal?
    requires k in w.incs && WatcherOf(w.incs[k], s).Watching? && SignalLatch(w.incs[k], s)
    ensures var m := Out(k, s, SentGrant(w.incs[k].grant, s));
            Reached(f, w.(incs := w.incs[k := SetWatcher(w.incs[k], s, Done)], out := w.out + [m]),
                    read + {m.grant}, n)
  {
    var m := Out(k, s, SentGrant(w.incs[k].grant, s));
    var t := w.(incs := w.incs[k := SetWatcher(w.incs[k], s, Done)], out := w.out + [m]);
    Reports(w, k, s);
    TasksTo(f, w, read, n, k, t);
    var g :| SceneOf(f, g, t, read, n);
    assert g.w.out[|w.out|] == m;
    SceneAct(f, g, t, read, n, Receive(|w.out|));
    assert SceneOf(f, Do(g, Receive(|w.out|)), t, read + {m.grant}, n);
  }
}
