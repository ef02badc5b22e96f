/** Stretches of a run's way, each as the steps of its tasks that go it. */
module Segments {
  import opened Ids
  import opened Lifecycle

  /** A step of the run itself, of its watchers or of its user. */
  predicate OwnTask(a: Action, k: Key) {
    a.key == k && (a.Spawn? || a.Run? || a.UserCloses? || a.Watch?)
  }

  /** The world with `k` at `i` and other GrantMaps. */
  function With(w: World, k: Key, i: Incarnation, maps: map<Slot, Entry>): World {
    w.(incs := w.incs[k := i], maps := maps)
  }

  /** `run` consists of the tasks of `k` and leads from `w` to `t`. */
  ghost predicate Trip(w: World, run: seq<Action>, k: Key, t: World) {
    Runs(w, run) && After(w, run) == t && forall a :: a in run ==> OwnTask(a, k)
  }

  ghost predicate Reaches(w: World, k: Key, t: World) {
    exists run :: Trip(w, run, k, t)
  }

  lemma OneMore(w: World, k: Key, t: World, a: Action)
    requires Reaches(w, k, t) && Enabled(t, a) && OwnTask(a, k)
    ensures Reaches(w, k, Next(t, a))
  {
    var run :| Trip(w, run, k, t);
    RunsOne(t, a);
    RunsThen(w, run, [a]);
    assert Trip(w, run + [a], k, Next(t, a));
  }

  /** The tasks of `k` can bring it to `i`, and the GrantMaps to `maps`. */
  ghost predicate Comes(w: World, k: Key, i: Incarnation, maps: map<Slot, Entry>) {
    Reaches(w, k, With(w, k, i, maps))
  }

  lemma Starts(w: World, k: Key)
    requires k in w.incs
    ensures Comes(w, k, w.incs[k], w.maps)
  {
    assert w.incs[k := w.incs[k]] == w.incs;
    assert Trip(w, [], k, w);
  }

  lemma ThenRun(w: World, k: Key, i: Incarnation, maps: map<Slot, Entry>, b: Branch)
    requires Comes(w, k, i, maps) && Ready(i, b, w.filters)
    ensures Comes(w, k, RunNext(i, b), MapsAfter(maps, k, i))
  {
    OneMore(w, k, With(w, k, i, maps), Run(k, b));
    assert w.incs[k := i][k := RunNext(i, b)] == w.incs[k := RunNext(i, b)];
  }

  lemma ThenUser(w: World, k: Key, i: Incarnation, maps: map<Slot, Entry>, u: UserLatch)
    requires Comes(w, k, i, maps)
    ensures Comes(w, k, UserClosed(i, u), maps)
  {
    OneMore(w, k, With(w, k, i, maps), UserCloses(k, u));
    assert w.incs[k := i][k := UserClosed(i, u)] == w.incs[k := UserClosed(i, u)];
  }

  lemma ThenSpawn(w: World, k: Key, i: Incarnation, maps: map<Slot, Entry>)
    requires Comes(w, k, i, maps) && i.pc.Unspawned?
    ensures Comes(w, k, i.(pc := Arrived), maps)
  {
    OneMore(w, k, With(w, k, i, maps), Spawn(k));
    assert w.incs[k := i][k := i.(pc := Arrived)] == w.incs[k := i.(pc := Arrived)];
  }

  lemma ThenComes(w: World, k: Key, i: Incarnation, maps: map<Slot, Entry>, j: Incarnation, maps': map<Slot, Entry>)
    requires Comes(w, k, i, maps) && Comes(With(w, k, i, maps), k, j, maps')
    ensures Comes(w, k, j, maps')
  {
    var t, u := With(w, k, i, maps), With(w, k, j, maps');
    assert w.incs[k := i][k := j] == w.incs[k := j];
    assert With(t, k, j, maps') == u;
    var first :| Trip(w, first, k, t);
    var rest :| Trip(t, rest, k, u);
    RunsThen(w, first, rest);
    assert Trip(w, first + rest, k, u);
  }

  /** The dispatcher offers the grant, and the first filter accepts it. */
  lemma Accepts(w: World, k: Key)
    requires k in w.incs && w.incs[k].pc.Unspawned? && w.incs[k].filter == 0 && !w.incs[k].o.expired
    requires w.filters > 0
    ensures Comes(w, k, w.incs[k].(pc := WaitUnload), w.maps)
  {
    var i := w.incs[k];
    Starts(w, k);
    ThenSpawn(w, k, i, w.maps);
    ThenRun(w, k, i.(pc := Arrived), w.maps, Go);
    assert RunNext(i.(pc := Arrived), Go) == i.(pc := Pc.Offered);
    IsAccepted(With(w, k, i.(pc := Pc.Offered), w.maps), k);
    ThenComes(w, k, i.(pc := Pc.Offered), w.maps, i.(pc := WaitUnload), w.maps);
  }

  lemma IsAccepted(w: World, k: Key)
    requires k in w.incs && w.incs[k].pc.Offered? && w.incs[k].filter < w.filters
    ensures Comes(w, k, w.incs[k].(pc := WaitUnload), w.maps)
  {
    Starts(w, k);
    ThenRun(w, k, w.incs[k], w.maps, Accept);
    assert RunNext(w.incs[k], Accept) == w.incs[k].(pc := WaitUnload);
  }

  function Wrote(k: Key, i: Incarnation, maps: map<Slot, Entry>, state: GrantState): map<Slot, Entry> {
    maps[SlotOf(k, i) := Entry(state, k)]
  }

  /** A wait and a write: where the run goes on, and the state it records. */
  predicate WaitAndWrite(pc: Pc, b: Branch, put: Pc, state: GrantState, next: Pc) {
    || (pc.WaitUnload? && (b.OnActive? || b.OnUnloaded?) && put.PutAllocated? && state == GrantState.Allocated
        && next.WaitInit?)
    || (pc.WaitActive? && b.OnActive? && put.PutActive? && state.Active? && next.WaitRevoke?)
    || (pc.WaitRevoke? && b.OnRevoked? && put.PutRevoked? && state.Revoked? && next.Drain?)
  }

  lemma Records(w: World, k: Key, b: Branch, put: Pc, state: GrantState, next: Pc)
    requires k in w.incs && Ready(w.incs[k], b, w.filters) && WaitAndWrite(w.incs[k].pc, b, put, state, next)
    ensures var i := w.incs[k];
            Comes(w, k, i.(pc := next, writes := i.writes + [state]), Wrote(k, i, w.maps, state))
  {
    var i := w.incs[k];
    Starts(w, k);
    ThenRun(w, k, i, w.maps, b);
    assert RunNext(i, b) == i.(pc := put);
    ThenRun(w, k, i.(pc := put), w.maps, Go);
    assert RunNext(i.(pc := put), Go) == i.(pc := next, writes := i.writes + [state]);
  }

  /** The Range initialises, and the run loads. */
  lemma Loads(w: World, k: Key)
    requires k in w.incs && w.incs[k].pc.WaitInit?
    ensures var i := w.incs[k];
            Comes(w, k,
                  i.(pc := WaitActive, writes := i.writes + [AllocatedLoaded],
                     o := i.o.(load := true), r := i.r.(initialized := true)),
                  Wrote(k, i, w.maps, AllocatedLoaded))
  {
    var i := w.incs[k];
    var j := i.(r := i.r.(initialized := true));
    Starts(w, k);
    ThenUser(w, k, i, w.maps, UInitialized);
    assert UserClosed(i, UInitialized) == j;
    ThenRun(w, k, j, w.maps, OnInitialized);
    assert RunNext(j, OnInitialized) == j.(pc := Load);
    LoadsNow(With(w, k, j.(pc := Load), w.maps), k);
    ThenComes(w, k, j.(pc := Load), w.maps,
              j.(pc := WaitActive, writes := i.writes + [AllocatedLoaded], o := i.o.(load := true)),
              Wrote(k, i, w.maps, AllocatedLoaded));
  }

  lemma LoadsNow(w: World, k: Key)
    requires k in w.incs && w.incs[k].pc.Load?
    ensures var i := w.incs[k];
            Comes(w, k, i.(pc := WaitActive, writes := i.writes + [AllocatedLoaded], o := i.o.(load := true)),
                  Wrote(k, i, w.maps, AllocatedLoaded))
  {
    var i := w.incs[k];
    var j := i.(pc := PutLoaded, o := i.o.(load := true));
    Starts(w, k);
    ThenRun(w, k, i, w.maps, Go);
    assert RunNext(i, Go) == j;
    PutsLoaded(With(w, k, j, w.maps), k);
    ThenComes(w, k, j, w.maps, j.(pc := WaitActive, writes := i.writes + [AllocatedLoaded]),
              Wrote(k, i, w.maps, AllocatedLoaded));
  }

  lemma PutsLoaded(w: World, k: Key)
    requires k in w.incs && w.incs[k].pc.PutLoaded?
    ensures var i := w.incs[k];
            Comes(w, k, i.(pc := WaitActive, writes := i.writes + [AllocatedLoaded]),
                  Wrote(k, i, w.maps, AllocatedLoaded))
  {
    var i := w.incs[k];
    Starts(w, k);
    ThenRun(w, k, i, w.maps, Go);
    assert RunNext(i, Go) == i.(pc := WaitActive, writes := i.writes + [AllocatedLoaded]);
  }

  /** The user's `drain` returns, and the drain completes. */
  lemma Drains(w: World, k: Key)
    requires k in w.incs && w.incs[k].pc.Drain?
    ensures var i := w.incs[k];
            Comes(w, k, i.(pc := CheckRange, r := i.r.(drainReturned := true, drained := true)), w.maps)
  {
    var i := w.incs[k];
    var j := i.(r := i.r.(drainReturned := true));
    Starts(w, k);
    ThenUser(w, k, i, w.maps, UDrainReturned);
    assert UserClosed(i, UDrainReturned) == j;
    ThenRun(w, k, j, w.maps, OnDrainReturned);
    assert RunNext(j, OnDrainReturned) == j.(pc := WaitDrain);
    HasDrained(With(w, k, j.(pc := WaitDrain), w.maps), k);
    ThenComes(w, k, j.(pc := WaitDrain), w.maps,
              i.(pc := CheckRange, r := i.r.(drainReturned := true, drained := true)), w.maps);
  }

  lemma HasDrained(w: World, k: Key)
    requires k in w.incs && w.incs[k].pc.WaitDrain?
    ensures var i := w.incs[k];
            Comes(w, k, i.(pc := CheckRange, r := i.r.(drained := true)), w.maps)
  {
    var i := w.incs[k];
    var j := i.(r := i.r.(drained := true));
    Starts(w, k);
    ThenUser(w, k, i, w.maps, UDrained);
    assert UserClosed(i, UDrained) == j;
    ThenRun(w, k, j, w.maps, OnDrained);
    assert RunNext(j, OnDrained) == j.(pc := CheckRange);
  }

  /** The run unloads. */
  lemma Unloads(w: World, k: Key)
    requires k in w.incs && w.incs[k].pc.CheckRange? && !w.incs[k].r.closed
    ensures var i := w.incs[k];
            Comes(w, k, i.(pc := WaitLoad, writes := i.writes + [RevokedUnloaded], o := i.o.(unload := true)),
                  Wrote(k, i, w.maps, RevokedUnloaded))
  {
    var i := w.incs[k];
    Starts(w, k);
    ThenRun(w, k, i, w.maps, Go);
    assert RunNext(i, Go) == i.(pc := Unload);
    UnloadsNow(With(w, k, i.(pc := Unload), w.maps), k);
    ThenComes(w, k, i.(pc := Unload), w.maps,
              i.(pc := WaitLoad, writes := i.writes + [RevokedUnloaded], o := i.o.(unload := true)),
              Wrote(k, i, w.maps, RevokedUnloaded));
  }

  lemma UnloadsNow(w: World, k: Key)
    requires k in w.incs && w.incs[k].pc.Unload?
    ensures var i := w.incs[k];
            Comes(w, k, i.(pc := WaitLoad, writes := i.writes + [RevokedUnloaded], o := i.o.(unload := true)),
                  Wrote(k, i, w.maps, RevokedUnloaded))
  {
    var i := w.incs[k];
    var j := i.(pc := PutUnloaded, o := i.o.(unload := true));
    Starts(w, k);
    ThenRun(w, k, i, w.maps, Go);
    assert RunNext(i, Go) == j;
    PutsUnloaded(With(w, k, j, w.maps), k);
    ThenComes(w, k, j, w.maps, j.(pc := WaitLoad, writes := i.writes + [RevokedUnloaded]),
              Wrote(k, i, w.maps, RevokedUnloaded));
  }

  lemma PutsUnloaded(w: World, k: Key)
    requires k in w.incs && w.incs[k].pc.PutUnloaded?
    ensures var i := w.incs[k];
            Comes(w, k, i.(pc := WaitLoad, writes := i.writes + [RevokedUnloaded]),
                  Wrote(k, i, w.maps, RevokedUnloaded))
  {
    var i := w.incs[k];
    Starts(w, k);
    ThenRun(w, k, i, w.maps, Go);
    assert RunNext(i, Go) == i.(pc := WaitLoad, writes := i.writes + [RevokedUnloaded]);
  }

  /** The run leaves its last wait and cleans up. */
  lemma Leaves(w: World, k: Key)
    requires k in w.incs && w.incs[k].pc.WaitLoad? && w.incs[k].o.loaded
    ensures var i := w.incs[k];
            Comes(w, k, i.(pc := Finished, r := i.r.(closed := true)), w.maps - {SlotOf(k, i)})
  {
    var i := w.incs[k];
    Starts(w, k);
    ThenRun(w, k, i, w.maps, OnLoaded);
    assert RunNext(i, OnLoaded) == i.(pc := Delete);
    CleansUp(With(w, k, i.(pc := Delete), w.maps), k);
    ThenComes(w, k, i.(pc := Delete), w.maps, i.(pc := Finished, r := i.r.(closed := true)), w.maps - {SlotOf(k, i)});
  }

  lemma CleansUp(w: World, k: Key)
    requires k in w.incs && w.incs[k].pc.Delete?
    ensures var i := w.incs[k];
            Comes(w, k, i.(pc := Finished, r := i.r.(closed := true)), w.maps - {SlotOf(k, i)})
  {
    var i := w.incs[k];
    Starts(w, k);
    ThenRun(w, k, i, w.maps, Go);
    assert RunNext(i, Go) == i.(pc := CloseRange);
    ThenRun(w, k, i.(pc := CloseRange), w.maps - {SlotOf(k, i)}, Go);
    assert RunNext(i.(pc := CloseRange), Go) == i.(pc := Finished, r := i.r.(closed := true));
  }

  /** A watcher sees its latch and sends. */
  lemma Reports(w: World, k: Key, s: Signal)
    requires k in w.incs && WatcherOf(w.incs[k], s).Watching? && SignalLatch(w.incs[k], s)
    ensures Reaches(w, k, w.(incs := w.incs[k := SetWatcher(w.incs[k], s, Done)],
                             out := w.out + [Out(k, s, SentGrant(w.incs[k].grant, s))]))
  {
    var i := w.incs[k];
    var t := With(w, k, SetWatcher(i, s, Sending), w.maps);
    Starts(w, k);
    assert With(w, k, i, w.maps).incs == w.incs && With(w, k, i, w.maps) == w;
    OneMore(w, k, w, Watch(k, s, Fire));
    assert Next(w, Watch(k, s, Fire)) == t;
    OneMore(w, k, t, Watch(k, s, WatchStep.Send));
    assert t.incs[k := SetWatcher(t.incs[k], s, Done)] == w.incs[k := SetWatcher(i, s, Done)];
  }
}
