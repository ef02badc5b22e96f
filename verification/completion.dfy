/** A handover that completes: a history in which one consumer serves a grant, gives it
    up, and another takes over and becomes active, with nothing lapsed. */
module Completion {
  import opened Ids
  import opened Lifecycle
  import opened Segments
  import opened Fleet
  import opened Scenes
  import S = Consumer

  // ---------- Stretches of one run ----------

  /** What all runs of this history have in common. */
  predicate Calm(i: Incarnation, g: RawGrant) {
    i.grant == g && i.filter == 0 && !i.o.expired && !i.r.closed
  }

  /** From the Assign to `load`. */
  lemma TakesOver(f: Fleet, w: World, read: set<RawGrant>, n: nat, k: Key, b: Branch)
    requires Start(f) && Reached(f, w, read, n) && k in w.incs && w.filters > 0
    requires w.incs[k].pc.Unspawned? && w.incs[k].filter == 0 && !w.incs[k].o.expired
    requires (b.OnActive? && w.incs[k].o.active) || (b.OnUnloaded? && w.incs[k].o.unloaded)
    ensures var i := w.incs[k];
            Reached(f, With(w, k,
                            i.(pc := WaitActive, writes := i.writes + [Allocated] + [AllocatedLoaded],
                               o := i.o.(load := true), r := i.r.(initialized := true)),
                            w.maps[SlotOf(k, i) := Entry(AllocatedLoaded, k)]), read, n)
  {
    var i := w.incs[k];
    Accepts(w, k);
    ComesTo(f, w, read, n, k, i.(pc := WaitUnload), w.maps);
    var w1 := With(w, k, i.(pc := WaitUnload), w.maps);
    var j := i.(pc := WaitInit, writes := i.writes + [Allocated]);
    Records(w1, k, b, PutAllocated, Allocated, WaitInit);
    ComesTo(f, w1, read, n, k, j, Wrote(k, i, w.maps, Allocated));
    var w2 := With(w1, k, j, Wrote(k, i, w.maps, Allocated));
    WithTwice(w, k, i.(pc := WaitUnload), w.maps, j, w2.maps);
    RecordedThenLoads(f, w, read, n, k, j);
  }

  lemma RecordedThenLoads(f: Fleet, w: World, read: set<RawGrant>, n: nat, k: Key, j: Incarnation)
    requires Start(f) && j.pc.WaitInit? && Reached(f, With(w, k, j, Wrote(k, j, w.maps, Allocated)), read, n)
    ensures Reached(f, With(w, k,
                            j.(pc := WaitActive, writes := j.writes + [AllocatedLoaded],
                               o := j.o.(load := true), r := j.r.(initialized := true)),
                            Wrote(k, j, w.maps, AllocatedLoaded)), read, n)
  {
    var maps := Wrote(k, j, w.maps, Allocated);
    LoadsFrom(f, With(w, k, j, maps), read, n, k);
    WithTwice(w, k, j, maps,
              j.(pc := WaitActive, writes := j.writes + [AllocatedLoaded],
                 o := j.o.(load := true), r := j.r.(initialized := true)),
              Wrote(k, j, w.maps, AllocatedLoaded));
    assert Wrote(k, j, maps, AllocatedLoaded) == Wrote(k, j, w.maps, AllocatedLoaded);
  }

  lemma LoadsFrom(f: Fleet, w: World, read: set<RawGrant>, n: nat, k: Key)
    requires Start(f) && Reached(f, w, read, n) && k in w.incs && w.incs[k].pc.WaitInit?
    ensures var i := w.incs[k];
            Reached(f, With(w, k,
                            i.(pc := WaitActive, writes := i.writes + [AllocatedLoaded],
                               o := i.o.(load := true), r := i.r.(initialized := true)),
                            Wrote(k, i, w.maps, AllocatedLoaded)), read, n)
  {
    var i := w.incs[k];
    Loads(w, k);
    ComesTo(f, w, read, n, k,
            i.(pc := WaitActive, writes := i.writes + [AllocatedLoaded],
               o := i.o.(load := true), r := i.r.(initialized := true)),
            Wrote(k, i, w.maps, AllocatedLoaded));
  }

  lemma WithTwice(w: World, k: Key, i: Incarnation, m: map<Slot, Entry>, j: Incarnation, m': map<Slot, Entry>)
    ensures With(With(w, k, i, m), k, j, m') == With(w, k, j, m')
  {
    assert w.incs[k := i][k := j] == w.incs[k := j];
  }

  lemma BecomesActive(f: Fleet, w: World, read: set<RawGrant>, n: nat, k: Key)
    requires Start(f) && Reached(f, w, read, n) && k in w.incs
    requires w.incs[k].pc.WaitActive? && w.incs[k].o.active
    ensures var i := w.incs[k];
            Reached(f, With(w, k, i.(pc := WaitRevoke, writes := i.writes + [Active]),
                            w.maps[SlotOf(k, i) := Entry(Active, k)]), read, n)
  {
    var i := w.incs[k];
    Records(w, k, OnActive, PutActive, Active, WaitRevoke);
    ComesTo(f, w, read, n, k, i.(pc := WaitRevoke, writes := i.writes + [Active]), Wrote(k, i, w.maps, Active));
  }

  /** From the revocation to `unload`. */
  lemma GivesUp(f: Fleet, w: World, read: set<RawGrant>, n: nat, k: Key)
    requires Start(f) && Reached(f, w, read, n) && k in w.incs
    requires w.incs[k].pc.WaitRevoke? && w.incs[k].o.revoked && !w.incs[k].r.closed
    ensures var i := w.incs[k];
            Reached(f, With(w, k,
                            i.(pc := WaitLoad, writes := i.writes + [Revoked] + [RevokedUnloaded],
                               o := i.o.(unload := true), r := i.r.(drainReturned := true, drained := true)),
                            w.maps[SlotOf(k, i) := Entry(RevokedUnloaded, k)]), read, n)
  {
    var i := w.incs[k];
    var maps := Wrote(k, i, w.maps, Revoked);
    var j := i.(pc := Drain, writes := i.writes + [Revoked]);
    Records(w, k, OnRevoked, PutRevoked, Revoked, Drain);
    ComesTo(f, w, read, n, k, j, maps);
    var w1 := With(w, k, j, maps);
    var l := j.(pc := CheckRange, r := i.r.(drainReturned := true, drained := true));
    Drains(w1, k);
    ComesTo(f, w1, read, n, k, l, maps);
    WithTwice(w, k, j, maps, l, maps);
    DrainedThenUnloads(f, w, read, n, k, l);
  }

  lemma DrainedThenUnloads(f: Fleet, w: World, read: set<RawGrant>, n: nat, k: Key, l: Incarnation)
    requires Start(f) && l.pc.CheckRange? && !l.r.closed
    requires Reached(f, With(w, k, l, Wrote(k, l, w.maps, Revoked)), read, n)
    ensures Reached(f, With(w, k,
                            l.(pc := WaitLoad, writes := l.writes + [RevokedUnloaded], o := l.o.(unload := true)),
                            Wrote(k, l, w.maps, RevokedUnloaded)), read, n)
  {
    var maps := Wrote(k, l, w.maps, Revoked);
    UnloadsFrom(f, With(w, k, l, maps), read, n, k);
    WithTwice(w, k, l, maps,
              l.(pc := WaitLoad, writes := l.writes + [RevokedUnloaded], o := l.o.(unload := true)),
              Wrote(k, l, w.maps, RevokedUnloaded));
    assert Wrote(k, l, maps, RevokedUnloaded) == Wrote(k, l, w.maps, RevokedUnloaded);
  }

  lemma UnloadsFrom(f: Fleet, w: World, read: set<RawGrant>, n: nat, k: Key)
    requires Start(f) && Reached(f, w, read, n) && k in w.incs && w.incs[k].pc.CheckRange? && !w.incs[k].r.closed
    ensures var i := w.incs[k];
            Reached(f, With(w, k,
                            i.(pc := WaitLoad, writes := i.writes + [RevokedUnloaded], o := i.o.(unload := true)),
                            Wrote(k, i, w.maps, RevokedUnloaded)), read, n)
  {
    var i := w.incs[k];
    Unloads(w, k);
    ComesTo(f, w, read, n, k,
            i.(pc := WaitLoad, writes := i.writes + [RevokedUnloaded], o := i.o.(unload := true)),
            Wrote(k, i, w.maps, RevokedUnloaded));
  }

  // ---------- The stages of the handover ----------

  function Former(ga: RawGrant): Key { Key(0, ga.id, 0) }

  function Heir(gb: RawGrant): Key { Key(1, gb.id, 0) }

  /** Two grants that a coordinator hands over from one to the other. */
  predicate Pair(f: Fleet, ga: RawGrant, gb: RawGrant) {
    && Start(f) && f.w.filters > 0 && ga.id != gb.id && f.source == map[gb.id := ga.id]
    && S.AssignedShard(ga).Some? && ga.state == 1 && S.AssignedShard(gb).Some? && gb.state == 2
  }

  /** The first consumer serves. */
  predicate Served(w: World, ga: RawGrant) {
    var a := Former(ga);
    && w.incs.Keys == {a} && Calm(w.incs[a], ga) && w.incs[a].pc.WaitRevoke?
    && w.incs[a].watchers == Watchers(Watching, Watching, Watching)
    && w.maps == map[Slot(0, 0, ga.id) := Entry(Active, a)]
  }

  /** The first consumer has unloaded and waits for its successor. */
  predicate LetGoBy(i: Incarnation, ga: RawGrant) {
    Calm(i, ga) && i.pc.WaitLoad? && i.o.unload
  }

  predicate Unloaded(w: World, ga: RawGrant) {
    var a := Former(ga);
    && w.incs.Keys == {a} && LetGoBy(w.incs[a], ga)
    && w.maps == map[Slot(0, 0, ga.id) := Entry(RevokedUnloaded, a)]
  }

  /** The second consumer has loaded. */
  predicate Prepared(i: Incarnation, gb: RawGrant) {
    Calm(i, gb) && i.pc.WaitActive? && i.o.load
  }

  predicate HeirLoaded(w: World, ga: RawGrant, gb: RawGrant) {
    var a, b := Former(ga), Heir(gb);
    && w.incs.Keys == {a, b} && LetGoBy(w.incs[a], ga) && Prepared(w.incs[b], gb)
    && w.maps == map[Slot(0, 0, ga.id) := Entry(RevokedUnloaded, a), Slot(1, 0, gb.id) := Entry(AllocatedLoaded, b)]
  }

  /** The first consumer's run is over. */
  predicate FormerGone(w: World, ga: RawGrant, gb: RawGrant) {
    var a, b := Former(ga), Heir(gb);
    && w.incs.Keys == {a, b} && w.incs[a].pc.Finished? && w.incs[a].r.closed
    && Calm(w.incs[b], gb) && w.incs[b].pc.WaitActive?
    && w.maps == map[Slot(1, 0, gb.id) := Entry(AllocatedLoaded, b)]
  }

  predicate Completed(w: World, ga: RawGrant, gb: RawGrant) {
    var a, b := Former(ga), Heir(gb);
    && w.incs.Keys == {a, b} && w.incs[a].pc.Finished? && w.incs[a].r.closed && w.incs[b].pc.WaitRevoke?
    && w.maps == map[Slot(1, 0, gb.id) := Entry(Active, b)]
  }

  lemma GetsServed(f: Fleet, ga: RawGrant, gb: RawGrant) returns (w: World)
    requires Pair(f, ga, gb)
    ensures Reached(f, w, {}, 1) && Served(w, ga) && w.filters == f.w.filters
  {
    var a := Former(ga);
    Begins(f);
    FirstAssignTo(f, f.w, {}, 0, 0, ga);
    var w1 := Assigned(f.w, a, ga);
    TakesOver(f, w1, {}, 1, a, OnActive);
    var i := w1.incs[a];
    var j := i.(pc := WaitActive, writes := i.writes + [Allocated] + [AllocatedLoaded],
                o := i.o.(load := true), r := i.r.(initialized := true));
    var w2 := With(w1, a, j, w1.maps[SlotOf(a, i) := Entry(AllocatedLoaded, a)]);
    BecomesActive(f, w2, {}, 1, a);
    w := With(w2, a, j.(pc := WaitRevoke, writes := j.writes + [Active]), w2.maps[SlotOf(a, j) := Entry(Active, a)]);
  }

  lemma GetsUnloaded(f: Fleet, ga: RawGrant, gb: RawGrant, w: World) returns (t: World)
    requires Pair(f, ga, gb) && Reached(f, w, {}, 1) && Served(w, ga)
    ensures Reached(f, t, {ga.(state := 5)}, 1) && Unloaded(t, ga) && t.filters == w.filters
  {
    var a := Former(ga);
    MessageTo(f, w, {}, 1, a, S.IRevoke(ga), LRevoked);
    var w1 := Latched(w, a, LRevoked);
    var i := w1.incs[a];
    GivesUp(f, w1, {}, 1, a);
    var j := i.(pc := WaitLoad, writes := i.writes + [Revoked] + [RevokedUnloaded],
                o := i.o.(unload := true), r := i.r.(drainReturned := true, drained := true));
    var w2 := With(w1, a, j, w1.maps[SlotOf(a, i) := Entry(RevokedUnloaded, a)]);
    t := UnloadIsReported(f, ga, gb, w2);
  }

  lemma UnloadIsReported(f: Fleet, ga: RawGrant, gb: RawGrant, w: World) returns (t: World)
    requires Pair(f, ga, gb) && Reached(f, w, {}, 1) && Unloaded(w, ga) && w.incs[Former(ga)].watchers.unload.Watching?
    ensures Reached(f, t, {ga.(state := 5)}, 1) && Unloaded(t, ga) && t.filters == w.filters
  {
    var a := Former(ga);
    ReportTo(f, w, {}, 1, a, UnloadSignal);
    t := w.(incs := w.incs[a := SetWatcher(w.incs[a], UnloadSignal, Done)],
            out := w.out + [Out(a, UnloadSignal, SentGrant(ga, UnloadSignal))]);
    assert {} + {ga.(state := 5)} == {ga.(state := 5)};
  }

  lemma GetsHeir(f: Fleet, ga: RawGrant, gb: RawGrant, w: World) returns (t: World)
    requires Pair(f, ga, gb) && Reached(f, w, {ga.(state := 5)}, 1) && Unloaded(w, ga) && w.filters > 0
    ensures Reached(f, t, {ga.(state := 5)}, 2) && HeirLoaded(t, ga, gb)
    ensures t.incs[Heir(gb)].watchers.load.Watching?
  {
    var a, b := Former(ga), Heir(gb);
    var read := {ga.(state := 5)};
    FirstAssignTo(f, w, read, 1, 1, gb);
    var w1 := Assigned(w, b, gb);
    MessageTo(f, w1, read, 2, b, S.INotify(Some(ga.(state := 5)), Some(gb)), LUnloaded);
    var w2 := Latched(w1, b, LUnloaded);
    var i := w2.incs[b];
    TakesOver(f, w2, read, 2, b, OnUnloaded);
    t := With(w2, b, i.(pc := WaitActive, writes := i.writes + [Allocated] + [AllocatedLoaded],
                        o := i.o.(load := true), r := i.r.(initialized := true)),
              w2.maps[SlotOf(b, i) := Entry(AllocatedLoaded, b)]);
  }

  lemma LoadIsReported(f: Fleet, ga: RawGrant, gb: RawGrant, w: World) returns (t: World)
    requires Pair(f, ga, gb) && Reached(f, w, {ga.(state := 5)}, 2) && HeirLoaded(w, ga, gb)
    requires w.incs[Heir(gb)].watchers.load.Watching?
    ensures Reached(f, t, {ga.(state := 5), gb.(state := 4)}, 2) && HeirLoaded(t, ga, gb)
  {
    var b := Heir(gb);
    ReportTo(f, w, {ga.(state := 5)}, 2, b, LoadSignal);
    t := w.(incs := w.incs[b := SetWatcher(w.incs[b], LoadSignal, Done)],
            out := w.out + [Out(b, LoadSignal, SentGrant(gb, LoadSignal))]);
    assert {ga.(state := 5)} + {gb.(state := 4)} == {ga.(state := 5), gb.(state := 4)};
  }

  lemma FormerIsNotified(f: Fleet, ga: RawGrant, gb: RawGrant, w: World) returns (t: World)
    requires Pair(f, ga, gb) && Reached(f, w, {ga.(state := 5), gb.(state := 4)}, 2) && HeirLoaded(w, ga, gb)
    ensures Reached(f, t, {ga.(state := 5), gb.(state := 4)}, 2) && HeirLoaded(t, ga, gb)
    ensures t.incs[Former(ga)].o.loaded
  {
    var read := {ga.(state := 5), gb.(state := 4)};
    assert gb.(state := 4) in read;
    MessageTo(f, w, read, 2, Former(ga), S.INotify(Some(gb.(state := 4)), Some(ga)), LLoaded);
    t := Latched(w, Former(ga), LLoaded);
  }

  lemma FormerLeaves(f: Fleet, ga: RawGrant, gb: RawGrant, w: World) returns (t: World)
    requires Pair(f, ga, gb) && Reached(f, w, {ga.(state := 5), gb.(state := 4)}, 2) && HeirLoaded(w, ga, gb)
    requires w.incs[Former(ga)].o.loaded
    ensures Reached(f, t, {ga.(state := 5), gb.(state := 4)}, 2) && FormerGone(t, ga, gb)
  {
    var a := Former(ga);
    var i := w.incs[a];
    var j := i.(pc := Finished, r := i.r.(closed := true));
    Leaves(w, a);
    ComesTo(f, w, {ga.(state := 5), gb.(state := 4)}, 2, a, j, w.maps - {SlotOf(a, i)});
    t := With(w, a, j, w.maps - {SlotOf(a, i)});
  }

  lemma HeirIsPromoted(f: Fleet, ga: RawGrant, gb: RawGrant, w: World) returns (t: World)
    requires Pair(f, ga, gb) && Reached(f, w, {ga.(state := 5), gb.(state := 4)}, 2) && FormerGone(w, ga, gb)
    ensures Reached(f, t, {ga.(state := 5), gb.(state := 4)}, 2) && Completed(t, ga, gb)
  {
    var b := Heir(gb);
    var read := {ga.(state := 5), gb.(state := 4)};
    assert ga.(state := 5) in read;
    MessageTo(f, w, read, 2, b, S.IPromote(gb), LActive);
    var w1 := Latched(w, b, LActive);
    var i := w1.incs[b];
    BecomesActive(f, w1, read, 2, b);
    t := With(w1, b, i.(pc := WaitRevoke, writes := i.writes + [Active]), w1.maps[SlotOf(b, i) := Entry(Active, b)]);
  }

  /** The handover completes in some history with nothing lapsed: the heir is Active in
      its GrantMap, and the former run has finished, its Range closed and its entry
      gone. So what is proved of every handover is proved of some. */
  lemma HandoverCanComplete(f: Fleet, ga: RawGrant, gb: RawGrant) returns (acts: seq<Act>)
    requires Pair(f, ga, gb)
    ensures End(f, acts).lapsed == {} && Completed(End(f, acts).w, ga, gb)
  {
    var w1 := GetsServed(f, ga, gb);
    var w2 := GetsUnloaded(f, ga, gb, w1);
    var w3 := GetsHeir(f, ga, gb, w2);
    var w4 := LoadIsReported(f, ga, gb, w3);
    var w5 := FormerIsNotified(f, ga, gb, w4);
    var w6 := FormerLeaves(f, ga, gb, w5);
    var w7 := HeirIsPromoted(f, ga, gb, w6);
    var g :| SceneOf(f, g, w7, {ga.(state := 5), gb.(state := 4)}, 2);
    acts :| Tells(f, acts, g, 2);
  }
}
