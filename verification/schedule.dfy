/** What the Processor's task does on every schedule, and that schedules are what
    the interleavings of the Lifecycle module look like from one task. */
module Schedules {
  import opened Ids
  import opened Folds
  import opened Lifecycle
  import opened LifecycleSafety
  import opened GrantMaps
  import opened Processors
  import opened RangeClosed

  /** The grant as the router's task first sees it. */
  predicate JustSpawned(i: Incarnation) {
    && i.pc.Arrived? && i.filter == 0 && i.declined == {} && i.writes == []
    && !i.o.load && !i.o.unload && (i.o.requested ==> i.userRequested)
  }

  /** How a finished task ended: before dispatch, with its Range closed, or with the
      request to be revoked after the whole chain declined. */
  predicate Ended(i: Incarnation, filters: nat) {
    i.pc.Finished? ==>
      || (i.o.expired && i.filter == 0 && i.writes == [] && !i.o.load && !i.o.unload)
      || i.r.closed
      || (i.o.requested && i.filter == filters && i.writes == [])
  }

  ghost predicate TaskOk(i: Incarnation, filters: nat) {
    IncOk(i, filters) && Ended(i, filters) && !i.pc.Unspawned?
  }

  lemma RunStepEnds(i: Incarnation, b: Branch, filters: nat)
    requires TaskOk(i, filters) && Ready(i, b, filters)
    ensures Ended(RunNext(i, b), filters)
  {}

  lemma ProceedKeeps(job: Job, h: Held, e: Event)
    requires TaskOk(h.inc, Filters(job))
    ensures TaskOk(Proceed(job, h, e).inc, Filters(job))
  {
    match e {
      case DriverCloses(l) => CloseKeepsInc(h.inc, l, Filters(job));
      case UserMoves(u) => UserKeepsInc(h.inc, u, Filters(job));
      case OthersWrite(_, _) =>
      case FilterInits(_) =>
      case Wake(b) =>
        if CanGo(job, h, b) {
          RunKeepsInc(h.inc, b, Filters(job));
          RunStepEnds(h.inc, b, Filters(job));
        }
    }
  }

  lemma {:induction false} RanKeeps(job: Job, h: Held, schedule: seq<Event>)
    requires TaskOk(h.inc, Filters(job))
    ensures TaskOk(Ran(job, h, schedule).inc, Filters(job))
  {
    if schedule != [] {
      RanKeeps(job, h, schedule[..|schedule| - 1]);
      ProceedKeeps(job, Ran(job, h, schedule[..|schedule| - 1]), schedule[|schedule| - 1]);
    }
  }

  /** On every schedule: the writes are a prefix of the lifecycle, `load` and `unload`
      are closed in order, and a task that has finished either found the grant
      expired, or closed its Range, or asked for the grant to be revoked, the last
      only after every filter of the chain declined. */
  lemma EveryScheduleIsInOrder(job: Job, h: Held, schedule: seq<Event>)
    requires JustSpawned(h.inc)
    ensures var i := Ran(job, h, schedule).inc;
            && i.writes <= [GrantState.Allocated, AllocatedLoaded, Active, Revoked, RevokedUnloaded]
            && (i.o.load ==> i.r.initialized && (i.o.active || i.o.unloaded))
            && (i.o.unload ==> i.r.drained && i.o.load && i.o.active && i.o.revoked)
            && Ended(i, Filters(job))
            && (i.o.requested && !i.userRequested ==> forall f: nat :: f < Filters(job) ==> f in i.declined)
  {
    RanKeeps(job, h, schedule);
    var i := Ran(job, h, schedule).inc;
    assert LIFECYCLE[..|i.writes|] <= LIFECYCLE;
  }

  /** On every schedule: a Range that is closed before the check bars `unload` and the
      write of RevokedUnloaded from then on. */
  lemma ClosedRangeBarsUnload(job: Job, h: Held, schedule: seq<Event>, n: nat)
    requires JustSpawned(h.inc) && n <= |schedule|
    requires ClosedInTime(Ran(job, h, schedule[..n]).inc)
    ensures var i := Ran(job, h, schedule).inc;
            i.r.closed && !i.o.unload && RevokedUnloaded !in i.writes
  {
    assert schedule[..|schedule|] == schedule;
    RanLater(job, h, schedule, n, |schedule|);
    RanKeeps(job, h, schedule);
  }

  predicate Unloading(i: Incarnation) { i.pc.Unload? || i.o.unload }

  lemma ProceedStaysUnloading(job: Job, h: Held, e: Event)
    requires Unloading(h.inc)
    ensures Unloading(Proceed(job, h, e).inc)
  {}

  lemma {:induction false} StaysUnloading(job: Job, h: Held, schedule: seq<Event>, n: nat, m: nat)
    requires n <= m <= |schedule| && Unloading(Ran(job, h, schedule[..n]).inc)
    ensures Unloading(Ran(job, h, schedule[..m]).inc)
  {
    if n < m {
      StaysUnloading(job, h, schedule, n, m - 1);
      RanSnoc(job, h, schedule, m - 1);
      ProceedStaysUnloading(job, Ran(job, h, schedule[..m - 1]), schedule[m - 1]);
    }
  }

  lemma WakesAtCheck(job: Job, h: Held)
    requires h.inc.pc.CheckRange? && !h.inc.r.closed
    ensures Unloading(Proceed(job, h, Wake(Go)).inc)
  {}

  lemma WakesUnloading(job: Job, h: Held)
    requires Unloading(h.inc)
    ensures Proceed(job, h, Wake(Go)).inc.o.unload
  {}

  /** And a task that finds its Range open at the check unloads when it is next its turn,
      even if the Range closes in between. */
  lemma OpenRangeUnloads(job: Job, h: Held, schedule: seq<Event>, n: nat, m: nat)
    requires n < m < |schedule| && schedule[n] == schedule[m] == Wake(Go)
    requires var i := Ran(job, h, schedule[..n]).inc; i.pc.CheckRange? && !i.r.closed
    ensures Ran(job, h, schedule).inc.o.unload
  {
    RanSnoc(job, h, schedule, n);
    WakesAtCheck(job, Ran(job, h, schedule[..n]));
    StaysUnloading(job, h, schedule, n + 1, m);
    RanSnoc(job, h, schedule, m);
    WakesUnloading(job, Ran(job, h, schedule[..m]));
    assert schedule[..|schedule|] == schedule;
    RanLater(job, h, schedule, m + 1, |schedule|);
  }

  // ---------- Schedules and interleavings ----------

  predicate Distinct(chain: seq<GrantMap<Range>>) {
    forall m, n :: 0 <= m < n < |chain| ==> chain[m] != chain[n]
  }

  /** The entries of one Processor's GrantMap at `id` agree. */
  predicate ShowsAt(maps: map<Slot, Entry>, c: nat, f: nat, id: GrantId, entries: Entries) {
    && (Slot(c, f, id) in maps <==> id in entries)
    && (id in entries ==> maps[Slot(c, f, id)].state == entries[id].state)
  }

  ghost predicate ShowsMap(maps: map<Slot, Entry>, c: nat, f: nat, entries: Entries) {
    forall id :: ShowsAt(maps, c, f, id, entries)
  }

  /** `h` is what the world looks like from the task of `k`. */
  ghost predicate Shows(w: World, k: Key, job: Job, h: Held) {
    && w.filters == Filters(job) && job.id == k.id && Distinct(job.chain)
    && k in w.incs && w.incs[k] == h.inc.(watchers := w.incs[k].watchers)
    && (forall f: nat :: f < |job.chain| ==> f in h.inits)
    && (forall g :: g in job.chain ==> g in h.maps)
    && (forall f: nat :: f < |job.chain| ==> ShowsMap(w.maps, k.consumer, f, h.maps[job.chain[f]]))
  }

  /** Of two ways to change one slot, both change it alike. */
  lemma WriteShows(maps: map<Slot, Entry>, c: nat, f: nat, entries: Entries, id: GrantId, e: Entry, m: MapEntry<Range>)
    requires ShowsMap(maps, c, f, entries) && e.state == m.state
    ensures ShowsMap(maps[Slot(c, f, id) := e], c, f, entries[id := m])
  {
    var maps', entries' := maps[Slot(c, f, id) := e], entries[id := m];
    forall j ensures ShowsAt(maps', c, f, j, entries') {
      assert ShowsAt(maps, c, f, j, entries);
    }
  }

  lemma DeleteShows(maps: map<Slot, Entry>, c: nat, f: nat, entries: Entries, id: GrantId)
    requires ShowsMap(maps, c, f, entries)
    ensures ShowsMap(maps - {Slot(c, f, id)}, c, f, entries - {id})
  {
    var maps', entries' := maps - {Slot(c, f, id)}, entries - {id};
    forall j ensures ShowsAt(maps', c, f, j, entries') {
      assert ShowsAt(maps, c, f, j, entries);
    }
  }

  lemma ElsewhereShows(maps: map<Slot, Entry>, maps': map<Slot, Entry>, c: nat, f: nat, entries: Entries)
    requires ShowsMap(maps, c, f, entries)
    requires forall id :: (Slot(c, f, id) in maps' <==> Slot(c, f, id) in maps) &&
               (Slot(c, f, id) in maps ==> maps'[Slot(c, f, id)] == maps[Slot(c, f, id)])
    ensures ShowsMap(maps', c, f, entries)
  {
    forall id ensures ShowsAt(maps', c, f, id, entries) { assert ShowsAt(maps, c, f, id, entries); }
  }

  /** A run's effect on the GrantMap of filter `f`, seen from consumer `c`. */
  function Seen(job: Job, h: Held, c: nat, k: Key, i: Incarnation): map<GrantMap<Range>, Entries>
    requires forall g :: g in job.chain ==> g in h.maps
  {
    if k.consumer != c || i.filter >= |job.chain| then h.maps
    else
      var g := job.chain[i.filter];
      if Written(i.pc).Some?
      then h.maps[g := h.maps[g][k.id := MapEntry(job.shard, Written(i.pc).value, job.range)]]
      else if i.pc.Delete? then h.maps[g := h.maps[g] - {k.id}]
      else h.maps
  }

  lemma SeenShows(w: World, k: Key, job: Job, h: Held, other: Key, i: Incarnation, f: nat)
    requires Shows(w, k, job, h) && f < |job.chain|
    ensures var maps := Seen(job, h, k.consumer, other, i);
            job.chain[f] in maps && ShowsMap(MapsAfter(w.maps, other, i), k.consumer, f, maps[job.chain[f]])
  {
    var entries := h.maps[job.chain[f]];
    if other.consumer == k.consumer && i.filter == f {
      if Written(i.pc).Some? {
        WriteShows(w.maps, k.consumer, f, entries, other.id, Entry(Written(i.pc).value, other),
                   MapEntry(job.shard, Written(i.pc).value, job.range));
      } else if i.pc.Delete? {
        DeleteShows(w.maps, k.consumer, f, entries, other.id);
      }
    } else {
      ElsewhereShows(w.maps, MapsAfter(w.maps, other, i), k.consumer, f, entries);
    }
  }

  /** What the task of `k` sees of a step of the world. */
  function EventsOf(w: World, k: Key, job: Job, h: Held, a: Action): seq<Event>
    requires Enabled(w, a) && forall g :: g in job.chain ==> g in h.maps
  {
    if a.key == k then
      match a
      case Close(_, l) => [DriverCloses(l)]
      case UserCloses(_, u) => [UserMoves(u)]
      case Run(_, b) => [Wake(b)]
      case _ => []
    else if a.Run? && a.key.consumer == k.consumer && w.incs[a.key].filter < |job.chain| then
      var g := job.chain[w.incs[a.key].filter];
      [OthersWrite(g, Seen(job, h, k.consumer, a.key, w.incs[a.key])[g])]
    else []
  }

  /** After a step of any run the task's GrantMaps are seen as they are. */
  lemma AllShow(w: World, k: Key, job: Job, h: Held, other: Key, i: Incarnation)
    requires Shows(w, k, job, h)
    ensures var maps := Seen(job, h, k.consumer, other, i);
            && (forall g :: g in job.chain ==> g in maps)
            && forall f: nat :: f < |job.chain| ==>
                 ShowsMap(MapsAfter(w.maps, other, i), k.consumer, f, maps[job.chain[f]])
  {
    forall f: nat | f < |job.chain|
      ensures var maps := Seen(job, h, k.consumer, other, i);
              job.chain[f] in maps && ShowsMap(MapsAfter(w.maps, other, i), k.consumer, f, maps[job.chain[f]])
    {
      SeenShows(w, k, job, h, other, i, f);
    }
  }

  lemma OwnStepShows(w: World, k: Key, job: Job, h: Held, b: Branch)
    requires Shows(w, k, job, h) && Enabled(w, Run(k, b))
    ensures Shows(Next(w, Run(k, b)), k, job, Proceed(job, h, Wake(b)))
  {
    assert CanGo(job, h, b);
    SeenIsMapsThen(w, k, job, h);
    AllShow(w, k, job, h, k, w.incs[k]);
  }

  lemma SeenIsMapsThen(w: World, k: Key, job: Job, h: Held)
    requires Shows(w, k, job, h)
    ensures MapsThen(job, h) == Seen(job, h, k.consumer, k, w.incs[k])
  {}

  lemma OtherRunShows(w: World, k: Key, job: Job, h: Held, other: Key, b: Branch)
    requires Shows(w, k, job, h) && other != k && Enabled(w, Run(other, b))
    ensures Shows(Next(w, Run(other, b)), k, job, Ran(job, h, EventsOf(w, k, job, h, Run(other, b))))
  {
    var i := w.incs[other];
    var events := EventsOf(w, k, job, h, Run(other, b));
    if events != [] { FoldOne(StepOf(job), h, events[0]); }
    var t := Ran(job, h, events);
    assert t.inc == h.inc && t.maps == Seen(job, h, k.consumer, other, i) && t.inits == h.inits;
    AllShow(w, k, job, h, other, i);
  }

  /** Steps that no run takes leave the GrantMaps alone. */
  lemma QuietStepShows(w: World, k: Key, job: Job, h: Held, a: Action)
    requires Shows(w, k, job, h) && Enabled(w, a) && !w.incs[k].pc.Unspawned? && !a.Run?
    ensures var events := EventsOf(w, k, job, h, a);
            |events| <= 1 && Shows(Next(w, a), k, job, if events == [] then h else Proceed(job, h, events[0]))
  {}

  /** Every step of the world is, for the task of `k`, an event of a schedule. */
  lemma StepShows(w: World, k: Key, job: Job, h: Held, a: Action)
    requires Shows(w, k, job, h) && Enabled(w, a) && !w.incs[k].pc.Unspawned?
    ensures Shows(Next(w, a), k, job, Ran(job, h, EventsOf(w, k, job, h, a)))
  {
    var events := EventsOf(w, k, job, h, a);
    if events != [] { FoldOne(StepOf(job), h, events[0]); }
    if !a.Run? {
      QuietStepShows(w, k, job, h, a);
    } else if a.key == k {
      OwnStepShows(w, k, job, h, a.branch);
    } else {
      OtherRunShows(w, k, job, h, a.key, a.branch);
    }
  }

  lemma StaysSpawned(w: World, k: Key, a: Action)
    requires k in w.incs && Enabled(w, a) && !w.incs[k].pc.Unspawned?
    ensures k in Next(w, a).incs && !Next(w, a).incs[k].pc.Unspawned?
  {}

  /** Any interleaving of all tasks is, for the task of `k`, some schedule; so a task
      that takes exactly the steps of its schedule does, in every interleaving, what
      the world's machine says. */
  lemma {:induction false} InterleavingsAreSchedules(w: World, k: Key, job: Job, h: Held, run: seq<Action>)
    returns (schedule: seq<Event>)
    requires Shows(w, k, job, h) && Runs(w, run) && !w.incs[k].pc.Unspawned?
    ensures Shows(After(w, run), k, job, Ran(job, h, schedule))
    decreases |run|
  {
    schedule := [];
    if run != [] {
      var events := EventsOf(w, k, job, h, run[0]);
      StepShows(w, k, job, h, run[0]);
      StaysSpawned(w, k, run[0]);
      var rest := InterleavingsAreSchedules(Next(w, run[0]), k, job, Ran(job, h, events), run[1..]);
      schedule := events + rest;
      FoldConcat(StepOf(job), h, events, rest);
    }
  }
}
