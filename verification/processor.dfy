/** The task around one grant in the form the Processor gives it: waits, writes to a
    GrantMap and latches, and a cleanup on every way out. Other tasks act whenever
    it is not its turn. It is proved to take, on every schedule, exactly the steps
    of the machine in the Lifecycle module. */
module Processors {
  import opened Ids
  import opened Folds
  import opened Lifecycle
  import opened Ownerships
  import opened GrantMaps
  import opened RangeClosed

  /** The user's Range: latches that others close, and that the Processor may close. */
  class Range {
    var initialized: bool
    var drainReturned: bool
    var drained: bool
    var closed: bool

    constructor ()
      ensures Latches() == RangeLatches(false, false, false, false)
    {
      initialized, drainReturned, drained, closed := false, false, false, false;
    }

    function Latches(): RangeLatches
      reads this
    {
      RangeLatches(initialized, drainReturned, drained, closed)
    }
  }

  /** Which Processors of a chain have been initialised. */
  class Inits {
    var done: set<nat>

    constructor ()
      ensures done == {}
    {
      done := {};
    }

    /** `init` of the n-th filter. */
    method Init(n: nat)
      modifies this
      ensures done == old(done) + {n}
    {
      done := done + {n};
    }
  }

  type Entries = map<GrantId, MapEntry<Range>>

  /** One entry of a schedule: another task acts, or the scheduler offers the task
      to go on by `branch`, which it does if that branch is ready. */
  datatype Event =
    | DriverCloses(latch: DriverLatch)
    | UserMoves(user: UserLatch)
    | OthersWrite(place: GrantMap<Range>, entries: Entries)
    | FilterInits(filter: nat)
    | Wake(branch: Branch)

  /** The grant, its Range, and the GrantMaps and `init` latches of the chain's Processors. */
  datatype Job = Job(id: GrantId, shard: Shard, range: Range, chain: seq<GrantMap<Range>>, inits: Inits)

  /** The latches and the task's place, the contents of the GrantMaps, and the filters
      that have been initialised. */
  datatype Held = Held(inc: Incarnation, maps: map<GrantMap<Range>, Entries>, inits: set<nat>)

  function Filters(job: Job): nat { |job.chain| }

  // ---------- What a schedule leads to ----------

  function MapsThen(job: Job, h: Held): map<GrantMap<Range>, Entries> {
    if h.inc.filter >= |job.chain| || job.chain[h.inc.filter] !in h.maps then h.maps
    else
      var g := job.chain[h.inc.filter];
      if Written(h.inc.pc).Some?
      then h.maps[g := h.maps[g][job.id := MapEntry(job.shard, Written(h.inc.pc).value, job.range)]]
      else if h.inc.pc.Delete? then h.maps[g := h.maps[g] - {job.id}]
      else h.maps
  }

  /** The filter that the grant is offered to, if any, has been initialised. */
  predicate Heard(job: Job, h: Held) {
    h.inc.pc.Offered? && h.inc.filter < |job.chain| ==> h.inc.filter in h.inits
  }

  predicate CanGo(job: Job, h: Held, b: Branch) {
    Ready(h.inc, b, Filters(job)) && Heard(job, h)
  }

  /** One event; one that does not concern the task where it is changes nothing. */
  function Proceed(job: Job, h: Held, e: Event): Held {
    match e
    case DriverCloses(l) => h.(inc := Closed(h.inc, l))
    case UserMoves(u) => h.(inc := UserClosed(h.inc, u))
    case OthersWrite(g, entries) => if g in h.maps then h.(maps := h.maps[g := entries]) else h
    case FilterInits(n) => h.(inits := h.inits + {n})
    case Wake(b) => if CanGo(job, h, b) then h.(inc := RunNext(h.inc, b), maps := MapsThen(job, h)) else h
  }

  function StepOf(job: Job): (Held, Event) -> Held {
    (h, e) => Proceed(job, h, e)
  }

  function Ran(job: Job, h: Held, schedule: seq<Event>): Held {
    Fold(StepOf(job), h, schedule)
  }

  lemma RanSnoc(job: Job, h: Held, schedule: seq<Event>, n: nat)
    requires n < |schedule|
    ensures Ran(job, h, schedule[..n + 1]) == Proceed(job, Ran(job, h, schedule[..n]), schedule[n])
  {
    FoldSnoc(StepOf(job), h, schedule, n);
  }

  /** What a later point of the same task keeps: latches stay closed, and a Range that
      was closed before the check still bars `unload`. */
  predicate Later(i: Incarnation, j: Incarnation) {
    && (i.o.load ==> j.o.load) && (i.o.unload ==> j.o.unload) && (i.r.closed ==> j.r.closed)
    && (ClosedInTime(i) ==> ClosedInTime(j))
  }

  lemma ProceedIsLater(job: Job, h: Held, e: Event)
    ensures Later(h.inc, Proceed(job, h, e).inc)
  {}

  lemma {:induction false} RanLater(job: Job, h: Held, schedule: seq<Event>, m: nat, n: nat)
    requires m <= n <= |schedule|
    ensures Later(Ran(job, h, schedule[..m]).inc, Ran(job, h, schedule[..n]).inc)
  {
    if m < n {
      RanLater(job, h, schedule, m, n - 1);
      RanSnoc(job, h, schedule, n - 1);
      OneLater(Ran(job, h, schedule[..m]).inc, job, Ran(job, h, schedule[..n - 1]), schedule[n - 1]);
    }
  }

  lemma OneLater(i: Incarnation, job: Job, h: Held, e: Event)
    requires Later(i, h.inc)
    ensures Later(i, Proceed(job, h, e).inc)
  {
    ProceedIsLater(job, h, e);
  }

  // ---------- What the task waits for ----------

  /** The branches of the `select!` at a point of the task. */
  function BranchesAt(i: Incarnation, filters: nat): set<Branch> {
    match i.pc
    case Unspawned => {}
    case Offered => if i.filter < filters then {Accept, Decline} else {Go}
    case WaitUnload => {OnActive, OnUnloaded, OnRevoked, OnExpired}
    case WaitInit => {OnInitialized, OnExpired, OnRangeClosed}
    case WaitActive => {OnActive, OnRevoked, OnExpired}
    case WaitRevoke => {OnRevoked, OnExpired}
    case Drain => {OnDrainReturned}
    case WaitDrain => {OnDrained, OnExpired}
    case WaitLoad => {OnLoaded, OnExpired}
    case Finished => {}
    case _ => {Go}
  }

  /** Whether the latch behind a branch is closed. */
  predicate Fires(o: Latches, r: RangeLatches, b: Branch) {
    match b
    case OnActive => o.active
    case OnUnloaded => o.unloaded
    case OnRevoked => o.revoked
    case OnExpired => o.expired
    case OnInitialized => r.initialized
    case OnRangeClosed => r.closed
    case OnDrainReturned => r.drainReturned
    case OnDrained => r.drained
    case OnLoaded => o.loaded
    case _ => true
  }

  lemma ReadyIsFiring(i: Incarnation, b: Branch, filters: nat)
    ensures Ready(i, b, filters) <==> b in BranchesAt(i, filters) && Fires(i.o, i.r, b)
  {}

  function LatchesOf(o: Ownership): Latches
    reads o
  {
    Latches(o.active, o.revoked, o.expired, o.unloaded, o.loaded, o.load, o.unload, o.requestRevoke)
  }

  /** The points where a branch decides where to go on and nothing else happens. */
  predicate OnlyWaits(pc: Pc) {
    pc.WaitUnload? || pc.WaitInit? || pc.WaitActive? || pc.WaitRevoke? || pc.Drain? || pc.WaitDrain? || pc.WaitLoad?
  }

  /** Where the branches of those points lead. */
  predicate Reached(pc: Pc, b: Branch, next: Pc) {
    match pc
    case WaitUnload => if b.OnActive? || b.OnUnloaded? then next.PutAllocated? else next.Delete?
    case WaitInit => if b.OnInitialized? then next.Load? else next.Delete?
    case WaitActive => if b.OnActive? then next.PutActive? else next.Delete?
    case WaitRevoke => if b.OnRevoked? then next.PutRevoked? else next.Delete?
    case Drain => next.WaitDrain?
    case WaitDrain => if b.OnDrained? then next.CheckRange? else next.Delete?
    case WaitLoad => next.Delete?
    case _ => true
  }

  lemma WaitOnlyMoves(job: Job, h: Held, b: Branch)
    requires OnlyWaits(h.inc.pc)
    ensures RunNext(h.inc, b) == h.inc.(pc := Target(h.inc, b)) && MapsThen(job, h) == h.maps
    ensures Reached(h.inc.pc, b, Target(h.inc, b))
  {}

  /** The five writes, and where they lead. */
  predicate Puts(pc: Pc, state: GrantState, next: Pc) {
    || (pc.PutAllocated? && state == GrantState.Allocated && next.WaitInit?)
    || (pc.PutLoaded? && state.AllocatedLoaded? && next.WaitActive?)
    || (pc.PutActive? && state.Active? && next.WaitRevoke?)
    || (pc.PutRevoked? && state.Revoked? && next.Drain?)
    || (pc.PutUnloaded? && state.RevokedUnloaded? && next.WaitLoad?)
  }

  datatype Progress = Pending | Bail | On

  function Contents(chain: seq<GrantMap<Range>>): map<GrantMap<Range>, Entries>
    reads chain
  {
    map g | g in chain :: g.inner
  }

  // ---------- The task ----------

  class Task {
    const job: Job
    const ownership: Ownership
    const schedule: seq<Event>
    /** What the clock reads when `drain` is called. */
    const drainClock: Time
    /** How much of the schedule has passed. */
    var at: nat
    ghost const start: Held
    ghost var held: Held

    ghost predicate Tracks(h: Held)
      reads ownership, job.range, job.chain, job.inits
    {
      && LatchesOf(ownership) == h.inc.o && job.range.Latches() == h.inc.r && h.inits == job.inits.done
      && h.maps.Keys == (set g | g in job.chain)
      && (forall g :: g in job.chain ==> h.maps[g] == g.inner)
    }

    /** What has passed of the schedule leads to where the machine is held. */
    ghost predicate UpToDate()
      reads this
    {
      at <= |schedule| && forall n {:trigger schedule[..n]} :: n == at ==> held == Ran(job, start, schedule[..n])
    }

    ghost predicate Valid()
      reads this, ownership, job.range, job.chain, job.inits
    {
      UpToDate() && Tracks(held)
    }

    /** A task that the router has just spawned. */
    constructor (job: Job, ownership: Ownership, schedule: seq<Event>, drainClock: Time, ghost inc: Incarnation)
      requires inc.pc.Arrived? && inc.filter == 0
      requires LatchesOf(ownership) == inc.o && job.range.Latches() == inc.r
      ensures Valid() && this.job == job && this.ownership == ownership && this.schedule == schedule
      ensures at == 0 && held == start == Held(inc, Contents(job.chain), job.inits.done)
    {
      this.job, this.ownership, this.schedule, this.drainClock, at := job, ownership, schedule, drainClock, 0;
      this.start := Held(inc, Contents(job.chain), job.inits.done);
      this.held := Held(inc, Contents(job.chain), job.inits.done);
    }

    /** Another task's turn. */
    method Interfere()
      requires Valid() && at < |schedule| && !schedule[at].Wake?
      modifies this`at, this`held, ownership, job.range, job.chain, job.inits
      ensures Valid() && at == old(at) + 1
      ensures held.inc.pc == old(held).inc.pc && held.inc.filter == old(held).inc.filter
      ensures old(held).inits <= held.inits
    {
      match schedule[at] {
        case DriverCloses(latch) => DriverActs(latch);
        case UserMoves(user) => UserActs(user);
        case OthersWrite(g, entries) => OthersAct(g, entries);
        case FilterInits(n) => InitActs(n);
      }
    }

    method InitActs(n: nat)
      requires Valid() && at < |schedule| && schedule[at] == FilterInits(n)
      modifies this`at, this`held, job.inits
      ensures Valid() && at == old(at) + 1
      ensures held.inc == old(held).inc && old(held).inits <= held.inits
    {
      job.inits.Init(n);
      Pass();
    }

    method DriverActs(latch: DriverLatch)
      requires Valid() && at < |schedule| && schedule[at] == DriverCloses(latch)
      modifies this`at, this`held, ownership
      ensures Valid() && at == old(at) + 1
      ensures held.inc.pc == old(held).inc.pc && held.inc.filter == old(held).inc.filter
      ensures held.inits == old(held).inits
    {
      CloseDriverLatch(latch);
      Pass();
    }

    method UserActs(user: UserLatch)
      requires Valid() && at < |schedule| && schedule[at] == UserMoves(user)
      modifies this`at, this`held, ownership, job.range
      ensures Valid() && at == old(at) + 1
      ensures held.inc.pc == old(held).inc.pc && held.inc.filter == old(held).inc.filter
      ensures held.inits == old(held).inits
    {
      CloseUserLatch(user);
      Pass();
    }

    method OthersAct(g: GrantMap<Range>, entries: Entries)
      requires Valid() && at < |schedule| && schedule[at] == OthersWrite(g, entries)
      modifies this`at, this`held, job.chain
      ensures Valid() && at == old(at) + 1
      ensures held.inc.pc == old(held).inc.pc && held.inc.filter == old(held).inc.filter
      ensures held.inits == old(held).inits
    {
      Overwrite(g, entries);
      Pass();
    }

    method Overwrite(g: GrantMap<Range>, entries: Entries)
      modifies job.chain
      ensures g in job.chain ==> g.inner == entries
      ensures forall p :: p in job.chain && p != g ==> p.inner == old(p.inner)
    {
      if g in job.chain { g.inner := entries; }
    }

    /** The schedule moves on, past an event that has had its effect. */
    method Pass()
      requires at < |schedule| && UpToDate()
      requires Tracks(Proceed(job, held, schedule[at]))
      modifies this`at, this`held
      ensures Valid() && at == old(at) + 1 && held == Proceed(job, old(held), schedule[old(at)])
    {
      Move(Proceed(job, held, schedule[at]));
    }

    method Move(ghost next: Held)
      requires at < |schedule| && UpToDate() && next == Proceed(job, held, schedule[at])
      modifies this`at, this`held
      ensures UpToDate() && at == old(at) + 1 && held == next
    {
      RanSnoc(job, start, schedule, at);
      held := next;
      at := at + 1;
    }

    method CloseDriverLatch(latch: DriverLatch)
      modifies ownership
      ensures LatchesOf(ownership) == old(LatchesOf(ownership)).(
                active := old(ownership.active) || latch.LActive?,
                revoked := old(ownership.revoked) || latch.LRevoked?,
                expired := old(ownership.expired) || latch.LExpired?,
                unloaded := old(ownership.unloaded) || latch.LUnloaded?,
                loaded := old(ownership.loaded) || latch.LLoaded?)
    {
      match latch {
        case LActive => ownership.Activate();
        case LRevoked => ownership.Revoke();
        case LExpired => ownership.Expire();
        case LUnloaded => ownership.CounterpartUnloaded();
        case LLoaded => ownership.CounterpartLoaded();
      }
    }

    method CloseUserLatch(user: UserLatch)
      modifies ownership, job.range
      ensures LatchesOf(ownership) == old(LatchesOf(ownership)).(
                requested := old(ownership.requestRevoke) || user.URequested?)
      ensures job.range.Latches() == RangeLatches(
                old(job.range.initialized) || user.UInitialized?,
                old(job.range.drainReturned) || user.UDrainReturned?,
                old(job.range.drained) || user.UDrained?,
                old(job.range.closed) || user.URangeClosed?)
    {
      match user {
        case UInitialized => job.range.initialized := true;
        case UDrainReturned => job.range.drainReturned := true;
        case UDrained => job.range.drained := true;
        case URangeClosed => job.range.closed := true;
        case URequested => ownership.RequestRevoke();
      }
    }

    /** Waits until the scheduler offers a branch whose latch is closed; `None` when
        the schedule is over first. The branch is not yet taken. */
    method Select(branches: set<Branch>) returns (won: Option<Branch>)
      requires Valid() && branches == BranchesAt(held.inc, Filters(job)) && Heard(job, held)
      modifies this`at, this`held, ownership, job.range, job.chain, job.inits
      ensures Valid() && at >= old(at)
      ensures held.inc.pc == old(held).inc.pc && held.inc.filter == old(held).inc.filter
      ensures won.None? ==> at == |schedule|
      ensures won.Some? ==> won.value in branches && Offered(won.value)
    {
      while at < |schedule|
        invariant Valid() && at >= old(at) && Heard(job, held)
        invariant held.inc.pc == old(held).inc.pc && held.inc.filter == old(held).inc.filter
        decreases |schedule| - at
      {
        if schedule[at].Wake? {
          var b := schedule[at].branch;
          var ready := Consider(branches, b);
          if ready { return Some(b); }
        } else {
          Interfere();
        }
      }
      won := None;
    }

    /** The scheduler offers a branch; unless it can be taken, nothing happens. */
    method Consider(branches: set<Branch>, b: Branch) returns (ready: bool)
      requires Valid() && branches == BranchesAt(held.inc, Filters(job)) && Heard(job, held)
      requires at < |schedule| && schedule[at] == Wake(b)
      modifies this`at, this`held
      ensures Valid() && held == old(held)
      ensures if ready then b in branches && Offered(b) && at == old(at) else at == old(at) + 1
    {
      ReadyIsFiring(held.inc, b, Filters(job));
      ready := b in branches && Fires(LatchesOf(ownership), job.range.Latches(), b);
      if !ready { Pass(); }
    }

    /** The scheduler offers branch `b`, and it is ready. */
    ghost predicate Offered(b: Branch)
      reads this
    {
      at < |schedule| && schedule[at] == Wake(b) && CanGo(job, held, b)
    }

    /** Takes the offered branch; its effect on the latches and maps has been done. */
    method Advance(b: Branch)
      requires at < |schedule| && UpToDate() && Offered(b)
      requires Tracks(held.(inc := RunNext(held.inc, b), maps := MapsThen(job, held)))
      modifies this`at, this`held
      ensures Valid() && at == old(at) + 1
      ensures held.inc == RunNext(old(held).inc, b)
    {
      Pass();
    }

    /** Waits at a `select!` whose branches only decide where to go on. */
    method Await(branches: set<Branch>) returns (won: Option<Branch>)
      requires Valid() && branches == BranchesAt(held.inc, Filters(job)) && OnlyWaits(held.inc.pc)
      modifies this`at, this`held, ownership, job.range, job.chain, job.inits
      ensures Valid() && at >= old(at) && held.inc.filter == old(held).inc.filter
      ensures won.None? ==> at == |schedule|
      ensures won.Some? ==> won.value in branches && Reached(old(held).inc.pc, won.value, held.inc.pc)
    {
      won := Select(branches);
      if won.Some? {
        WaitOnlyMoves(job, held, won.value);
        Advance(won.value);
      }
    }

    /** Waits for the scheduler; false when the schedule is over first. */
    method MyTurn() returns (ok: bool)
      requires Valid() && BranchesAt(held.inc, Filters(job)) == {Go}
      modifies this`at, this`held, ownership, job.range, job.chain, job.inits
      ensures Valid() && at >= old(at)
      ensures held.inc.pc == old(held).inc.pc && held.inc.filter == old(held).inc.filter
      ensures if ok then Offered(Go) else at == |schedule|
    {
      var won := Select({Go});
      ok := won.Some?;
    }

    /** The GrantMap is that of the filter that accepted the grant. */
    ghost predicate Uses(grants: GrantMap<Range>)
      reads this
    {
      held.inc.filter < |job.chain| && job.chain[held.inc.filter] == grants
    }

    /** Where the task is now, or that the schedule is over. */
    ghost predicate At(ok: bool, pc: Pc)
      reads this
    {
      if ok then held.inc.pc == pc else at == |schedule|
    }

    // ---------- Single operations ----------

    /** One of the five writes to the GrantMap. */
    method Put(grants: GrantMap<Range>, state: GrantState, ghost next: Pc) returns (ok: bool)
      requires Valid() && Uses(grants) && Puts(held.inc.pc, state, next)
      modifies this`at, this`held, ownership, job.range, job.chain, job.inits
      ensures Valid() && at >= old(at) && Uses(grants) && At(ok, next)
    {
      ok := MyTurn();
      if ok { PutNow(grants, state, next); }
    }

    method PutNow(grants: GrantMap<Range>, state: GrantState, ghost next: Pc)
      requires Valid() && Uses(grants) && Puts(held.inc.pc, state, next) && Offered(Go)
      modifies this`at, this`held, grants
      ensures Valid() && at >= old(at) && Uses(grants) && held.inc.pc == next
    {
      WriteState(grants, state);
      Advance(Go);
    }

    method WriteState(grants: GrantMap<Range>, state: GrantState)
      requires !state.Unknown?
      modifies grants
      ensures grants.inner == old(grants.inner)[job.id := MapEntry(job.shard, state, job.range)]
    {
      match state {
        case Allocated => grants.Allocated(job.id, job.shard, job.range);
        case AllocatedLoaded => grants.Loaded(job.id, job.shard, job.range);
        case Active => grants.Activate(job.id, job.shard, job.range);
        case Revoked => grants.Revoke(job.id, job.shard, job.range);
        case RevokedUnloaded => grants.Unloaded(job.id, job.shard, job.range);
      }
    }

    method CallLoad() returns (ok: bool)
      requires Valid() && held.inc.pc.Load?
      modifies this`at, this`held, ownership, job.range, job.chain, job.inits
      ensures Valid() && at >= old(at) && held.inc.filter == old(held).inc.filter && At(ok, PutLoaded)
      ensures ok ==> ownership.load
    {
      ok := MyTurn();
      if ok { CallLoadNow(); }
    }

    method CallLoadNow()
      requires Valid() && held.inc.pc.Load? && Offered(Go)
      modifies this`at, this`held, ownership
      ensures Valid() && at >= old(at) && held.inc.filter == old(held).inc.filter && held.inc.pc == PutLoaded
      ensures ownership.load
    {
      ownership.Load();
      Advance(Go);
    }

    method CallUnload() returns (ok: bool)
      requires Valid() && held.inc.pc.Unload?
      modifies this`at, this`held, ownership, job.range, job.chain, job.inits
      ensures Valid() && at >= old(at) && held.inc.filter == old(held).inc.filter && At(ok, PutUnloaded)
      ensures ok ==> ownership.unload
    {
      ok := MyTurn();
      if ok { CallUnloadNow(); }
    }

    method CallUnloadNow()
      requires Valid() && held.inc.pc.Unload? && Offered(Go)
      modifies this`at, this`held, ownership
      ensures Valid() && at >= old(at) && held.inc.filter == old(held).inc.filter && held.inc.pc == PutUnloaded
      ensures ownership.unload
    {
      ownership.Unload();
      Advance(Go);
    }

    method CheckRangeClosed() returns (ok: bool, over: bool)
      requires Valid() && held.inc.pc.CheckRange?
      modifies this`at, this`held, ownership, job.range, job.chain, job.inits
      ensures Valid() && at >= old(at) && held.inc.filter == old(held).inc.filter
      ensures At(ok, if over then Delete else Unload)
      ensures ok ==> over == job.range.closed
    {
      over := false;
      ok := MyTurn();
      if ok { over := CheckRangeNow(); }
    }

    method CheckRangeNow() returns (over: bool)
      requires Valid() && held.inc.pc.CheckRange? && Offered(Go)
      modifies this`at, this`held
      ensures Valid() && at >= old(at) && held.inc.filter == old(held).inc.filter
      ensures held.inc.pc == if over then Delete else Unload
      ensures over == job.range.closed
    {
      over := job.range.closed;
      Advance(Go);
    }

    method DeleteEntry(grants: GrantMap<Range>) returns (ok: bool)
      requires Valid() && Uses(grants) && held.inc.pc.Delete?
      modifies this`at, this`held, ownership, job.range, job.chain, job.inits
      ensures Valid() && at >= old(at) && At(ok, CloseRange)
    {
      ok := MyTurn();
      if ok { DeleteNow(grants); }
    }

    method DeleteNow(grants: GrantMap<Range>)
      requires Valid() && Uses(grants) && held.inc.pc.Delete? && Offered(Go)
      modifies this`at, this`held, grants
      ensures Valid() && at >= old(at) && held.inc.pc.CloseRange?
    {
      var _ := grants.Delete(job.id);
      Advance(Go);
    }

    method CloseRangeInTurn() returns (ok: bool)
      requires Valid() && held.inc.pc.CloseRange?
      modifies this`at, this`held, ownership, job.range, job.chain, job.inits
      ensures Valid() && at >= old(at) && At(ok, Finished) && (ok ==> job.range.closed)
    {
      ok := MyTurn();
      if ok { ShutRange(); }
    }

    method ShutRange()
      requires Valid() && held.inc.pc.CloseRange? && Offered(Go)
      modifies this`at, this`held, job.range
      ensures Valid() && at >= old(at) && held.inc.pc == Finished && job.range.closed
    {
      job.range.closed := true;
      Advance(Go);
    }

    // ---------- The run ----------

    /** Steps 1 and 2: the counterpart has unloaded, or the grant is active outright;
        the Range initialises; `load`. */
    method TakeOver(grants: GrantMap<Range>) returns (r: Progress)
      requires Valid() && Uses(grants) && held.inc.pc.WaitUnload?
      modifies this`at, this`held, ownership, job.range, job.chain, job.inits
      ensures Valid() && at >= old(at) && Uses(grants) && Came(r, WaitActive)
    {
      var won := Await({OnActive, OnUnloaded, OnRevoked, OnExpired});
      if won.None? { return Pending; }
      if won.value.OnRevoked? || won.value.OnExpired? { return Bail; }
      var ok := Put(grants, Allocated, WaitInit);
      if !ok { return Pending; }
      won := Await({OnInitialized, OnExpired, OnRangeClosed});
      if won.None? { return Pending; }
      if !won.value.OnInitialized? { return Bail; }
      ok := CallLoad();
      if !ok { return Pending; }
      ok := Put(grants, AllocatedLoaded, WaitActive);
      r := if ok then On else Pending;
    }

    ghost predicate Came(r: Progress, next: Pc)
      reads this
    {
      match r
      case Pending => at == |schedule|
      case Bail => held.inc.pc.Delete?
      case On => held.inc.pc == next
    }

    /** Steps 3 and 4: activation, then revocation. */
    method Serve(grants: GrantMap<Range>) returns (r: Progress)
      requires Valid() && Uses(grants) && held.inc.pc.WaitActive?
      modifies this`at, this`held, ownership, job.range, job.chain, job.inits
      ensures Valid() && at >= old(at) && Uses(grants) && Came(r, Drain)
    {
      var won := Await({OnActive, OnRevoked, OnExpired});
      if won.None? { return Pending; }
      if !won.value.OnActive? { return Bail; }
      var ok := Put(grants, Active, WaitRevoke);
      if !ok { return Pending; }
      won := Await({OnRevoked, OnExpired});
      if won.None? { return Pending; }
      if !won.value.OnRevoked? { return Bail; }
      ok := Put(grants, Revoked, Drain);
      r := if ok then On else Pending;
    }

    /** A Range that was closed before the check of step 5 bars `unload`. */
    ghost predicate Barred(closed: bool, unload: bool)
      reads ownership, job.range
    {
      closed && !unload ==> job.range.closed && !ownership.unload
    }

    /** At whichever point of the schedule that was. */
    ghost predicate BarredThroughout()
      reads this, ownership, job.range
    {
      at <= |schedule| &&
      forall n: nat {:trigger schedule[..n]} :: n <= at ==>
        ClosedInTime(Ran(job, start, schedule[..n]).inc) ==> job.range.closed && !ownership.unload
    }

    lemma ClosedRangesBar()
      requires Valid()
      ensures BarredThroughout()
    {
      forall n: nat {:trigger schedule[..n]} | n <= at && ClosedInTime(Ran(job, start, schedule[..n]).inc)
        ensures job.range.closed && !ownership.unload
      {
        RanLater(job, start, schedule, n, at);
      }
    }

    /** What has passed since `from`, when the machine was held at `was`. */
    lemma SincePassed(from: nat, was: Held)
      requires UpToDate() && from <= at && was == Ran(job, start, schedule[..from])
      ensures Later(was.inc, held.inc)
    {
      RanLater(job, start, schedule, from, at);
    }

    /** The call of `drain`, with what is left of the lease; and step 5: the drain
        completes, `unload` if the Range has not closed itself, and the successor has
        loaded. */
    method GiveUp(grants: GrantMap<Range>) returns (r: Progress, timeout: Time)
      requires Valid() && Uses(grants) && held.inc.pc.Drain?
      modifies this`at, this`held, ownership, job.range, job.chain, job.inits
      ensures Valid() && at >= old(at) && Uses(grants) && Came(r, Delete)
      ensures timeout >= 0
      ensures old(ownership.expiration) >= drainClock ==> drainClock + timeout == old(ownership.expiration)
      ensures old(ownership.expiration) < drainClock ==> timeout == 0
      ensures Barred(old(job.range.closed), old(ownership.unload)) && (r.On? ==> ownership.unload)
      ensures BarredThroughout()
    {
      timeout := if ownership.expiration > drainClock then ownership.expiration - drainClock else 0;
      ghost var from, was := at, held;
      r := DrainAndLetGo(grants);
      SincePassed(from, was);
      ClosedRangesBar();
    }

    method DrainAndLetGo(grants: GrantMap<Range>) returns (r: Progress)
      requires Valid() && Uses(grants) && held.inc.pc.Drain?
      modifies this`at, this`held, ownership, job.range, job.chain, job.inits
      ensures Valid() && at >= old(at) && Uses(grants) && Came(r, Delete) && (r.On? ==> ownership.unload)
    {
      var won := Await({OnDrainReturned});
      if won.None? { return Pending; }
      won := Await({OnDrained, OnExpired});
      if won.None? { return Pending; }
      if !won.value.OnDrained? { return Bail; }
      r := LetGo(grants);
    }

    /** The check of the Range, and what follows if it is open. */
    method LetGo(grants: GrantMap<Range>) returns (r: Progress)
      requires Valid() && Uses(grants) && held.inc.pc.CheckRange?
      modifies this`at, this`held, ownership, job.range, job.chain, job.inits
      ensures Valid() && at >= old(at) && Uses(grants) && Came(r, Delete)
      ensures (r.Bail? ==> job.range.closed) && (r.On? ==> ownership.unload)
    {
      var ok, over := CheckRangeClosed();
      if !ok { return Pending; }
      if over { return Bail; }
      r := UnloadAndWait(grants);
    }

    method UnloadAndWait(grants: GrantMap<Range>) returns (r: Progress)
      requires Valid() && Uses(grants) && held.inc.pc.Unload?
      modifies this`at, this`held, ownership, job.range, job.chain, job.inits
      ensures Valid() && at >= old(at) && Uses(grants) && !r.Bail? && Came(r, Delete)
      ensures r.On? ==> ownership.unload
    {
      var ok := CallUnload();
      if !ok { return Pending; }
      ghost var from, was := at, held;
      ok := Put(grants, RevokedUnloaded, WaitLoad);
      if !ok { return Pending; }
      var won := Await({OnLoaded, OnExpired});
      r := if won.Some? then On else Pending;
      SincePassed(from, was);
    }

    /** The cleanup guard: deletes the grant and closes the Range. */
    method DropCleanup(grants: GrantMap<Range>) returns (finished: bool)
      requires Valid() && Uses(grants) && held.inc.pc.Delete?
      modifies this`at, this`held, ownership, job.range, job.chain, job.inits
      ensures Valid() && at >= old(at) && At(finished, Finished) && (finished ==> job.range.closed)
    {
      finished := DeleteEntry(grants);
      if finished { finished := CloseRangeInTurn(); }
    }

    method RunGrant(grants: GrantMap<Range>) returns (finished: bool)
      requires Valid() && Uses(grants) && held.inc.pc.WaitUnload?
      modifies this`at, this`held, ownership, job.range, job.chain, job.inits
      ensures Valid() && at >= old(at) && At(finished, Finished) && (finished ==> job.range.closed)
      ensures Barred(old(job.range.closed), old(ownership.unload)) && BarredThroughout()
    {
      ghost var from, was := at, held;
      var r := TakeOver(grants);
      if r.On? { r := Serve(grants); }
      if r.On? {
        var timeout;
        r, timeout := GiveUp(grants);
      }
      finished := false;
      if !r.Pending? { finished := DropCleanup(grants); }
      SincePassed(from, was);
      ClosedRangesBar();
    }

    /** Waits for the `init` of the n-th filter; false when the schedule is over first. */
    method AwaitInit(n: nat) returns (ok: bool)
      requires Valid() && held.inc.pc.Offered? && held.inc.filter == n < |job.chain|
      modifies this`at, this`held, ownership, job.range, job.chain, job.inits
      ensures Valid() && at >= old(at) && held.inc.pc.Offered? && held.inc.filter == n
      ensures if ok then Heard(job, held) else at == |schedule|
    {
      while n !in job.inits.done && at < |schedule|
        invariant Valid() && at >= old(at) && held.inc.pc.Offered? && held.inc.filter == n
        decreases |schedule| - at
      {
        if schedule[at].Wake? { Pass(); } else { Interfere(); }
      }
      ok := n in job.inits.done;
    }

    /** A Processor of the chain: once initialised, its factory accepts the grant, and the Processor
        runs it, or it declines. */
    method TryHandle(n: nat) returns (answer: Answer)
      requires Valid() && held.inc.pc.Offered? && held.inc.filter == n < |job.chain|
      modifies this`at, this`held, ownership, job.range, job.chain, job.inits
      ensures Valid() && at >= old(at)
      ensures match answer
              case Waiting => at == |schedule|
              case Handled => held.inc.pc.Finished? && job.range.closed
              case Declined => held.inc.pc.Offered? && held.inc.filter == n + 1
    {
      var initialized := AwaitInit(n);
      if !initialized { return Waiting; }
      var won := Select({Accept, Decline});
      if won.None? { return Waiting; }
      Decide(won.value);
      if won.value.Decline? { return Declined; }
      var finished := RunGrant(job.chain[n]);
      answer := if finished then Handled else Waiting;
    }

    /** The factory's answer. */
    method Decide(b: Branch)
      requires Valid() && held.inc.pc.Offered? && held.inc.filter < |job.chain| && (b.Accept? || b.Decline?) && Offered(b)
      modifies this`at, this`held
      ensures Valid() && at >= old(at)
      ensures b.Accept? ==> held.inc.pc.WaitUnload? && held.inc.filter == old(held).inc.filter
      ensures b.Decline? ==> held.inc.pc.Offered? && held.inc.filter == old(held).inc.filter + 1
    {
      Advance(b);
    }

    method CheckExpired() returns (ok: bool, expired: bool)
      requires Valid() && held.inc.pc.Arrived? && held.inc.filter == 0
      modifies this`at, this`held, ownership, job.range, job.chain, job.inits
      ensures Valid() && at >= old(at) && held.inc.filter == 0
      ensures At(ok, if expired then Finished else Pc.Offered)
    {
      expired := false;
      ok := MyTurn();
      if ok { expired := CheckExpiredNow(); }
    }

    method CheckExpiredNow() returns (expired: bool)
      requires Valid() && held.inc.pc.Arrived? && held.inc.filter == 0 && Offered(Go)
      modifies this`at, this`held
      ensures Valid() && at >= old(at) && held.inc.filter == 0
      ensures held.inc.pc == if expired then Finished else Pc.Offered
    {
      expired := ownership.expired;
      Advance(Go);
    }

    method CallRequestRevoke() returns (ok: bool)
      requires Valid() && held.inc.pc.Offered? && held.inc.filter == |job.chain|
      modifies this`at, this`held, ownership, job.range, job.chain, job.inits
      ensures Valid() && at >= old(at) && At(ok, Finished)
    {
      ok := MyTurn();
      if ok { CallRequestRevokeNow(); }
    }

    method CallRequestRevokeNow()
      requires Valid() && held.inc.pc.Offered? && held.inc.filter == |job.chain| && Offered(Go)
      modifies this`at, this`held, ownership
      ensures Valid() && at >= old(at) && held.inc.pc == Finished
    {
      ownership.RequestRevoke();
      Advance(Go);
    }

    /** The dispatcher's task for a grant. */
    method RunChain() returns (finished: bool)
      requires Valid() && held.inc.pc.Arrived? && held.inc.filter == 0
      modifies this`at, this`held, ownership, job.range, job.chain, job.inits
      ensures Valid() && at >= old(at) && At(finished, Finished)
    {
      var expired: bool;
      finished, expired := CheckExpired();
      if !finished || expired { return; }
      var n := 0;
      while n < |job.chain|
        invariant Valid() && at >= old(at) && held.inc.pc.Offered? && held.inc.filter == n <= |job.chain|
      {
        var answer := TryHandle(n);
        if !answer.Declined? { return answer.Handled?; }
        n := n + 1;
      }
      finished := CallRequestRevoke();
    }
  }

  datatype Answer = Waiting | Handled | Declined
}
