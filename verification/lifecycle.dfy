/** Every task around a grant, at the grain of single shared-memory operations:
    the dispatcher's chain of filters, the Processor's run, the three signal
    watchers, the user's Range, and whoever closes the driver's latches. The
    filters of the chain are Processors; each has its own GrantMap.

    Nothing is assumed about the order in which tasks step. A `select!` may take
    any branch whose latch is closed. Latches the driver owns may close at any
    time here; the Consumer module says when its driver closes them. */
module Lifecycle {
  import opened Ids

  /** One Assign of one grant at one consumer. */
  datatype Key = Key(consumer: nat, id: GrantId, inc: nat)

  /** A place in the GrantMap of one filter of one consumer. */
  datatype Slot = Slot(consumer: nat, filter: nat, id: GrantId)

  datatype Latches = Latches(
    active: bool, revoked: bool, expired: bool,   // closed by the driver (or the timer)
    unloaded: bool, loaded: bool,                 // closed by the driver on Notify
    load: bool, unload: bool, requested: bool)    // closed by the Processor or the user

  datatype RangeLatches = RangeLatches(initialized: bool, drainReturned: bool, drained: bool, closed: bool)

  /** Where a task running the chain stands. */
  datatype Pc =
    | Unspawned
    | Arrived          // about to look at `expired`
    | Offered          // at filter `filter` of the chain
    | WaitUnload       // step 1
    | PutAllocated
    | WaitInit         // step 2
    | Load
    | PutLoaded
    | WaitActive       // step 3
    | PutActive
    | WaitRevoke       // step 4
    | PutRevoked
    | Drain            // inside the user's `drain`
    | WaitDrain        // step 5
    | CheckRange
    | Unload
    | PutUnloaded
    | WaitLoad
    | Delete           // dropping the cleanup guard
    | CloseRange
    | Finished

  datatype Signal = LoadSignal | UnloadSignal | RequestSignal
  datatype Watcher = Watching | Sending | Done
  datatype Watchers = Watchers(load: Watcher, unload: Watcher, request: Watcher)

  datatype Incarnation = Incarnation(
    grant: RawGrant,
    o: Latches,
    r: RangeLatches,
    pc: Pc,
    filter: nat,               // the filter the chain is at
    declined: set<nat>,        // filters whose factory declined
    writes: seq<GrantState>,   // what the run wrote to its GrantMap
    userRequested: bool,       // the user called `request_revoke`
    watchers: Watchers)

  /** A GrantMap entry; its value is the Range of the run that wrote it. */
  datatype Entry = Entry(state: GrantState, owner: Key)

  /** An outbound message, with the grant it carries. */
  datatype Out = Out(key: Key, signal: Signal, grant: RawGrant)

  datatype World = World(
    filters: nat,
    incs: map<Key, Incarnation>,
    maps: map<Slot, Entry>,
    out: seq<Out>)

  datatype DriverLatch = LActive | LRevoked | LExpired | LUnloaded | LLoaded
  datatype UserLatch = UInitialized | UDrainReturned | UDrained | URangeClosed | URequested

  datatype Branch =
    | Go | Accept | Decline
    | OnActive | OnUnloaded | OnRevoked | OnExpired | OnInitialized | OnRangeClosed | OnDrainReturned | OnDrained
    | OnLoaded

  datatype WatchStep = Fire | Send | Expire | Abort

  datatype Action =
    | Assign(key: Key, grant: RawGrant, o: Latches)
    | Close(key: Key, latch: DriverLatch)
    | UserCloses(key: Key, user: UserLatch)
    | Spawn(key: Key)
    | Run(key: Key, branch: Branch)
    | Watch(key: Key, signal: Signal, step: WatchStep)

  const LIFECYCLE: seq<GrantState> := [Allocated, AllocatedLoaded, Active, Revoked, RevokedUnloaded]

  // ---------- One run ----------

  function SlotOf(key: Key, i: Incarnation): Slot { Slot(key.consumer, i.filter, key.id) }

  /** The run holds its grant: a filter accepted it and has not cleaned up. */
  predicate Live(pc: Pc) {
    match pc
    case Unspawned => false
    case Arrived => false
    case Offered => false
    case CloseRange => false
    case Finished => false
    case _ => true
  }

  /** Which branch the task can take next, with `filters` filters in the chain. */
  predicate Ready(i: Incarnation, b: Branch, filters: nat) {
    match i.pc
    case Unspawned => false
    case Offered => if i.filter < filters then b.Accept? || b.Decline? else b.Go?
    case WaitUnload =>
      || (b.OnActive? && i.o.active) || (b.OnUnloaded? && i.o.unloaded)
      || (b.OnRevoked? && i.o.revoked) || (b.OnExpired? && i.o.expired)
    case WaitInit =>
      (b.OnInitialized? && i.r.initialized) || (b.OnExpired? && i.o.expired) || (b.OnRangeClosed? && i.r.closed)
    case WaitActive =>
      (b.OnActive? && i.o.active) || (b.OnRevoked? && i.o.revoked) || (b.OnExpired? && i.o.expired)
    case WaitRevoke => (b.OnRevoked? && i.o.revoked) || (b.OnExpired? && i.o.expired)
    case Drain => b.OnDrainReturned? && i.r.drainReturned
    case WaitDrain => (b.OnDrained? && i.r.drained) || (b.OnExpired? && i.o.expired)
    case WaitLoad => (b.OnLoaded? && i.o.loaded) || (b.OnExpired? && i.o.expired)
    case Finished => false
    case _ => b.Go?
  }

  /** The state written at a step that writes to the GrantMap. */
  function Written(pc: Pc): Option<GrantState> {
    match pc
    case PutAllocated => Some(Allocated)
    case PutLoaded => Some(AllocatedLoaded)
    case PutActive => Some(Active)
    case PutRevoked => Some(Revoked)
    case PutUnloaded => Some(RevokedUnloaded)
    case _ => None
  }

  /** The control flow of the run. */
  function Target(i: Incarnation, b: Branch): Pc {
    match i.pc
    case Unspawned => Unspawned
    case Arrived => if i.o.expired then Finished else Offered
    case Offered => if b.Accept? then WaitUnload else if b.Decline? then Offered else Finished
    case WaitUnload => if b.OnActive? || b.OnUnloaded? then PutAllocated else Delete
    case PutAllocated => WaitInit
    case WaitInit => if b.OnInitialized? then Load else Delete
    case Load => PutLoaded
    case PutLoaded => WaitActive
    case WaitActive => if b.OnActive? then PutActive else Delete
    case PutActive => WaitRevoke
    case WaitRevoke => if b.OnRevoked? then PutRevoked else Delete
    case PutRevoked => Drain
    case Drain => WaitDrain
    case WaitDrain => if b.OnDrained? then CheckRange else Delete
    case CheckRange => if i.r.closed then Delete else Unload
    case Unload => PutUnloaded
    case PutUnloaded => WaitLoad
    case WaitLoad => Delete
    case Delete => CloseRange
    case CloseRange => Finished
    case Finished => Finished
  }

  /** One step of the run: where it goes, what it writes, which latches it closes. */
  function RunNext(i: Incarnation, b: Branch): Incarnation {
    var declines := i.pc.Offered? && b.Decline?;
    i.(pc := Target(i, b),
       filter := if declines then i.filter + 1 else i.filter,
       declined := if declines then i.declined + {i.filter} else i.declined,
       writes := if Written(i.pc).Some? then i.writes + [Written(i.pc).value] else i.writes,
       o := i.o.(load := i.o.load || i.pc.Load?,
                 unload := i.o.unload || i.pc.Unload?,
                 requested := i.o.requested || (i.pc.Offered? && b.Go?)),
       r := i.r.(closed := i.r.closed || i.pc.CloseRange?))
  }

  // ---------- Watchers ----------

  function SignalLatch(i: Incarnation, s: Signal): bool {
    match s
    case LoadSignal => i.o.load
    case UnloadSignal => i.o.unload
    case RequestSignal => i.o.requested
  }

  function WatcherOf(i: Incarnation, s: Signal): Watcher {
    match s
    case LoadSignal => i.watchers.load
    case UnloadSignal => i.watchers.unload
    case RequestSignal => i.watchers.request
  }

  function SetWatcher(i: Incarnation, s: Signal, w: Watcher): Incarnation {
    i.(watchers := Watchers(if s.LoadSignal? then w else i.watchers.load,
                            if s.UnloadSignal? then w else i.watchers.unload,
                            if s.RequestSignal? then w else i.watchers.request))
  }

  /** The grant a watcher sends: the one assigned, with the state it reports. */
  function SentGrant(g: RawGrant, s: Signal): RawGrant {
    match s
    case LoadSignal => g.(state := 4)
    case UnloadSignal => g.(state := 5)
    case RequestSignal => g
  }

  // ---------- The world ----------

  predicate Enabled(w: World, a: Action) {
    match a
    case Assign(key, _, o) => key !in w.incs && !o.load && !o.unload && !o.requested && !o.loaded && !o.unloaded
    case Close(key, _) => key in w.incs
    case UserCloses(key, _) => key in w.incs
    case Spawn(key) => key in w.incs && w.incs[key].pc.Unspawned?
    case Run(key, b) => key in w.incs && Ready(w.incs[key], b, w.filters)
    case Watch(key, s, step) =>
      key in w.incs &&
      match step
      case Fire => WatcherOf(w.incs[key], s).Watching? && SignalLatch(w.incs[key], s)
      case Send => WatcherOf(w.incs[key], s).Sending?
      case Expire => WatcherOf(w.incs[key], s).Watching? && w.incs[key].o.expired
      case Abort => true
  }

  function Closed(i: Incarnation, l: DriverLatch): Incarnation {
    i.(o := i.o.(active := i.o.active || l.LActive?,
                 revoked := i.o.revoked || l.LRevoked?,
                 expired := i.o.expired || l.LExpired?,
                 unloaded := i.o.unloaded || l.LUnloaded?,
                 loaded := i.o.loaded || l.LLoaded?))
  }

  function UserClosed(i: Incarnation, u: UserLatch): Incarnation {
    i.(r := i.r.(initialized := i.r.initialized || u.UInitialized?,
                 drainReturned := i.r.drainReturned || u.UDrainReturned?,
                 drained := i.r.drained || u.UDrained?,
                 closed := i.r.closed || u.URangeClosed?),
       o := i.o.(requested := i.o.requested || u.URequested?),
       userRequested := i.userRequested || u.URequested?)
  }

  function Fresh(g: RawGrant, o: Latches): Incarnation {
    Incarnation(g, o, RangeLatches(false, false, false, false), Unspawned, 0, {}, [], false,
                Watchers(Watching, Watching, Watching))
  }

  function Watched(i: Incarnation, s: Signal, step: WatchStep): Incarnation {
    SetWatcher(i, s, if step.Fire? then Sending else Done)
  }

  /** The GrantMaps after a step of the run under `key`. */
  function MapsAfter(maps: map<Slot, Entry>, key: Key, i: Incarnation): map<Slot, Entry> {
    if Written(i.pc).Some? then maps[SlotOf(key, i) := Entry(Written(i.pc).value, key)]
    else if i.pc.Delete? then maps - {SlotOf(key, i)}
    else maps
  }

  function Next(w: World, a: Action): World
    requires Enabled(w, a)
  {
    match a
    case Assign(key, g, o) => w.(incs := w.incs[key := Fresh(g, o)])
    case Close(key, l) => w.(incs := w.incs[key := Closed(w.incs[key], l)])
    case UserCloses(key, u) => w.(incs := w.incs[key := UserClosed(w.incs[key], u)])
    case Spawn(key) => w.(incs := w.incs[key := w.incs[key].(pc := Arrived)])
    case Run(key, b) =>
      w.(incs := w.incs[key := RunNext(w.incs[key], b)],
         maps := MapsAfter(w.maps, key, w.incs[key]))
    case Watch(key, s, step) =>
      w.(incs := w.incs[key := Watched(w.incs[key], s, step)],
         out := if step.Send? then w.out + [Out(key, s, SentGrant(w.incs[key].grant, s))] else w.out)
  }

  predicate Initial(w: World) {
    w.incs == map[] && w.maps == map[] && w.out == []
  }

  predicate Runs(w: World, run: seq<Action>)
    decreases |run|
  {
    run == [] || (Enabled(w, run[0]) && Runs(Next(w, run[0]), run[1..]))
  }

  function After(w: World, run: seq<Action>): World
    requires Runs(w, run)
    decreases |run|
  {
    if run == [] then w else After(Next(w, run[0]), run[1..])
  }

  // ---------- Putting runs together ----------

  lemma RunsCons(w: World, a: Action, rest: seq<Action>)
    requires Enabled(w, a) && Runs(Next(w, a), rest)
    ensures Runs(w, [a] + rest) && After(w, [a] + rest) == After(Next(w, a), rest)
  {
    assert ([a] + rest)[1..] == rest;
  }

  lemma RunsOne(w: World, a: Action)
    requires Enabled(w, a)
    ensures Runs(w, [a]) && After(w, [a]) == Next(w, a)
  {
    assert [a][1..] == [];
    assert Runs(Next(w, a), []) && After(Next(w, a), []) == Next(w, a);
  }

  lemma {:induction false} RunsThen(w: World, a: seq<Action>, b: seq<Action>)
    requires Runs(w, a) && Runs(After(w, a), b)
    ensures Runs(w, a + b) && After(w, a + b) == After(After(w, a), b)
    decreases |a|
  {
    if a == [] {
      assert a + b == b;
    } else {
      assert (a + b)[1..] == a[1..] + b;
      RunsThen(Next(w, a[0]), a[1..], b);
    }
  }
}
