/** Any number of consumers, each with its driver and its tasks, and a coordinator
    that relays between them. The coordinator is not part of the repository; what
    it may send is the contract its protocol states. */
module Fleet {
  import opened Ids
  import opened Folds
  import opened Lifecycle
  import S = Consumer

  /** An item on its way to a consumer. Items may be lost, reordered and repeated. */
  datatype Parcel = Parcel(consumer: nat, item: S.Item)

  datatype Fleet = Fleet(
    w: World,                          // the tasks of all consumers
    drivers: map<nat, S.Table>,        // the drivers that did something
    source: map<GrantId, GrantId>,     // an allocated grant and its revoked counterpart
    sent: set<Parcel>,
    received: set<RawGrant>,           // grants of the Updates the coordinator has read
    lapsed: set<GrantId>)              // grants whose lease the coordinator saw lapse

  datatype Act =
    | Task(action: Action)             // any step of a run, a watcher or a user
    | Timer(key: Key)                  // an expiration timer fires
    | Send(parcel: Parcel)
    | Deliver(parcel: Parcel)
    | Remove(consumer: nat, id: GrantId)   // a driver removes an entry
    | Shut(consumer: nat)                  // a driver ends, its table empty
    | Receive(n: nat)                  // the coordinator reads an Update
    | Lapse(id: GrantId)

  function DriverOf(f: Fleet, c: nat): S.Table {
    if c in f.drivers then f.drivers[c] else S.EMPTY
  }

  // ---------- The coordinator ----------

  /** `b` may become active: it takes over from nobody, or its counterpart was
      reported unloaded, or that counterpart's lease lapsed. */
  predicate MayActivate(f: Fleet, b: GrantId) {
    b in f.source ==> f.source[b] in f.lapsed || exists u :: u in f.received && u.id == f.source[b] && u.state == 5
  }

  /** A Notify relays an Update that was read, to the counterpart of its grant. */
  predicate MayNotify(f: Fleet, update: RawGrant, target: GrantId) {
    && (update.state == 5 ==> update in f.received && target in f.source && f.source[target] == update.id)
    && (update.state == 4 ==> update in f.received && update.id in f.source && f.source[update.id] == target)
  }

  /** What the coordinator may send. Timers and the driver's exit are not messages. */
  predicate MaySend(f: Fleet, i: S.Item) {
    match i
    case IAssign(g, _, _) => GrantStateFromI32(g.state).Active? ==> MayActivate(f, g.id)
    case IPromote(g) => MayActivate(f, g.id)
    case IRevoke(_) => true
    case INotify(update, target) =>
      update.Some? && target.Some? ==> MayNotify(f, update.value, target.value.id)
    case IExtend(_) => true
    case ITimer(_, _) => false
    case IRemove(_) => false
    case IClose => false
  }

  // ---------- What a driver's item does to the tasks ----------

  function LatchesOf(o: S.Own): Latches {
    Latches(o.active, o.revoked, o.expired, o.unloaded, o.loaded, false, false, false)
  }

  /** Closing a latch of the grant in the table, if there is one. */
  function CloseCurrent(c: nat, s: S.State, id: GrantId, l: DriverLatch): Option<Action> {
    if id in s.table then Some(Close(Key(c, id, s.table[id].inc), l)) else None
  }

  /** The item would replace an entry of the table. */
  predicate Replaces(s: S.State, i: S.Item) {
    i.IAssign? && S.AssignedShard(i.grant).Some? && i.grant.id in s.table
  }

  /** The latch the driver of `c` closes on `i`, or the Ownership it hands out. An
      Assign that would replace an entry is not done before that entry is removed. */
  function ActionOf(c: nat, s: S.State, i: S.Item): Option<Action> {
    match i
    case IAssign(g, leaseNow, checkNow) =>
      if S.AssignedShard(g).None? then None
      else Some(Assign(Key(c, g.id, |S.Issued(s, g.id)|), g,
                       LatchesOf(S.NewOwn(GrantStateFromI32(g.state), S.AssignLease(g, leaseNow), checkNow))))
    case IPromote(g) => CloseCurrent(c, s, g.id, LActive)
    case IRevoke(g) => CloseCurrent(c, s, g.id, LRevoked)
    case INotify(update, target) =>
      if update.None? || target.None? then None
      else
        (match GrantStateFromI32(update.value.state)
         case AllocatedLoaded => CloseCurrent(c, s, target.value.id, LLoaded)
         case RevokedUnloaded => CloseCurrent(c, s, target.value.id, LUnloaded)
         case _ => None)
    case IExtend(_) => None
    case ITimer(id, inc) => if inc < |S.Issued(s, id)| then Some(Close(Key(c, id, inc), LExpired)) else None
    case IRemove(id) => CloseCurrent(c, s, id, LExpired)
    case IClose => None
  }

  // ---------- Steps ----------

  /** The item a driver or one of its timers works on in this step. */
  function ItemOf(a: Act): Option<Parcel> {
    match a
    case Timer(k) => Some(Parcel(k.consumer, S.ITimer(k.id, k.inc)))
    case Deliver(p) => Some(p)
    case Remove(c, id) => Some(Parcel(c, S.IRemove(id)))
    case Shut(c) => Some(Parcel(c, S.IClose))
    case _ => None
  }

  /** The step of the tasks that goes with a step of the fleet. Others can come
      between any two latches that a driver closes. */
  function MoveOf(f: Fleet, a: Act): Option<Action> {
    match ItemOf(a)
    case Some(p) => ActionOf(p.consumer, DriverOf(f, p.consumer), p.item)
    case None => if a.Task? then Some(a.action) else None
  }

  predicate Movable(w: World, move: Option<Action>) {
    move.Some? ==> Enabled(w, move.value)
  }

  function Moved(w: World, move: Option<Action>): World
    requires Movable(w, move)
  {
    if move.Some? then Next(w, move.value) else w
  }

  /** A driver removes an entry before it assigns its id again, and every entry at
      its exit. That it may remove an entry at any other time is more than the code
      does. */
  predicate Can(f: Fleet, a: Act) {
    Movable(f.w, MoveOf(f, a)) &&
    match a
    case Task(action) => !action.Assign? && !action.Close?
    case Timer(k) => k in f.w.incs
    case Send(p) => MaySend(f, p.item)
    case Deliver(p) =>
      p in f.sent && !DriverOf(f, p.consumer).closed && !Replaces(DriverOf(f, p.consumer), p.item)
    case Remove(c, _) => !DriverOf(f, c).closed
    case Shut(c) => !DriverOf(f, c).closed && DriverOf(f, c).table == map[]
    case Receive(n) => n < |f.w.out| && !f.w.out[n].signal.RequestSignal?
    case Lapse(_) => true
  }

  function DriversAfter(f: Fleet, a: Act): map<nat, S.Table> {
    match ItemOf(a)
    case Some(p) => f.drivers[p.consumer := S.Step(DriverOf(f, p.consumer), p.item)]
    case None => f.drivers
  }

  function Do(f: Fleet, a: Act): Fleet
    requires Can(f, a)
  {
    f.(w := Moved(f.w, MoveOf(f, a)),
       drivers := DriversAfter(f, a),
       sent := if a.Send? then f.sent + {a.parcel} else f.sent,
       received := if a.Receive? then f.received + {f.w.out[a.n].grant} else f.received,
       lapsed := if a.Lapse? then f.lapsed + {a.id} else f.lapsed)
  }

  /** One act; one that is not possible changes nothing. */
  function Try(f: Fleet, a: Act): Fleet {
    if Can(f, a) then Do(f, a) else f
  }

  /** What a history, that is any sequence of acts, makes of a fleet. */
  function End(f: Fleet, acts: seq<Act>): Fleet { Fold(Try, f, acts) }

  predicate Start(f: Fleet) {
    Initial(f.w) && f.drivers == map[] && f.sent == {} && f.received == {} && f.lapsed == {}
  }
}
