/** What the consumer driver does to its grant table, as a function of its state.
    `Driver` in the Driver module is the object that does it in place. */
module Consumer {
  import opened Ids

  const DEFAULT_LEASE: Time := 30_000

  /** The driver's side of an Ownership. */
  datatype Own = Own(active: bool, revoked: bool, expired: bool, unloaded: bool, loaded: bool, deadline: Time)

  /** A table entry; `inc` tells which Ownership issued for the id it holds. */
  datatype Entry = Entry(grant: RawGrant, inc: nat, revoked: bool)

  datatype GrantEvent =
    | Assigned(id: GrantId, shard: Shard, inc: nat)
    | Removed(id: GrantId)

  /** `owned[id]` is every Ownership ever issued for `id`, oldest first. */
  datatype State = State(
    table: map<GrantId, Entry>,
    owned: map<GrantId, seq<Own>>,
    events: seq<GrantEvent>,
    closed: bool)

  const EMPTY := State(map[], map[], [], false)

  /** One thing the driver (or a grant's timer) does. The elements of a batch are
      separate items. An Assign carries the two clock readings it may take. An entry
      is removed before its id is assigned again, and at the driver's exit. */
  datatype Item =
    | IAssign(grant: RawGrant, leaseNow: Time, checkNow: Time)
    | IPromote(grant: RawGrant)
    | IRevoke(grant: RawGrant)
    | INotify(update: Option<RawGrant>, target: Option<RawGrant>)
    | IExtend(lease: Option<Time>)
    | ITimer(id: GrantId, inc: nat)         // a timer closed `expired`
    | IRemove(id: GrantId)
    | IClose                                // the last step of the exit

  function Issued(s: State, id: GrantId): seq<Own> {
    if id in s.owned then s.owned[id] else []
  }

  function AssignedShard(g: RawGrant): Option<Shard> {
    if g.shard.None? then None
    else if DecodeShard(g.shard.value).Ok? then Some(DecodeShard(g.shard.value).value) else None
  }

  predicate StartsRevoked(state: GrantState) { state.Revoked? || state.RevokedUnloaded? }

  function AssignLease(g: RawGrant, now: Time): Time {
    if g.lease.Some? then g.lease.value else now + DEFAULT_LEASE
  }

  /** A fresh Ownership, with the latches of states already reached closed. */
  function NewOwn(state: GrantState, deadline: Time, now: Time): Own {
    Own(state.Active?, StartsRevoked(state), now > deadline, false, false, deadline)
  }

  function SetOwn(s: State, id: GrantId, inc: nat, o: Own): State
    requires inc < |Issued(s, id)|
  {
    s.(owned := s.owned[id := Issued(s, id)[inc := o]])
  }

  /** Every table entry points at an Ownership that was issued. */
  predicate TableOk(s: State) {
    forall id :: id in s.table ==> s.table[id].inc < |Issued(s, id)|
  }

  type Table = s: State | TableOk(s) witness EMPTY

  function OwnOf(s: State, id: GrantId): Own
    requires TableOk(s) && id in s.table
  {
    Issued(s, id)[s.table[id].inc]
  }

  function RemoveGrant(s: State, id: GrantId): (t: State)
    requires TableOk(s)
    ensures TableOk(t)
  {
    if id !in s.table then s
    else
      SetOwn(s, id, s.table[id].inc, OwnOf(s, id).(expired := true))
      .(table := s.table - {id}, events := s.events + [Removed(id)])
  }

  /** A new Ownership for `g`, entered in the table. */
  function Issue(s: State, g: RawGrant, shard: Shard, deadline: Time, now: Time): (t: State)
    requires TableOk(s)
    ensures TableOk(t)
  {
    var state := GrantStateFromI32(g.state);
    var inc := |Issued(s, g.id)|;
    State(s.table[g.id := Entry(g, inc, StartsRevoked(state))],
          s.owned[g.id := Issued(s, g.id) + [NewOwn(state, deadline, now)]],
          s.events + [Assigned(g.id, shard, inc)],
          s.closed)
  }

  function OnAssign(s: State, g: RawGrant, leaseNow: Time, checkNow: Time): (t: State)
    requires TableOk(s)
    ensures TableOk(t)
  {
    match AssignedShard(g)
    case None => s
    case Some(shard) => Issue(RemoveGrant(s, g.id), g, shard, AssignLease(g, leaseNow), checkNow)
  }

  function OnPromote(s: State, g: RawGrant): (t: State)
    requires TableOk(s)
    ensures TableOk(t)
  {
    if g.id !in s.table then s
    else
      SetOwn(s, g.id, s.table[g.id].inc, OwnOf(s, g.id).(active := true))
      .(table := s.table[g.id := s.table[g.id].(grant := g)])
  }

  function OnRevoke(s: State, g: RawGrant): (t: State)
    requires TableOk(s)
    ensures TableOk(t)
  {
    if g.id !in s.table then s
    else
      var o := OwnOf(s, g.id);
      var deadline := if g.lease.Some? then g.lease.value else o.deadline;
      SetOwn(s, g.id, s.table[g.id].inc, o.(revoked := true, deadline := deadline))
      .(table := s.table[g.id := s.table[g.id].(grant := g, revoked := true)])
  }

  function OnNotify(s: State, update: Option<RawGrant>, target: Option<RawGrant>): (t: State)
    requires TableOk(s)
    ensures TableOk(t)
  {
    if target.None? || update.None? || target.value.id !in s.table then s
    else
      var id := target.value.id;
      match GrantStateFromI32(update.value.state)
      case AllocatedLoaded => SetOwn(s, id, s.table[id].inc, OwnOf(s, id).(loaded := true))
      case RevokedUnloaded => SetOwn(s, id, s.table[id].inc, OwnOf(s, id).(unloaded := true))
      case _ => s
  }

  /** The Ownerships issued for `id` after an Extend. */
  function Extended(s: State, id: GrantId, lease: Time): seq<Own>
    requires TableOk(s) && id in s.owned
  {
    if id in s.table && !s.table[id].revoked
    then s.owned[id][s.table[id].inc := OwnOf(s, id).(deadline := lease)]
    else s.owned[id]
  }

  function OnExtend(s: State, lease: Option<Time>): (t: State)
    requires TableOk(s)
    ensures TableOk(t)
  {
    if lease.None? then s
    else s.(owned := map id | id in s.owned :: Extended(s, id, lease.value))
  }

  function OnTimer(s: State, id: GrantId, inc: nat): (t: State)
    requires TableOk(s)
    ensures TableOk(t)
  {
    if inc < |Issued(s, id)| then SetOwn(s, id, inc, Issued(s, id)[inc].(expired := true)) else s
  }

  function Step(s: State, i: Item): (t: State)
    requires TableOk(s)
    ensures TableOk(t)
  {
    match i
    case IAssign(g, leaseNow, checkNow) => OnAssign(s, g, leaseNow, checkNow)
    case IPromote(g) => OnPromote(s, g)
    case IRevoke(g) => OnRevoke(s, g)
    case INotify(update, target) => OnNotify(s, update, target)
    case IExtend(lease) => OnExtend(s, lease)
    case ITimer(id, inc) => OnTimer(s, id, inc)
    case IRemove(id) => RemoveGrant(s, id)
    case IClose => s.(closed := true)
  }

  function Steps(s: State, items: seq<Item>): (t: State)
    requires TableOk(s)
    ensures TableOk(t)
    decreases |items|
  {
    if items == [] then s else Steps(Step(s, items[0]), items[1..])
  }

  // ---------- Messages ----------

  datatype ClientMessage =
    | Assign(grants: seq<RawGrant>)
    | Promote(grants: seq<RawGrant>)
    | Revoke(grants: seq<RawGrant>)
    | Notify(update: Option<RawGrant>, target: Option<RawGrant>)
    | Extend(lease: Option<Time>)
    | Other   // Register, Deregister, Released, Update, Status: ignored inbound

  /** The items of a batch of Assigns. One without a valid shard does nothing. */
  function AssignItems(gs: seq<RawGrant>, clock: nat -> Time, n: nat): seq<Item>
    decreases |gs|
  {
    if gs == [] then []
    else
      (if AssignedShard(gs[0]).None? then []
       else [IRemove(gs[0].id), IAssign(gs[0], clock(n), clock(n + 1))]) + AssignItems(gs[1..], clock, n + 2)
  }

  /** The items of a message; `clock` gives the readings taken on the way. */
  function Items(m: ClientMessage, clock: nat -> Time): seq<Item> {
    match m
    case Assign(gs) => AssignItems(gs, clock, 0)
    case Promote(gs) => seq(|gs|, n requires 0 <= n < |gs| => IPromote(gs[n]))
    case Revoke(gs) => seq(|gs|, n requires 0 <= n < |gs| => IRevoke(gs[n]))
    case Notify(u, t) => [INotify(u, t)]
    case Extend(l) => [IExtend(l)]
    case Other => []
  }
}
