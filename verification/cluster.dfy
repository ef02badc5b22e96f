/** The cluster snapshot: what each message makes of it. Errors can strike in the
    middle of a batch, so the mutating steps say what they leave behind and
    whether they failed. */
module Cluster {
  import opened Ids

  datatype ClusterId = ClusterId(version: int, origin: Option<Instance>, timestamp: Time)
  datatype GrantEntry = GrantEntry(id: GrantId, shard: Shard, state: GrantState, consumer: InstanceId)
  datatype ConsumerEntry = ConsumerEntry(consumer: Instance, grants: seq<GrantId>)

  datatype Map = Map(
    id: ClusterId,
    consumers: map<InstanceId, ConsumerEntry>,
    grants: map<GrantId, GrantEntry>,
    shards: seq<Shard>)

  const EPOCH: Time := 0
  const EMPTY := Map(ClusterId(0, None, EPOCH), map[], map[], [])

  // ---------- Messages ----------

  datatype GrantInfo = GrantInfo(id: GrantId, shard: Option<RawShard>, state: int)
  datatype Assignment = Assignment(consumer: Option<RawInstance>, grants: seq<GrantInfo>)
  datatype Snapshot = Snapshot(assignments: seq<Assignment>, origin: Option<RawLocated>, shards: seq<RawShard>)

  /** A consumer id in `remove` is `None` when its text is not a UUID. */
  datatype Change = Change(
    assign: Option<seq<Assignment>>,
    update: Option<seq<GrantInfo>>,
    unassign: Option<seq<GrantId>>,
    remove: Option<seq<Option<InstanceId>>>,
    shards: Option<seq<RawShard>>)

  datatype Body = SnapshotBody(snapshot: Snapshot) | ChangeBody(change: Change) | NoBody
  datatype Message = Message(body: Body, version: int, timestamp: Option<Time>)

  /** A step on the map: the map it leaves, and the error it stopped at. */
  datatype Outcome = Outcome(next: Map, error: Option<ClientError>)

  // ---------- The steps ----------

  function DecodeShards(raw: seq<RawShard>): Result<seq<Shard>, ClientError> {
    if raw == [] then Ok([])
    else
      match DecodeShard(raw[0])
      case Err(e) => Err(e)
      case Ok(s) =>
        match DecodeShards(raw[1..])
        case Err(e) => Err(e)
        case Ok(rest) => Ok([s] + rest)
  }

  /** The listed grants that are not in `lost`, in order. */
  function Keep(grants: seq<GrantId>, lost: set<GrantId>): (r: seq<GrantId>)
    ensures forall x :: x in r <==> x in grants && x !in lost
  {
    if grants == [] then []
    else if grants[0] in lost then Keep(grants[1..], lost)
    else [grants[0]] + Keep(grants[1..], lost)
  }

  function Members(grants: seq<GrantId>): set<GrantId> {
    set g | g in grants
  }

  function DropGrant(c: Map, g: GrantId): Map {
    if g !in c.grants then c
    else
      var owner := c.grants[g].consumer;
      var rest := c.(grants := c.grants - {g});
      if owner !in c.consumers then rest
      else
        var e := c.consumers[owner];
        rest.(consumers := c.consumers[owner := e.(grants := Keep(e.grants, {g}))])
  }

  function DropGrants(c: Map, gs: seq<GrantId>): Map
    decreases |gs|
  {
    if gs == [] then c else DropGrants(DropGrant(c, gs[0]), gs[1..])
  }

  function AddGrant(c: Map, owner: InstanceId, g: GrantId, shard: Shard, state: GrantState): Map
    requires owner in c.consumers
  {
    var e := c.consumers[owner];
    c.(consumers := c.consumers[owner := e.(grants := e.grants + [g])],
       grants := c.grants[g := GrantEntry(g, shard, state, owner)])
  }

  function AddGrants(c: Map, owner: InstanceId, gs: seq<GrantInfo>): (r: Outcome)
    requires owner in c.consumers
    ensures owner in r.next.consumers
    decreases |gs|
  {
    if gs == [] then Outcome(c, None)
    else if gs[0].shard.None? then Outcome(c, Some(InvalidMessage))
    else
      match DecodeShard(gs[0].shard.value)
      case Err(e) => Outcome(c, Some(e))
      case Ok(shard) =>
        AddGrants(AddGrant(c, owner, gs[0].id, shard, GrantStateFromI32(gs[0].state)), owner, gs[1..])
  }

  /** The map once the consumer of an assignment is present. */
  function WithConsumer(c: Map, i: Instance): Map {
    if i.id in c.consumers then c else c.(consumers := c.consumers[i.id := ConsumerEntry(i, [])])
  }

  function ApplyAssignment(c: Map, a: Assignment): Outcome {
    if a.consumer.None? then Outcome(c, Some(InvalidMessage))
    else
      match DecodeInstance(a.consumer.value)
      case Err(e) => Outcome(c, Some(e))
      case Ok(i) => AddGrants(WithConsumer(c, i), i.id, a.grants)
  }

  function ApplyAssignments(c: Map, as': seq<Assignment>): Outcome
    decreases |as'|
  {
    if as' == [] then Outcome(c, None)
    else
      var first := ApplyAssignment(c, as'[0]);
      if first.error.Some? then first else ApplyAssignments(first.next, as'[1..])
  }

  /** Only a grant that is present is decoded, so an update of an unknown grant
      succeeds whatever it carries. */
  function UpdateGrant(c: Map, g: GrantInfo): Outcome {
    if g.id !in c.grants then Outcome(c, None)
    else
      var e := c.grants[g.id].(state := GrantStateFromI32(g.state));
      if g.shard.None? then Outcome(c.(grants := c.grants[g.id := e]), None)
      else
        match DecodeShard(g.shard.value)
        case Err(err) => Outcome(c, Some(err))
        case Ok(shard) => Outcome(c.(grants := c.grants[g.id := e.(shard := shard)]), None)
  }

  function UpdateGrants(c: Map, gs: seq<GrantInfo>): Outcome
    decreases |gs|
  {
    if gs == [] then Outcome(c, None)
    else
      var first := UpdateGrant(c, gs[0]);
      if first.error.Some? then first else UpdateGrants(first.next, gs[1..])
  }

  /** Removes the grants the consumer lists, whoever owns them by now. */
  function RemoveConsumer(c: Map, id: InstanceId): Map {
    if id !in c.consumers then c
    else
      c.(consumers := c.consumers - {id}, grants := c.grants - Members(c.consumers[id].grants))
  }

  function RemoveConsumers(c: Map, ids: seq<Option<InstanceId>>): Map
    decreases |ids|
  {
    if ids == [] then c
    else RemoveConsumers(if ids[0].Some? then RemoveConsumer(c, ids[0].value) else c, ids[1..])
  }

  /** Drops the grants of `gone` from the map and from the lists of their owners. */
  function DropSet(c: Map, gone: set<GrantId>): Map {
    c.(grants := c.grants - gone,
       consumers := map id | id in c.consumers ::
         c.consumers[id].(grants := Keep(c.consumers[id].grants, Lost(c, gone, id))))
  }

  /** The grants of `gone` that consumer `id` owns. */
  function Lost(c: Map, gone: set<GrantId>, id: InstanceId): set<GrantId> {
    set g | g in gone && g in c.grants && c.grants[g].consumer == id
  }

  /** The grants on shards that are no longer known. */
  function Orphans(c: Map, shards: seq<Shard>): set<GrantId> {
    set g | g in c.grants && c.grants[g].shard !in shards
  }

  function SetShards(c: Map, raw: seq<RawShard>): Outcome {
    match DecodeShards(raw)
    case Err(e) => Outcome(c, Some(e))
    case Ok(shards) => Outcome(DropSet(c.(shards := shards), Orphans(c, shards)), None)
  }

  // ---------- Whole messages ----------

  function Stamp(c: Map, version: int, timestamp: Time): Map {
    c.(id := ClusterId(version, c.id.origin, timestamp))
  }

  function Then(r: Outcome, f: Map -> Outcome): Outcome {
    if r.error.Some? then r else f(r.next)
  }

  function ShardsPhase(c: Map, ch: Change): Outcome {
    if ch.shards.Some? then SetShards(c, ch.shards.value) else Outcome(c, None)
  }

  function AssignPhase(c: Map, ch: Change): Outcome {
    if ch.assign.Some? then ApplyAssignments(c, ch.assign.value) else Outcome(c, None)
  }

  function UpdatePhase(c: Map, ch: Change): Outcome {
    if ch.update.Some? then UpdateGrants(c, ch.update.value) else Outcome(c, None)
  }

  function UnassignPhase(c: Map, ch: Change): Outcome {
    Outcome(if ch.unassign.Some? then DropGrants(c, ch.unassign.value) else c, None)
  }

  function RemovePhase(c: Map, ch: Change): Outcome {
    Outcome(if ch.remove.Some? then RemoveConsumers(c, ch.remove.value) else c, None)
  }

  function ApplyChange(c: Map, ch: Change, version: int, timestamp: Time): Outcome {
    Then(Then(Then(Then(ShardsPhase(Stamp(c, version, timestamp), ch),
      m => AssignPhase(m, ch)),
      m => UpdatePhase(m, ch)),
      m => UnassignPhase(m, ch)),
      m => RemovePhase(m, ch))
  }

  function ApplySnapshot(s: Snapshot, version: int, timestamp: Time): Outcome {
    match DecodeShards(s.shards)
    case Err(e) => Outcome(EMPTY, Some(e))
    case Ok(shards) =>
      var origin := if s.origin.None? then Ok(None)
                    else match DecodeLocated(s.origin.value, "")
                         case Ok(i) => Ok(Some(i))
                         case Err(e) => Err(e);
      if origin.Err? then Outcome(EMPTY, Some(origin.error))
      else ApplyAssignments(Map(ClusterId(version, origin.value, timestamp), map[], map[], shards), s.assignments)
  }

  function Stamped(m: Message): Time { if m.timestamp.Some? then m.timestamp.value else EPOCH }

  function Apply(c: Map, m: Message): Result<Map, ClientError> {
    match m.body
    case NoBody => Err(InvalidMessage)
    case SnapshotBody(s) => ToResult(ApplySnapshot(s, m.version, Stamped(m)))
    case ChangeBody(ch) => ToResult(ApplyChange(c, ch, m.version, Stamped(m)))
  }

  function ToResult(r: Outcome): Result<Map, ClientError> {
    if r.error.Some? then Err(r.error.value) else Ok(r.next)
  }

  /** What the driver keeps: the new map, or the old one when the message fails. */
  function Received(c: Map, m: Message): Map {
    match Apply(c, m)
    case Ok(next) => next
    case Err(_) => c
  }

  function ReceivedAll(c: Map, ms: seq<Message>): Map
    decreases |ms|
  {
    if ms == [] then c else ReceivedAll(Received(c, ms[0]), ms[1..])
  }
}
