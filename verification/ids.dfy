/** Identifiers, wire shapes and errors shared by every component. The wire
    shapes keep the optional fields of the protocol messages, so that decoding
    can fail where the client's decoding fails. */
module Ids {

  datatype Option<+T> = None | Some(value: T)

  datatype Result<+T, +E> = Ok(value: T) | Err(error: E)

  type GrantId = string
  type Endpoint = string
  /** A parsed UUID. */
  type InstanceId = nat
  /** Milliseconds on the wall clock. */
  type Time = int

  datatype GrantState = Unknown | Active | Allocated | Revoked | AllocatedLoaded | RevokedUnloaded

  function GrantStateFromI32(v: int): GrantState {
    match v
    case 1 => Active
    case 2 => Allocated
    case 3 => Revoked
    case 4 => AllocatedLoaded
    case 5 => RevokedUnloaded
    case _ => Unknown
  }

  datatype DomainType = Invalid | Unit | Global | Regional

  function DomainTypeFromI32(v: int): DomainType {
    match v
    case 1 => Unit
    case 2 => Global
    case 3 => Regional
    case _ => Invalid
  }

  datatype ServiceName = ServiceName(tenant: string, service: string)
  datatype DomainName = DomainName(service: ServiceName, name: string)
  datatype Shard = Shard(domain: DomainName, kind: DomainType, region: string, from: string, to: string)
  datatype DomainKey = DomainKey(domain: DomainName, region: string, key: string)

  datatype Location = Location(region: string, node: string)
  datatype Instance = Instance(id: InstanceId, location: Location, name: string, created: Time, endpoint: Endpoint)

  // ---------- Wire shapes ----------

  datatype RawDomain = RawDomain(service: Option<ServiceName>, name: string)
  datatype RawShard = RawShard(domain: Option<RawDomain>, kind: int, region: string, from: string, to: string)

  /** The identifier of a raw instance is `None` when its text is not a UUID. */
  datatype RawLocated = RawLocated(id: Option<InstanceId>, location: Option<Location>, name: string, created: Option<Time>)
  datatype RawInstance = RawInstance(instance: Option<RawLocated>, endpoint: Endpoint)

  datatype RawGrant = RawGrant(id: GrantId, shard: Option<RawShard>, state: int, lease: Option<Time>)

  // ---------- Errors ----------

  datatype ClientError =
    | NotOwned
    | Draining
    | NoResolution
    | GrantRevoked
    | GrantExpired
    | SessionClosed
    | Cancelled
    | InvalidMessage
    | Transport(unavailable: bool)
    | TransportSetup
  {
    /** Ownership-class failures are the ones worth retrying. */
    predicate IsOwnership() {
      NotOwned? || Draining? || (Transport? && unavailable)
    }
  }

  // ---------- Decoding ----------

  function DecodeShard(raw: RawShard): Result<Shard, ClientError> {
    match raw.domain
    case None => Err(InvalidMessage)
    case Some(d) =>
      match d.service
      case None => Err(InvalidMessage)
      case Some(s) =>
        Ok(Shard(DomainName(s, d.name), DomainTypeFromI32(raw.kind), raw.region, raw.from, raw.to))
  }

  function DecodeLocated(raw: RawLocated, endpoint: Endpoint): Result<Instance, ClientError> {
    if raw.created.None? || raw.id.None? then Err(InvalidMessage)
    else
      var location := if raw.location.Some? then raw.location.value else Location("", "");
      Ok(Instance(raw.id.value, location, raw.name, raw.created.value, endpoint))
  }

  function DecodeInstance(raw: RawInstance): Result<Instance, ClientError> {
    if raw.instance.None? then Err(InvalidMessage) else DecodeLocated(raw.instance.value, raw.endpoint)
  }
}
