/** What the decoders make of the wire shapes, field by field, and that decoding
    undoes encoding. */
module Wire {
  import opened Ids

  // ---------- Decoding, field by field ----------

  predicate ReadableShard(raw: RawShard) { raw.domain.Some? && raw.domain.value.service.Some? }

  predicate IsKind(n: int, kind: DomainType) {
    (n == 1 <==> kind.Unit?) && (n == 2 <==> kind.Global?) && (n == 3 <==> kind.Regional?)
  }

  predicate IsState(n: int, state: GrantState) {
    && (n == 1 <==> state.Active?) && (n == 2 <==> state.Allocated?) && (n == 3 <==> state.Revoked?)
    && (n == 4 <==> state.AllocatedLoaded?) && (n == 5 <==> state.RevokedUnloaded?)
  }

  predicate IsShard(raw: RawShard, s: Shard) {
    && ReadableShard(raw)
    && s.domain.service == raw.domain.value.service.value && s.domain.name == raw.domain.value.name
    && IsKind(raw.kind, s.kind) && s.region == raw.region && s.from == raw.from && s.to == raw.to
  }

  predicate ReadableLocated(raw: RawLocated) { raw.id.Some? && raw.created.Some? }

  predicate ReadableInstance(raw: RawInstance) { raw.instance.Some? && ReadableLocated(raw.instance.value) }

  predicate IsLocated(raw: RawLocated, endpoint: Endpoint, i: Instance) {
    && ReadableLocated(raw) && i.id == raw.id.value && i.created == raw.created.value
    && i.name == raw.name && i.endpoint == endpoint
    && i.location == if raw.location.Some? then raw.location.value else Location("", "")
  }

  predicate IsInstance(raw: RawInstance, i: Instance) {
    raw.instance.Some? && IsLocated(raw.instance.value, raw.endpoint, i)
  }

  predicate GaveUp<T>(r: Result<T, ClientError>) { r == Err(InvalidMessage) }

  /** A shard decodes exactly when it names its domain and service, and only to what it says. */
  lemma ShardDecoding(raw: RawShard)
    ensures if ReadableShard(raw) then DecodeShard(raw).Ok? && IsShard(raw, DecodeShard(raw).value)
            else GaveUp(DecodeShard(raw))
  {}

  lemma StateDecoding(n: int)
    ensures IsState(n, GrantStateFromI32(n))
  {}

  lemma LocatedDecoding(raw: RawLocated, endpoint: Endpoint)
    ensures var r := DecodeLocated(raw, endpoint);
            if ReadableLocated(raw) then r.Ok? && IsLocated(raw, endpoint, r.value) else GaveUp(r)
  {}

  lemma InstanceDecoding(raw: RawInstance)
    ensures var r := DecodeInstance(raw);
            if ReadableInstance(raw) then r.Ok? && IsInstance(raw, r.value) else GaveUp(r)
  {}

  // ---------- Encoding ----------

  function KindNumber(kind: DomainType): int {
    match kind
    case Invalid => 0
    case Unit => 1
    case Global => 2
    case Regional => 3
  }

  function StateNumber(state: GrantState): int {
    match state
    case Unknown => 0
    case Active => 1
    case Allocated => 2
    case Revoked => 3
    case AllocatedLoaded => 4
    case RevokedUnloaded => 5
  }

  function EncodeShard(s: Shard): RawShard {
    RawShard(Some(RawDomain(Some(s.domain.service), s.domain.name)), KindNumber(s.kind), s.region, s.from, s.to)
  }

  /** A time before the epoch is sent as the epoch. */
  function EncodeInstance(i: Instance): RawInstance {
    RawInstance(Some(RawLocated(Some(i.id), Some(i.location), i.name, Some(if i.created < 0 then 0 else i.created))),
                i.endpoint)
  }

  /** Decoding undoes encoding; of a raw shard that decodes, encoding gives back every
      field, and the kind if it was a known one. */
  lemma ShardRoundTrip(s: Shard, raw: RawShard)
    ensures DecodeShard(EncodeShard(s)) == Ok(s)
    ensures DecodeShard(raw) == Ok(s) ==> EncodeShard(s) == raw.(kind := if 0 <= raw.kind <= 3 then raw.kind else 0)
  {
    assert raw.domain.Some? ==> raw.domain.value == RawDomain(raw.domain.value.service, raw.domain.value.name);
  }

  lemma InstanceRoundTrip(i: Instance)
    ensures DecodeInstance(EncodeInstance(i)) == Ok(i) <==> i.created >= 0
  {}

  lemma StateRoundTrip(state: GrantState, n: int)
    ensures GrantStateFromI32(StateNumber(state)) == state
    ensures 0 <= n <= 5 <==> StateNumber(GrantStateFromI32(n)) == n
  {}
}
