/** The two outbox tables as values: rows of `outbox` and `outbox_segments`. */
module OutboxTypes {
  import opened Wrappers

  // Instants are unbounded integers; every stored stamp comes from a clock reading.
  type Time = int
  type DeviceId = string
  type SegmentId = string
  type EventId = nat

  // The outbox id is a name-based hash of (event, device), taken to be injective.
  datatype Uuid = Nil | Derived(event: EventId, device: DeviceId)

  datatype Status = Pending | InFlight | Acked | Dropped

  datatype SegKey = SegKey(device: DeviceId, segment: SegmentId)

  datatype Row = Row(
    device: DeviceId,
    segment: SegmentId,
    status: Status,
    sendAfter: Time,
    inflightUntil: Option<Time>,
    attempts: nat,
    createdAt: Time,
    expiresAt: Time,
    ackedAt: Option<Time>,
    lastSentAt: Option<Time>)
  {
    function Key(): SegKey {
      SegKey(device, segment)
    }

    predicate Live() {
      status.Pending? || status.InFlight?
    }
  }

  // The cached pointers of one (device, segment).
  datatype Seg = Seg(head: Option<Uuid>, inflight: Option<Uuid>)

  datatype Db = Db(rows: map<Uuid, Row>, segs: map<SegKey, Seg>)
  {
    function Head(k: SegKey): Option<Uuid> {
      if k in segs then segs[k].head else None
    }

    function Lease(k: SegKey): Option<Uuid> {
      if k in segs then segs[k].inflight else None
    }

    // The id names a row of segment k that is still to be delivered.
    predicate LiveIn(k: SegKey, id: Uuid) {
      id in rows && rows[id].Key() == k && rows[id].Live()
    }
  }

  // What a claim returns, and what ListInflight returns.
  datatype OutboxEvent = OutboxEvent(
    id: Uuid,
    key: SegKey,
    createdAt: Time,
    expiresAt: Time,
    inflightUntil: Option<Time>,
    lastSentAt: Option<Time>,
    attempts: nat)

  function EventOf(id: Uuid, r: Row): OutboxEvent {
    OutboxEvent(id, r.Key(), r.createdAt, r.expiresAt, r.inflightUntil, r.lastSentAt, r.attempts)
  }

  datatype PayloadValue = Text(text: string) | Other

  datatype DomainEvent = DomainEvent(
    id: EventId,
    eventType: string,
    payload: map<string, PayloadValue>,
    availableAt: Time,
    createdAt: Time,
    expiresAt: Time)

  datatype Config = Config(batchSize: int, ackTimeout: int, maxAttempts: int)
  {
    // What NewService leaves behind, whatever it was given.
    predicate Positive() {
      batchSize > 0 && ackTimeout > 0 && maxAttempts > 0
    }
  }
}
