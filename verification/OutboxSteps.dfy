/**
 What each outbox operation does to the two tables, each as one function of the tables
 before it. The functions describe whole-table effects; the loops that
 perform them are in OutboxStore.
 */
module OutboxSteps {
  import opened OutboxTypes
  import opened Selection
  import opened Text
  import opened Wrappers

  // ---- Append

  predicate Names(payload: map<string, PayloadValue>, key: string) {
    key in payload && payload[key].Text? && !IsBlank(payload[key].text)
  }

  // The queue an event belongs to: its room, else its chat, else its segment, else one per type.
  function SegmentOf(ev: DomainEvent): (s: SegmentId)
    ensures s != ""
  {
    if Names(ev.payload, "roomId") then ev.payload["roomId"].text
    else if Names(ev.payload, "chatId") then ev.payload["chatId"].text
    else if Names(ev.payload, "segmentId") then ev.payload["segmentId"].text
    else "global:" + ev.eventType
  }

  function FreshRow(ev: DomainEvent, device: DeviceId): Row {
    Row(device, SegmentOf(ev), Pending, ev.availableAt, None, 0, ev.createdAt, ev.expiresAt, None, None)
  }

  function Coalesce<T>(a: Option<T>, b: T): T {
    if a.Some? then a.value else b
  }

  function Inserted(ev: DomainEvent, targets: set<DeviceId>): map<Uuid, Row> {
    map d | d in targets :: Derived(ev.id, d) := FreshRow(ev, d)
  }

  function Upsert(db: Db, ev: DomainEvent, d: DeviceId): Seg {
    var k := SegKey(d, SegmentOf(ev));
    Seg(Some(Coalesce(db.Head(k), Derived(ev.id, d))), db.Lease(k))
  }

  function Upserts(db: Db, ev: DomainEvent, targets: set<DeviceId>): map<SegKey, Seg> {
    map d | d in targets :: SegKey(d, SegmentOf(ev)) := Upsert(db, ev, d)
  }

  // A row that exists stays as it is; a segment that has a head keeps it.
  function AppendDb(db: Db, ev: DomainEvent, targets: set<DeviceId>): Db {
    Db(Inserted(ev, targets) + db.rows, db.segs + Upserts(db, ev, targets))
  }

  // ---- Claim

  predicate HasHead(db: Db, k: SegKey) {
    k in db.segs && db.segs[k].head.Some? && db.segs[k].head.value in db.rows
  }

  function HeadRow(db: Db, k: SegKey): Row
    requires HasHead(db, k)
  {
    db.rows[db.segs[k].head.value]
  }

  predicate HeadDue(db: Db, k: SegKey, now: Time) {
    HasHead(db, k) &&
    var r := HeadRow(db, k);
    || r.expiresAt <= now
    || (r.status.Pending? && r.sendAfter <= now)
    || (r.status.InFlight? && r.inflightUntil.Some? && r.inflightUntil.value <= now)
  }

  function DueHeads(db: Db, now: Time): set<SegKey> {
    set k | k in db.segs && HeadDue(db, k, now)
  }

  function HeadStamps(db: Db): map<SegKey, Time> {
    map k | k in db.segs && HasHead(db, k) :: HeadRow(db, k).createdAt
  }

  lemma DueAreStamped(db: Db, now: Time)
    ensures DueHeads(db, now) <= HeadStamps(db).Keys
  {
  }

  // The head has run out of time or of attempts.
  predicate Spent(r: Row, now: Time, maxAttempts: int) {
    r.expiresAt <= now || r.attempts + 1 > maxAttempts
  }

  function Leased(r: Row, now: Time, ackTimeout: int): Row {
    r.(status := InFlight, attempts := r.attempts + 1, lastSentAt := Some(now),
       inflightUntil := Some(now + ackTimeout), sendAfter := now + ackTimeout)
  }

  predicate InTail(r: Row, k: SegKey, from: Time) {
    r.Key() == k && from <= r.createdAt && r.Live()
  }

  function ClaimRow(db: Db, batch: seq<SegKey>, now: Time, cfg: Config, id: Uuid): Row
    requires id in db.rows && forall k :: k in batch ==> HasHead(db, k)
  {
    var r := db.rows[id];
    if r.Key() !in batch then r
    else
      var h := HeadRow(db, r.Key());
      if Spent(h, now, cfg.maxAttempts) then
        if InTail(r, r.Key(), h.createdAt) then r.(status := Dropped) else r
      else if db.Head(r.Key()) == Some(id) then Leased(r, now, cfg.ackTimeout)
      else r
  }

  function ClaimSeg(db: Db, batch: seq<SegKey>, now: Time, cfg: Config, k: SegKey): Seg
    requires k in db.segs && forall k :: k in batch ==> HasHead(db, k)
  {
    if k !in batch then db.segs[k]
    else if Spent(HeadRow(db, k), now, cfg.maxAttempts) then Seg(None, None)
    else Seg(db.segs[k].head, db.segs[k].head)
  }

  // Every chosen segment at once, each judged by the tables before the claim.
  function ClaimDb(db: Db, batch: seq<SegKey>, now: Time, cfg: Config): Db
    requires forall k :: k in batch ==> HasHead(db, k)
  {
    Db(map id | id in db.rows :: ClaimRow(db, batch, now, cfg, id),
       map k | k in db.segs :: ClaimSeg(db, batch, now, cfg, k))
  }

  function LeaseEvent(db: Db, k: SegKey, now: Time, cfg: Config): OutboxEvent
    requires HasHead(db, k)
  {
    EventOf(db.segs[k].head.value, Leased(HeadRow(db, k), now, cfg.ackTimeout))
  }

  function ClaimEvents(db: Db, batch: seq<SegKey>, now: Time, cfg: Config): seq<OutboxEvent>
    requires forall k :: k in batch ==> HasHead(db, k)
  {
    if batch == [] then []
    else
      var k := batch[|batch| - 1];
      ClaimEvents(db, batch[..|batch| - 1], now, cfg) +
      if Spent(HeadRow(db, k), now, cfg.maxAttempts) then [] else [LeaseEvent(db, k, now, cfg)]
  }

  // ---- Acknowledge

  predicate AckHits(db: Db, id: Uuid, device: DeviceId, segment: SegmentId) {
    && id in db.rows
    && db.rows[id].device == device
    && (segment == "" || segment == db.rows[id].segment)
    && !db.rows[id].status.Acked?
  }

  function Successors(db: Db, k: SegKey, now: Time, id: Uuid): set<Uuid> {
    set x | x in db.rows && x != id && db.LiveIn(k, x) && db.rows[x].expiresAt > now
  }

  // next is an answer the database may give for the head's successor.
  ghost predicate MayFollow(db: Db, k: SegKey, now: Time, id: Uuid, next: Option<Uuid>) {
    if next.None? then Successors(db, k, now, id) == {}
    else
      && next.value in Successors(db, k, now, id)
      && forall x :: x in Successors(db, k, now, id) ==> db.rows[next.value].createdAt <= db.rows[x].createdAt
  }

  function AckDb(db: Db, now: Time, id: Uuid, device: DeviceId, segment: SegmentId, next: Option<Uuid>): Db {
    if !AckHits(db, id, device, segment) then db
    else
      var k := db.rows[id].Key();
      var rows := db.rows[id := db.rows[id].(status := Acked, ackedAt := Some(now))];
      if db.Head(k) == Some(id) then Db(rows, db.segs[k := Seg(next, None)])
      else if db.Lease(k) == Some(id) then Db(rows, db.segs[k := db.segs[k].(inflight := None)])
      else Db(rows, db.segs)
  }

  // ---- Drop and delete

  function DropDb(db: Db, k: SegKey, from: Time): Db {
    Db(map id | id in db.rows :: if InTail(db.rows[id], k, from) then db.rows[id].(status := Dropped) else db.rows[id],
       if k in db.segs then db.segs[k := Seg(None, None)] else db.segs)
  }

  function DropAllRow(db: Db, batch: seq<SegKey>, r: Row): Row
    requires forall k :: k in batch ==> HasHead(db, k)
  {
    if r.Key() in batch && InTail(r, r.Key(), HeadRow(db, r.Key()).createdAt) then r.(status := Dropped) else r
  }

  // Every chosen segment loses its head's tail and its head, as they were when chosen.
  function DropAll(db: Db, batch: seq<SegKey>): Db
    requires forall k :: k in batch ==> HasHead(db, k)
  {
    Db(map id | id in db.rows :: DropAllRow(db, batch, db.rows[id]),
       map k | k in db.segs :: if k in batch then Seg(None, None) else db.segs[k])
  }

  function ExpiredHeads(db: Db, now: Time): set<SegKey> {
    set k | k in db.segs && HasHead(db, k) && HeadRow(db, k).expiresAt <= now
  }

  function Purgeable(db: Db, status: Status, olderThan: Time): set<Uuid> {
    set id | id in db.rows && db.rows[id].status == status
          && Coalesce(db.rows[id].ackedAt, db.rows[id].expiresAt) <= olderThan
  }

  function RowStamps(db: Db): map<Uuid, Time> {
    map id | id in db.rows :: db.rows[id].createdAt
  }

  function DeleteDb(db: Db, victims: seq<Uuid>): Db {
    Db(db.rows - Elems(victims), db.segs)
  }

  // ---- Read

  function InFlightAt(db: Db, device: DeviceId, now: Time): set<Uuid> {
    set id | id in db.rows && db.rows[id].device == device && db.rows[id].status.InFlight?
          && db.rows[id].inflightUntil.Some? && db.rows[id].inflightUntil.value > now
  }

  function EventsOf(db: Db, ids: seq<Uuid>): seq<OutboxEvent>
    requires forall id :: id in ids ==> id in db.rows
  {
    seq(|ids|, i requires 0 <= i < |ids| => EventOf(ids[i], db.rows[ids[i]]))
  }
}
