/**
 What the outbox operations do, told of single rows and pointers: the columns before a call and
 the columns after it.
 */
module OutboxPromises {
  import opened OutboxTypes
  import opened OutboxSteps
  import opened OutboxInvariant
  import opened OutboxRuns
  import opened Selection
  import opened Text
  import opened Wrappers

  // Row e is what the segment points at as its head.
  predicate Heads(db: Db, k: SegKey, e: Uuid) {
    k in db.segs && db.segs[k].head == Some(e) && e in db.rows
  }

  predicate IsLive(r: Row) {
    r.status == Pending || r.status == InFlight
  }

  // The later half of a segment: its rows still to be delivered, from a stamp on.
  predicate Behind(r: Row, k: SegKey, from: Time) {
    r.device == k.device && r.segment == k.segment && from <= r.createdAt && IsLive(r)
  }

  // ---- Claim

  // Not expired, not pending and due, and not past its lease: nothing to do for a claim.
  predicate Waits(r: Row, now: Time) {
    && now < r.expiresAt
    && (r.status == Pending ==> now < r.sendAfter)
    && (r.status == InFlight && r.inflightUntil.Some? ==> now < r.inflightUntil.value)
  }

  // The segment has lost its head and its lease, and its rows from the stamp on are dropped.
  ghost predicate GivenUp(before: Db, after: Db, k: SegKey, from: Time) {
    && k in after.segs && after.segs[k] == Seg(None, None)
    && forall id :: id in before.rows && Behind(before.rows[id], k, from) ==>
         id in after.rows && after.rows[id] == before.rows[id].(status := Dropped)
  }

  // The segment's head e, taken up by a claim: dropped with all behind it when its time or its attempts
  // are used up, and leased for one timeout more otherwise.
  ghost predicate TakenUp(before: Db, after: Db, k: SegKey, e: Uuid, now: Time, cfg: Config)
    requires e in before.rows
  {
    var r := before.rows[e];
    if r.expiresAt <= now || r.attempts >= cfg.maxAttempts then
      GivenUp(before, after, k, r.createdAt) && e in after.rows && after.rows[e] == r.(status := Dropped)
    else
      && k in after.segs && e in after.rows && after.segs[k] == Seg(Some(e), Some(e))
      && after.rows[e] == r.(status := InFlight, attempts := r.attempts + 1, lastSentAt := Some(now),
                             sendAfter := now + cfg.ackTimeout, inflightUntil := Some(now + cfg.ackTimeout))
  }

  // The only rows that change: heads that are leased, and what is behind heads that are given up.
  ghost predicate OnlyTakenUp(before: Db, after: Db, batch: seq<SegKey>, now: Time, cfg: Config) {
    && after.rows.Keys == before.rows.Keys && after.segs.Keys == before.segs.Keys
    && (forall k :: k in before.segs && k !in batch ==> after.segs[k] == before.segs[k])
    && forall id :: id in before.rows && after.rows[id] != before.rows[id] ==>
         exists k, e :: k in batch && Heads(before, k, e) &&
           if before.rows[e].expiresAt <= now || before.rows[e].attempts >= cfg.maxAttempts
           then Behind(before.rows[id], k, before.rows[e].createdAt) else id == e
  }

  // Segments whose heads had to be seen to, each once, oldest first; one that had to be and was not
  // chosen is no older, and was left out for want of room.
  ghost predicate OldestFirst(before: Db, batch: seq<SegKey>, due: Row -> bool, limit: int) {
    && Distinct(batch) && |batch| <= limit
    && (forall k :: k in batch ==> exists e :: Heads(before, k, e) && due(before.rows[e]))
    && (forall i, j, d, e :: 0 <= i < j < |batch| && Heads(before, batch[i], d) && Heads(before, batch[j], e) ==>
          before.rows[d].createdAt <= before.rows[e].createdAt)
    && forall k, e :: Heads(before, k, e) && due(before.rows[e]) && k !in batch ==>
         && |batch| == limit
         && forall j, d :: j in batch && Heads(before, j, d) ==> before.rows[d].createdAt <= before.rows[e].createdAt
  }

  ghost predicate ClaimsAsPromised(before: Db, after: Db, batch: seq<SegKey>, now: Time, cfg: Config) {
    && OldestFirst(before, batch, (r: Row) => !Waits(r, now), cfg.batchSize)
    && (forall k, e :: k in batch && Heads(before, k, e) ==> TakenUp(before, after, k, e, now, cfg))
    && OnlyTakenUp(before, after, batch, now, cfg)
  }

  // With room, every head that is expired, due or overdue is taken up, and no other.
  ghost predicate AllTakenUp(before: Db, after: Db, now: Time, cfg: Config) {
    forall k, e :: Heads(before, k, e) ==>
      if Waits(before.rows[e], now)
      then k in after.segs && after.segs[k] == before.segs[k] && e in after.rows && after.rows[e] == before.rows[e]
      else TakenUp(before, after, k, e, now, cfg)
  }

  // The event tells the columns of the row it names.
  predicate Tells(db: Db, e: OutboxEvent) {
    e.id in db.rows &&
    var r := db.rows[e.id];
    && e.key.device == r.device && e.key.segment == r.segment
    && e.createdAt == r.createdAt && e.expiresAt == r.expiresAt
    && e.inflightUntil == r.inflightUntil && e.lastSentAt == r.lastSentAt && e.attempts == r.attempts
  }

  // One event for each head leased, oldest first, telling its row as the claim left it.
  ghost predicate TellsOfLeases(after: Db, batch: seq<SegKey>, events: seq<OutboxEvent>) {
    && (forall i :: 0 <= i < |events| ==>
          events[i].key in batch && Heads(after, events[i].key, events[i].id) && Tells(after, events[i]))
    && (forall i, j :: 0 <= i < j < |events| ==> events[i].key != events[j].key && events[i].createdAt <= events[j].createdAt)
    && forall k :: k in batch && k in after.segs && after.segs[k].head.Some? ==> exists i :: 0 <= i < |events| && events[i].key == k
  }

  lemma DueIsNotWaiting(db: Db, k: SegKey, e: Uuid, now: Time)
    requires Heads(db, k, e)
    ensures k in DueHeads(db, now) <==> !Waits(db.rows[e], now)
  {
  }

  lemma SelectionIsOldestFirst(db: Db, pool: set<SegKey>, batch: seq<SegKey>, due: Row -> bool, limit: nat)
    requires pool <= HeadStamps(db).Keys && IsSelection(pool, HeadStamps(db), limit, batch)
    requires forall k, e :: Heads(db, k, e) ==> (k in pool <==> due(db.rows[e]))
    ensures OldestFirst(db, batch, due, limit)
  {
    SelectionInPlainTerms(pool, HeadStamps(db), limit, batch);
    forall k | k in HeadStamps(db) ensures Heads(db, k, db.segs[k].head.value) {
    }
    forall k, e | Heads(db, k, e) ensures k in HeadStamps(db) && HeadStamps(db)[k] == db.rows[e].createdAt {
    }
    hide HeadStamps;
  }

  lemma ClaimTakesUp(db: Db, batch: seq<SegKey>, now: Time, cfg: Config, k: SegKey, e: Uuid)
    requires AllPointed(db) && forall j :: j in batch ==> HasHead(db, j)
    requires k in batch && Heads(db, k, e)
    ensures TakenUp(db, ClaimDb(db, batch, now, cfg), k, e, now, cfg)
  {
    assert Pointed(db, k) && HeadRow(db, k) == db.rows[e];
  }

  lemma ClaimTakesUpOnly(db: Db, batch: seq<SegKey>, now: Time, cfg: Config)
    requires AllPointed(db) && forall j :: j in batch ==> HasHead(db, j)
    ensures OnlyTakenUp(db, ClaimDb(db, batch, now, cfg), batch, now, cfg)
  {
    var db' := ClaimDb(db, batch, now, cfg);
    forall id | id in db.rows && db'.rows[id] != db.rows[id]
      ensures exists k, e :: k in batch && Heads(db, k, e) &&
                if db.rows[e].expiresAt <= now || db.rows[e].attempts >= cfg.maxAttempts
                then Behind(db.rows[id], k, db.rows[e].createdAt) else id == e
    {
      var k := db.rows[id].Key();
      assert k in batch && Heads(db, k, db.segs[k].head.value) && HeadRow(db, k) == db.rows[db.segs[k].head.value];
    }
  }

  lemma ClaimInPlainTerms(db: Db, batch: seq<SegKey>, now: Time, cfg: Config)
    requires AllPointed(db) && cfg.batchSize > 0 && DueHeads(db, now) <= HeadStamps(db).Keys
    requires IsSelection(DueHeads(db, now), HeadStamps(db), cfg.batchSize, batch)
    requires forall k :: k in batch ==> HasHead(db, k)
    ensures ClaimsAsPromised(db, ClaimDb(db, batch, now, cfg), batch, now, cfg)
  {
    forall k, e | Heads(db, k, e) ensures k in DueHeads(db, now) <==> !Waits(db.rows[e], now) {
      DueIsNotWaiting(db, k, e, now);
    }
    SelectionIsOldestFirst(db, DueHeads(db, now), batch, (r: Row) => !Waits(r, now), cfg.batchSize);
    ClaimTakesUpOnly(db, batch, now, cfg);
    forall k, e | k in batch && Heads(db, k, e) ensures TakenUp(db, ClaimDb(db, batch, now, cfg), k, e, now, cfg) {
      ClaimTakesUp(db, batch, now, cfg, k, e);
    }
    hide ClaimDb, TakenUp, OnlyTakenUp, HasHead, Heads, IsSelection, AllPointed, DueHeads, HeadStamps;
  }

  lemma BatchWithin(before: Db, batch: seq<SegKey>)
    requires Distinct(batch) && forall k :: k in batch ==> k in before.segs
    requires |batch| >= |before.segs|
    ensures forall k :: k in before.segs ==> k in batch
  {
    DistinctCount(batch);
    assert Elems(batch) <= before.segs.Keys;
    assert |before.segs.Keys - Elems(batch)| == |before.segs.Keys| - |Elems(batch)|;
    assert before.segs.Keys - Elems(batch) == {};
    assert forall k :: k in before.segs ==> k in Elems(batch);
  }

  lemma RoomForAll(before: Db, batch: seq<SegKey>, due: Row -> bool, limit: int)
    requires OldestFirst(before, batch, due, limit)
    requires |batch| < limit || limit >= |before.segs|
    ensures forall k, e :: Heads(before, k, e) ==> (k in batch <==> due(before.rows[e]))
  {
    forall k | k in batch ensures k in before.segs {
      assert exists e :: Heads(before, k, e) && due(before.rows[e]);
    }
    if |batch| >= |before.segs| {
      BatchWithin(before, batch);
    }
    forall k, e | Heads(before, k, e) ensures k in batch <==> due(before.rows[e]) {
      if k in batch {
        assert exists d :: Heads(before, k, d) && due(before.rows[d]);
      }
      hide Distinct;
    }
  }

  // A claim that did not fill its batch, or could have taken every segment, left nothing that was due.
  lemma ClaimWithRoom(before: Db, after: Db, batch: seq<SegKey>, now: Time, cfg: Config)
    requires AllPointed(before) && ClaimsAsPromised(before, after, batch, now, cfg)
    requires |batch| < cfg.batchSize || cfg.batchSize >= |before.segs|
    ensures AllTakenUp(before, after, now, cfg)
  {
    RoomForAll(before, batch, (r: Row) => !Waits(r, now), cfg.batchSize);
    hide Waits, TakenUp, OnlyTakenUp, OldestFirst, AllPointed;
    forall k, e | Heads(before, k, e) && k !in batch
      ensures k in after.segs && after.segs[k] == before.segs[k] && e in after.rows && after.rows[e] == before.rows[e]
    {
      HeadsOfOthersStay(before, after, batch, now, cfg, k, e);
    }
  }

  lemma HeadsOfOthersStay(before: Db, after: Db, batch: seq<SegKey>, now: Time, cfg: Config, k: SegKey, e: Uuid)
    requires AllPointed(before) && OnlyTakenUp(before, after, batch, now, cfg)
    requires Heads(before, k, e) && k !in batch
    ensures k in after.segs && after.segs[k] == before.segs[k] && e in after.rows && after.rows[e] == before.rows[e]
  {
    forall j, d | Heads(before, j, d) ensures before.rows[d].Key() == j {
      assert Pointed(before, j);
    }
    hide AllPointed;
  }

  // ---- The events of a claim

  lemma {:induction false} EventsInBatchOrder(db: Db, batch: seq<SegKey>, now: Time, cfg: Config)
    requires forall k :: k in batch ==> HasHead(db, k) && HeadOwned(db, k)
    requires Distinct(batch)
    requires forall i, j :: 0 <= i < j < |batch| ==> HeadRow(db, batch[i]).createdAt <= HeadRow(db, batch[j]).createdAt
    ensures var es := ClaimEvents(db, batch, now, cfg);
            forall i, j :: 0 <= i < j < |es| ==> es[i].createdAt <= es[j].createdAt
  {
    if batch != [] {
      var k, front := batch[|batch| - 1], batch[..|batch| - 1];
      assert forall x :: x in front ==> x in batch;
      EventsInBatchOrder(db, front, now, cfg);
      ClaimEventsFrom(db, front, now, cfg);
      var before, es := ClaimEvents(db, front, now, cfg), ClaimEvents(db, batch, now, cfg);
      forall i, j | 0 <= i < j < |es| ensures es[i].createdAt <= es[j].createdAt {
        assert es[i] in before;
        var x :| 0 <= x < |front| && front[x] == es[i].key;
        assert batch[x] == es[i].key;
      }
    }
  }

  lemma EventsTellOfLeases(db: Db, batch: seq<SegKey>, now: Time, cfg: Config)
    requires AllPointed(db) && OldestFirst(db, batch, (r: Row) => !Waits(r, now), cfg.batchSize)
    requires forall k :: k in batch ==> HasHead(db, k)
    ensures TellsOfLeases(ClaimDb(db, batch, now, cfg), batch, ClaimEvents(db, batch, now, cfg))
  {
    var after, es := ClaimDb(db, batch, now, cfg), ClaimEvents(db, batch, now, cfg);
    forall k | k in batch ensures HeadOwned(db, k) {
      assert Pointed(db, k);
    }
    HeadsInOrder(db, batch, (r: Row) => !Waits(r, now), cfg.batchSize);
    EventsInBatchOrder(db, batch, now, cfg);
    ClaimEventsFrom(db, batch, now, cfg);
    forall e | e in es ensures Heads(after, e.key, e.id) && Tells(after, e) {
      LeaseIsTold(db, batch, now, cfg, e.key);
    }
    forall k | k in batch && after.segs[k].head.Some? ensures exists i :: 0 <= i < |es| && es[i].key == k {
      var e := LeaseEvent(db, k, now, cfg);
      LeaseIsTold(db, batch, now, cfg, k);
      assert e in es && e.key == k;
    }
    hide ClaimDb, ClaimEvents, OldestFirst, AllPointed, LeaseEvent, HeadRow, Tells, Heads, Spent, HasHead;
  }

  lemma HeadsInOrder(db: Db, batch: seq<SegKey>, due: Row -> bool, limit: int)
    requires OldestFirst(db, batch, due, limit) && forall k :: k in batch ==> HasHead(db, k)
    ensures forall i, j :: 0 <= i < j < |batch| ==> HeadRow(db, batch[i]).createdAt <= HeadRow(db, batch[j]).createdAt
  {
    forall i, j | 0 <= i < j < |batch| ensures HeadRow(db, batch[i]).createdAt <= HeadRow(db, batch[j]).createdAt {
      assert batch[i] in batch && batch[j] in batch;
      assert Heads(db, batch[i], db.segs[batch[i]].head.value) && Heads(db, batch[j], db.segs[batch[j]].head.value);
    }
  }

  lemma LeaseIsTold(db: Db, batch: seq<SegKey>, now: Time, cfg: Config, k: SegKey)
    requires Pointed(db, k) && k in batch && forall j :: j in batch ==> HasHead(db, j)
    ensures var after, e := ClaimDb(db, batch, now, cfg), LeaseEvent(db, k, now, cfg);
            && e.key == k && (after.segs[k].head.Some? <==> !Spent(HeadRow(db, k), now, cfg.maxAttempts))
            && (after.segs[k].head.Some? ==> Heads(after, k, e.id) && Tells(after, e))
  {
  }

  // ---- Acknowledge

  predicate Follows(db: Db, k: SegKey, now: Time, id: Uuid, x: Uuid) {
    x in db.rows && x != id && db.rows[x].device == k.device && db.rows[x].segment == k.segment
    && IsLive(db.rows[x]) && now < db.rows[x].expiresAt
  }

  // The next head is the oldest other row of the segment still to be delivered and not expired.
  ghost predicate NextInLine(db: Db, k: SegKey, now: Time, id: Uuid, head: Option<Uuid>) {
    && (head.None? ==> forall x :: !Follows(db, k, now, id, x))
    && (head.Some? ==> Follows(db, k, now, id, head.value)
                       && forall x :: Follows(db, k, now, id, x) ==> db.rows[head.value].createdAt <= db.rows[x].createdAt)
  }

  ghost predicate AcksAsPromised(before: Db, after: Db, now: Time, id: Uuid, device: DeviceId, segment: SegmentId) {
    if id !in before.rows || before.rows[id].device != device || before.rows[id].status == Acked
       || (segment != "" && segment != before.rows[id].segment) then after == before
    else
      var r := before.rows[id];
      var k := SegKey(device, r.segment);
      && after.rows == before.rows[id := r.(status := Acked, ackedAt := Some(now))]
      && after.segs.Keys == before.segs.Keys
      && (forall j :: j in before.segs && j != k ==> after.segs[j] == before.segs[j])
      && (k in before.segs ==>
            if before.segs[k].head == Some(id) then
              after.segs[k].inflight.None? && NextInLine(before, k, now, id, after.segs[k].head)
            else
              && after.segs[k].head == before.segs[k].head
              && after.segs[k].inflight == if before.segs[k].inflight == Some(id) then None else before.segs[k].inflight)
  }

  lemma AckInPlainTerms(db: Db, now: Time, id: Uuid, device: DeviceId, segment: SegmentId, next: Option<Uuid>)
    requires id in db.rows ==> MayFollow(db, db.rows[id].Key(), now, id, next)
    ensures AcksAsPromised(db, AckDb(db, now, id, device, segment, next), now, id, device, segment)
  {
    if id in db.rows {
      var k := db.rows[id].Key();
      forall x ensures x in Successors(db, k, now, id) <==> Follows(db, k, now, id, x) {
      }
      assert NextInLine(db, k, now, id, next);
      hide NextInLine, Successors, MayFollow;
    }
  }

  // ---- The janitor

  ghost predicate DropsAsPromised(before: Db, after: Db, batch: seq<SegKey>, now: Time, limit: nat) {
    && OldestFirst(before, batch, (r: Row) => r.expiresAt <= now, limit)
    && after.rows.Keys == before.rows.Keys && after.segs.Keys == before.segs.Keys
    && (forall k, e :: k in batch && Heads(before, k, e) ==> GivenUp(before, after, k, before.rows[e].createdAt))
    && (forall k :: k in before.segs && k !in batch ==> after.segs[k] == before.segs[k])
    && OnlyBehindHeads(before, after, batch)
  }

  ghost predicate OnlyBehindHeads(before: Db, after: Db, batch: seq<SegKey>) {
    forall id :: id in before.rows && id in after.rows && after.rows[id] != before.rows[id] ==>
      exists k, e :: k in batch && Heads(before, k, e) && Behind(before.rows[id], k, before.rows[e].createdAt)
  }

  // With room, every expired head is dropped and its segment left without head and lease.
  ghost predicate NoExpiredHeads(before: Db, after: Db, now: Time) {
    forall k, e :: Heads(before, k, e) && before.rows[e].expiresAt <= now ==>
      && k in after.segs && after.segs[k] == Seg(None, None)
      && e in after.rows && after.rows[e] == before.rows[e].(status := Dropped)
  }

  lemma DropGivesUp(db: Db, batch: seq<SegKey>, k: SegKey, e: Uuid)
    requires k in batch && Heads(db, k, e) && forall k :: k in batch ==> HasHead(db, k)
    ensures GivenUp(db, DropAll(db, batch), k, db.rows[e].createdAt)
  {
  }

  lemma DropGivesUpOnly(db: Db, batch: seq<SegKey>)
    requires forall k :: k in batch ==> HasHead(db, k)
    ensures OnlyBehindHeads(db, DropAll(db, batch), batch)
  {
    forall id | id in db.rows && DropAll(db, batch).rows[id] != db.rows[id]
      ensures exists k, e :: k in batch && Heads(db, k, e) && Behind(db.rows[id], k, db.rows[e].createdAt)
    {
      var k := db.rows[id].Key();
      assert k in batch && Heads(db, k, db.segs[k].head.value);
    }
  }

  lemma DropInPlainTerms(db: Db, batch: seq<SegKey>, now: Time, limit: nat)
    requires ExpiredHeads(db, now) <= HeadStamps(db).Keys
    requires IsSelection(ExpiredHeads(db, now), HeadStamps(db), limit, batch)
    requires forall k :: k in batch ==> HasHead(db, k)
    ensures DropsAsPromised(db, DropAll(db, batch), batch, now, limit)
  {
    var after := DropAll(db, batch);
    assert after.rows.Keys == db.rows.Keys && after.segs.Keys == db.segs.Keys;
    assert forall k :: k in db.segs && k !in batch ==> after.segs[k] == db.segs[k];
    forall k, e | Heads(db, k, e) ensures k in ExpiredHeads(db, now) <==> db.rows[e].expiresAt <= now {
    }
    hide IsSelection, HeadStamps, ExpiredHeads, GivenUp, DropAll, Heads, OldestFirst, OnlyBehindHeads;
    SelectionIsOldestFirst(db, ExpiredHeads(db, now), batch, (r: Row) => r.expiresAt <= now, limit);
    forall k, e | k in batch && Heads(db, k, e) ensures GivenUp(db, after, k, db.rows[e].createdAt) {
      DropGivesUp(db, batch, k, e);
    }
    DropGivesUpOnly(db, batch);
  }

  lemma DropWithRoom(before: Db, after: Db, batch: seq<SegKey>, now: Time, limit: nat)
    requires AllPointed(before) && DropsAsPromised(before, after, batch, now, limit)
    requires |batch| < limit || limit >= |before.segs|
    ensures NoExpiredHeads(before, after, now)
  {
    RoomForAll(before, batch, (r: Row) => r.expiresAt <= now, limit);
    HeadsGivenUp(before, after, batch, now);
    hide *;
  }

  lemma HeadsGivenUp(before: Db, after: Db, batch: seq<SegKey>, now: Time)
    requires AllPointed(before)
    requires forall k, e :: Heads(before, k, e) && before.rows[e].expiresAt <= now ==> k in batch
    requires forall k, e :: k in batch && Heads(before, k, e) ==> GivenUp(before, after, k, before.rows[e].createdAt)
    ensures NoExpiredHeads(before, after, now)
  {
    hide GivenUp, AllPointed;
    forall k, e | Heads(before, k, e) && before.rows[e].expiresAt <= now
      ensures k in after.segs && after.segs[k] == Seg(None, None)
      ensures e in after.rows && after.rows[e] == before.rows[e].(status := Dropped)
    {
      HeadGivenUp(before, after, k, e);
    }
  }

  lemma HeadGivenUp(before: Db, after: Db, k: SegKey, e: Uuid)
    requires AllPointed(before) && Heads(before, k, e) && GivenUp(before, after, k, before.rows[e].createdAt)
    ensures k in after.segs && after.segs[k] == Seg(None, None)
    ensures e in after.rows && after.rows[e] == before.rows[e].(status := Dropped)
  {
    assert Pointed(before, k) && Behind(before.rows[e], k, before.rows[e].createdAt);
    hide AllPointed;
  }

  // A row of the status whose ack, or else whose expiry, is no later than the cut-off.
  predicate PastRetention(r: Row, status: Status, olderThan: Time) {
    && r.status == status
    && (r.ackedAt.Some? ==> r.ackedAt.value <= olderThan)
    && (r.ackedAt.None? ==> r.expiresAt <= olderThan)
  }

  // The victims are rows past retention, oldest first, and as many as there is room for.
  ghost predicate PurgesAsPromised(before: Db, after: Db, status: Status, olderThan: Time, limit: nat,
      victims: seq<Uuid>)
  {
    && after.segs == before.segs && |victims| <= limit && Distinct(victims)
    && (forall id :: id in victims ==> id in before.rows && PastRetention(before.rows[id], status, olderThan))
    && (forall id :: id in after.rows <==> id in before.rows && id !in victims)
    && (forall id :: id in after.rows ==> after.rows[id] == before.rows[id])
    && forall id :: id in after.rows && PastRetention(after.rows[id], status, olderThan) ==>
         && |victims| == limit
         && forall v :: v in victims ==> before.rows[v].createdAt <= after.rows[id].createdAt
  }

  lemma PurgeInPlainTerms(db: Db, status: Status, olderThan: Time, limit: nat, victims: seq<Uuid>)
    requires IsSelection(Purgeable(db, status, olderThan), RowStamps(db), limit, victims)
    ensures PurgesAsPromised(db, DeleteDb(db, victims), status, olderThan, limit, victims)
  {
    SelectionInPlainTerms(Purgeable(db, status, olderThan), RowStamps(db), limit, victims);
  }

  // ---- Listing

  predicate IsLeased(r: Row, device: DeviceId, now: Time) {
    r.device == device && r.status == InFlight && r.inflightUntil.Some? && now < r.inflightUntil.value
  }

  // The device's rows leased beyond the reading, each once, oldest first, and all there is room for.
  ghost predicate ListsAsPromised(db: Db, device: DeviceId, now: Time, limit: nat, events: seq<OutboxEvent>) {
    && |events| <= limit
    && (forall i :: 0 <= i < |events| ==> Tells(db, events[i]) && IsLeased(db.rows[events[i].id], device, now))
    && (forall i, j :: 0 <= i < j < |events| ==> events[i].id != events[j].id && events[i].createdAt <= events[j].createdAt)
    && forall id :: id in db.rows && IsLeased(db.rows[id], device, now) ==>
         || (exists i :: 0 <= i < |events| && events[i].id == id)
         || (|events| == limit && forall i :: 0 <= i < |events| ==> events[i].createdAt <= db.rows[id].createdAt)
  }

  lemma ListInPlainTerms(db: Db, device: DeviceId, now: Time, limit: nat, ids: seq<Uuid>)
    requires IsSelection(InFlightAt(db, device, now), RowStamps(db), limit, ids)
    requires forall id :: id in ids ==> id in db.rows
    ensures ListsAsPromised(db, device, now, limit, EventsOf(db, ids))
  {
    var events := EventsOf(db, ids);
    SelectionInPlainTerms(InFlightAt(db, device, now), RowStamps(db), limit, ids);
    forall i | 0 <= i < |events| ensures Tells(db, events[i]) && events[i].id == ids[i] {
    }
    forall id | id in db.rows && IsLeased(db.rows[id], device, now) && id in ids
      ensures exists i :: 0 <= i < |events| && events[i].id == id
    {
      var i :| 0 <= i < |ids| && ids[i] == id;
      assert events[i].id == id;
    }
    hide IsSelection, Tells;
  }

  // A row put in flight by a claim is the head of a chosen segment.
  lemma LeasedByClaim(before: Db, after: Db, batch: seq<SegKey>, now: Time, cfg: Config, e: Uuid) returns (k: SegKey)
    requires AllPointed(before) && ClaimsAsPromised(before, after, batch, now, cfg)
    requires e in before.rows && e in after.rows && after.rows[e].status == InFlight && after.rows[e] != before.rows[e]
    ensures k in batch && k.device == after.rows[e].device && k in after.segs && after.segs[k].head == Some(e)
  {
    var d;
    k, d := TakenUpFor(before, after, batch, now, cfg, e);
    assert TakenUp(before, after, k, d, now, cfg) && Pointed(before, k);
    hide *;
    LeaseOfTakenUp(before, after, k, d, now, cfg, e);
  }

  lemma LeaseOfTakenUp(before: Db, after: Db, k: SegKey, d: Uuid, now: Time, cfg: Config, e: Uuid)
    requires Pointed(before, k) && Heads(before, k, d) && TakenUp(before, after, k, d, now, cfg)
    requires e in before.rows && e in after.rows && after.rows[e].status == InFlight
    requires if before.rows[d].expiresAt <= now || before.rows[d].attempts >= cfg.maxAttempts
             then Behind(before.rows[e], k, before.rows[d].createdAt) else e == d
    ensures k.device == after.rows[e].device && k in after.segs && after.segs[k].head == Some(e)
  {
  }

  lemma TakenUpFor(before: Db, after: Db, batch: seq<SegKey>, now: Time, cfg: Config, id: Uuid)
      returns (k: SegKey, e: Uuid)
    requires OnlyTakenUp(before, after, batch, now, cfg)
    requires id in before.rows && id in after.rows && after.rows[id] != before.rows[id]
    ensures k in batch && Heads(before, k, e)
    ensures if before.rows[e].expiresAt <= now || before.rows[e].attempts >= cfg.maxAttempts
            then Behind(before.rows[id], k, before.rows[e].createdAt) else id == e
  {
    k, e :| k in batch && Heads(before, k, e) &&
      if before.rows[e].expiresAt <= now || before.rows[e].attempts >= cfg.maxAttempts
      then Behind(before.rows[id], k, before.rows[e].createdAt) else id == e;
  }

  // ---- Append

  // The payload gives s, a text that is not all white space, under the name.
  predicate Gives(payload: map<string, PayloadValue>, name: string, s: string) {
    name in payload && payload[name] == Text(s) && exists i :: 0 <= i < |s| && !IsSpace(s[i])
  }

  // s is the queue of the event: the text given as its room, else as its chat, else as its segment;
  // if none is given, the queue of its type.
  ghost predicate BelongsTo(ev: DomainEvent, s: SegmentId) {
    || Gives(ev.payload, "roomId", s)
    || (Gives(ev.payload, "chatId", s) && forall t :: !Gives(ev.payload, "roomId", t))
    || (Gives(ev.payload, "segmentId", s) && forall t :: !Gives(ev.payload, "roomId", t) && !Gives(ev.payload, "chatId", t))
    || (s == "global:" + ev.eventType
        && forall t :: !Gives(ev.payload, "roomId", t) && !Gives(ev.payload, "chatId", t) && !Gives(ev.payload, "segmentId", t))
  }

  lemma NamesIsGives(payload: map<string, PayloadValue>, name: string)
    ensures Names(payload, name) ==> Gives(payload, name, payload[name].text)
    ensures !Names(payload, name) ==> forall t :: !Gives(payload, name, t)
  {
  }

  // Every event has one queue.
  lemma EveryEventBelongs(ev: DomainEvent, s: SegmentId)
    ensures BelongsTo(ev, s) <==> s == SegmentOf(ev)
  {
    NamesIsGives(ev.payload, "roomId");
    NamesIsGives(ev.payload, "chatId");
    NamesIsGives(ev.payload, "segmentId");
    hide Gives, Names;
    assert Gives(ev.payload, "roomId", s) ==> ev.payload["roomId"].text == s by {
      GivesOne(ev.payload, "roomId");
    }
    GivesOne(ev.payload, "chatId");
    GivesOne(ev.payload, "segmentId");
  }

  lemma GivesOne(payload: map<string, PayloadValue>, name: string)
    ensures forall t :: Gives(payload, name, t) ==> name in payload && payload[name] == Text(t)
  {
  }

  // A row of the event for the device waits in the queue s, and the queue has a head: the one it had,
  // or else this row.
  predicate PutInto(before: Db, after: Db, ev: DomainEvent, d: DeviceId, s: SegmentId) {
    var id, k := Derived(ev.id, d), SegKey(d, s);
    && id in after.rows
    && after.rows[id] == (if id in before.rows then before.rows[id]
                          else Row(d, s, Pending, ev.availableAt, None, 0, ev.createdAt, ev.expiresAt, None, None))
    && k in after.segs
    && after.segs[k] == (if k !in before.segs then Seg(Some(id), None)
                         else if before.segs[k].head.Some? then before.segs[k]
                         else Seg(Some(id), before.segs[k].inflight))
  }

  ghost predicate AppendsAsPromised(before: Db, after: Db, ev: DomainEvent, devices: seq<DeviceId>) {
    && (forall d, s :: d in devices && BelongsTo(ev, s) ==> PutInto(before, after, ev, d, s))
    && (forall id :: id in before.rows ==> id in after.rows && after.rows[id] == before.rows[id])
    && (forall id :: id in after.rows && id !in before.rows ==> id.Derived? && id.event == ev.id && id.device in devices)
    && (forall k :: k in before.segs ==> k in after.segs)
    && (forall k :: k in after.segs && !(k.device in devices && BelongsTo(ev, k.segment)) ==>
          k in before.segs && after.segs[k] == before.segs[k])
  }

  lemma AppendInPlainTerms(db: Db, ev: DomainEvent, devices: seq<DeviceId>)
    ensures AppendsAsPromised(db, AppendDb(db, ev, Elems(devices)), ev, devices)
  {
    var after := AppendDb(db, ev, Elems(devices));
    hide BelongsTo, SegmentOf, PutInto, AppendDb;
    AppendLeavesRest(db, ev, devices);
    forall d, s | d in devices && BelongsTo(ev, s) ensures PutInto(db, after, ev, d, s) {
      EveryEventBelongs(ev, s);
      AppendPutsInto(db, ev, Elems(devices), d);
    }
    forall k | k in after.segs && !(k.device in devices && BelongsTo(ev, k.segment))
      ensures k in db.segs && after.segs[k] == db.segs[k]
    {
      EveryEventBelongs(ev, k.segment);
    }
  }

  lemma AppendLeavesRest(db: Db, ev: DomainEvent, devices: seq<DeviceId>)
    ensures var after := AppendDb(db, ev, Elems(devices));
            && (forall id :: id in db.rows ==> id in after.rows && after.rows[id] == db.rows[id])
            && (forall id :: id in after.rows && id !in db.rows ==> id.Derived? && id.event == ev.id && id.device in devices)
            && (forall k :: k in db.segs ==> k in after.segs)
            && (forall k :: k in after.segs && !(k.device in devices && k.segment == SegmentOf(ev)) ==>
                  k in db.segs && after.segs[k] == db.segs[k])
  {
    hide SegmentOf;
  }

  lemma AppendPutsInto(db: Db, ev: DomainEvent, targets: set<DeviceId>, d: DeviceId)
    requires d in targets
    ensures PutInto(db, AppendDb(db, ev, targets), ev, d, SegmentOf(ev))
  {
    hide SegmentOf;
    assert Derived(ev.id, d) in Inserted(ev, targets) && SegKey(d, SegmentOf(ev)) in Upserts(db, ev, targets);
  }

  // Events naming one room share its queue, whatever their types are: the later one's row waits
  // behind the earlier one's, and the queue's head is not it.
  lemma OneRoomIsOneQueue(db: Db, db': Db, db'': Db, first: DomainEvent, second: DomainEvent, d: DeviceId, room: string)
    requires AppendsAsPromised(db, db', first, [d]) && AppendsAsPromised(db', db'', second, [d])
    requires Gives(first.payload, "roomId", room) && Gives(second.payload, "roomId", room) && first.id != second.id
    requires Derived(first.id, d) !in db.rows && Derived(second.id, d) !in db.rows
    ensures var a, b := Derived(first.id, d), Derived(second.id, d);
            && a in db''.rows && b in db''.rows
            && db''.rows[a].device == db''.rows[b].device == d && db''.rows[a].segment == db''.rows[b].segment == room
            && SegKey(d, room) in db''.segs
            && (SegKey(d, room) in db.segs && db.segs[SegKey(d, room)].head.Some? ==>
                  db''.segs[SegKey(d, room)].head == db.segs[SegKey(d, room)].head)
            && (SegKey(d, room) !in db.segs || db.segs[SegKey(d, room)].head.None? ==>
                  db''.segs[SegKey(d, room)].head == Some(a))
  {
    assert BelongsTo(first, room) && BelongsTo(second, room);
    assert d in [d];
    assert PutInto(db, db', first, d, room) && PutInto(db', db'', second, d, room);
    hide Gives, BelongsTo;
  }

  // An ack that names the device and the room hits the row just appended.
  lemma AckHitsAppended(db: Db, db': Db, ev: DomainEvent, devices: seq<DeviceId>, d: DeviceId, room: string,
      now: Time, next: Option<Uuid>)
    requires AppendsAsPromised(db, db', ev, devices) && d in devices && Derived(ev.id, d) !in db.rows
    requires Gives(ev.payload, "roomId", room)
    ensures var rows := AckDb(db', now, Derived(ev.id, d), d, room, next).rows;
            Derived(ev.id, d) in rows && rows[Derived(ev.id, d)].status == Acked && rows[Derived(ev.id, d)].ackedAt == Some(now)
  {
    assert BelongsTo(ev, room);
    assert PutInto(db, db', ev, d, room);
    hide Gives, BelongsTo;
  }
}
