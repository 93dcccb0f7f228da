/**
 The repository over the two tables. Every method loops the way the queries are issued, and
 is proved to have the whole-table effect OutboxSteps gives it.
 */
module OutboxStore {
  import opened OutboxTypes
  import opened OutboxSteps
  import opened OutboxInvariant
  import opened OutboxPromises
  import opened Selection
  import opened Wrappers

  class Store {
    var rows: map<Uuid, Row>
    var segs: map<SegKey, Seg>

    constructor ()
      ensures Tables() == Db(map[], map[])
    {
      rows, segs := map[], map[];
    }

    function Tables(): Db
      reads this
    {
      Db(rows, segs)
    }

    // One insert and one upsert for each target device.
    method AppendOutbox(ev: DomainEvent, deviceIDs: seq<DeviceId>)
      modifies this
      ensures Tables() == AppendDb(old(Tables()), ev, Elems(deviceIDs))
      ensures AppendsAsPromised(old(Tables()), Tables(), ev, deviceIDs)
    {
      hide AppendDb, SegmentOf, FreshRow, Elems, AppendsAsPromised;
      var segment := SegmentOf(ev);
      ghost var db := Tables();
      NothingAppended(db, ev);
      for i := 0 to |deviceIDs|
        invariant Tables() == AppendDb(db, ev, Elems(deviceIDs[..i]))
      {
        var d := deviceIDs[i];
        var id, k := Derived(ev.id, d), SegKey(d, segment);
        AppendOneMore(db, ev, Elems(deviceIDs[..i]), d);
        ElemsMore(deviceIDs, i);
        if id !in rows {
          rows := rows[id := FreshRow(ev, d)];
        }
        if k in segs {
          segs := segs[k := segs[k].(head := Some(Coalesce(segs[k].head, id)))];
        } else {
          segs := segs[k := Seg(Some(id), None)];
        }
      }
      assert deviceIDs[..|deviceIDs|] == deviceIDs;
      AppendInPlainTerms(db, ev, deviceIDs);
    }

    method DropSegmentTail(k: SegKey, from: Time)
      modifies this
      ensures Tables() == DropDb(old(Tables()), k, from)
      ensures rows.Keys == old(rows).Keys && segs.Keys == old(segs).Keys
      ensures forall id :: id in rows ==>
                rows[id] == if Behind(old(rows)[id], k, from) then old(rows)[id].(status := Dropped) else old(rows)[id]
      ensures forall j :: j in segs ==> segs[j] == if j == k then Seg(None, None) else old(segs)[j]
    {
      rows := map id | id in rows :: if InTail(rows[id], k, from) then rows[id].(status := Dropped) else rows[id];
      if k in segs {
        segs := segs[k := Seg(None, None)];
      }
    }

    // The candidates are read once; each is then leased or dropped by what was read of it.
    method ClaimPending(now: Time, cfg: Config) returns (events: seq<OutboxEvent>, ghost batch: seq<SegKey>)
      requires AllPointed(Tables())
      modifies this
      ensures AllPointed(Tables()) && (old(WellFormed(Tables())) ==> WellFormed(Tables()))
      ensures cfg.batchSize <= 0 ==> Tables() == old(Tables()) && events == [] && batch == []
      ensures cfg.batchSize > 0 ==>
                && DueHeads(old(Tables()), now) <= HeadStamps(old(Tables())).Keys
                && IsSelection(DueHeads(old(Tables()), now), HeadStamps(old(Tables())), cfg.batchSize, batch)
      ensures forall k :: k in batch ==> HasHead(old(Tables()), k)
      ensures Tables() == ClaimDb(old(Tables()), batch, now, cfg)
      ensures events == ClaimEvents(old(Tables()), batch, now, cfg)
      ensures cfg.batchSize > 0 ==>
                && ClaimsAsPromised(old(Tables()), Tables(), batch, now, cfg)
                && TellsOfLeases(Tables(), batch, events)
                && (|batch| < cfg.batchSize || cfg.batchSize >= |old(segs)| ==>
                      AllTakenUp(old(Tables()), Tables(), now, cfg))
    {
      hide ClaimsAsPromised, TellsOfLeases, AllTakenUp;
      hide Spent, Leased, EventOf, DropDb, ClaimDb, ClaimEvents, WellFormed, AllPointed, IsSelection, DueHeads, HeadStamps, HeadRow;
      events, batch := [], [];
      ghost var db := Tables();
      if cfg.batchSize <= 0 {
        NothingClaimed(db, now, cfg);
        return;
      }
      DueAreStamped(db, now);
      var candidates := Select(DueHeads(Tables(), now), HeadStamps(Tables()), cfg.batchSize);
      ChosenDue(db, now, cfg.batchSize, candidates);
      var read := map k | k in candidates :: (segs[k].head.value, HeadRow(Tables(), k));
      batch := candidates;
      NothingClaimed(db, now, cfg);
      for i := 0 to |candidates|
        invariant Tables() == ClaimDb(db, candidates[..i], now, cfg)
        invariant events == ClaimEvents(db, candidates[..i], now, cfg)
      {
        var k := candidates[i];
        var (id, item) := read[k];
        CandidateUntouched(db, candidates, i, now, cfg);
        ClaimOneMore(db, candidates, i, now, cfg);
        ClaimOneEvent(db, candidates, i, now, cfg);
        if Spent(item, now, cfg.maxAttempts) {
          DropSegmentTail(k, item.createdAt);
        } else {
          rows := rows[id := Leased(rows[id], now, cfg.ackTimeout)];
          segs := segs[k := segs[k].(inflight := Some(id))];
          events := events + [EventOf(id, rows[id])];
        }
      }
      assert candidates[..|candidates|] == candidates;
      ClaimPromises(db, batch, now, cfg);
      ClaimKeepsAll(db, batch, now, cfg);
      if WellFormed(db) {
        ClaimKeepsWellFormed(db, batch, now, cfg);
      }
    }

    method ListInflight(device: DeviceId, now: Time, limit: nat)
        returns (events: seq<OutboxEvent>, ghost ids: seq<Uuid>)
      ensures IsSelection(InFlightAt(Tables(), device, now), RowStamps(Tables()), limit, ids)
      ensures forall id :: id in ids ==> id in rows
      ensures events == EventsOf(Tables(), ids)
      ensures ListsAsPromised(Tables(), device, now, limit, events)
    {
      hide ListsAsPromised;
      var chosen := Select(InFlightAt(Tables(), device, now), RowStamps(Tables()), limit);
      ids := chosen;
      assert forall id :: id in chosen ==> id in Elems(chosen);
      events := [];
      for i := 0 to |chosen|
        invariant events == EventsOf(Tables(), chosen[..i])
      {
        events := events + [EventOf(chosen[i], rows[chosen[i]])];
        assert chosen[..i + 1] == chosen[..i] + [chosen[i]];
      }
      assert chosen[..|chosen|] == chosen;
      ListInPlainTerms(Tables(), device, now, limit, chosen);
    }

    method AcknowledgeOutbox(now: Time, id: Uuid, device: DeviceId, segment: SegmentId)
        returns (ghost next: Option<Uuid>)
      requires AllPointed(Tables())
      modifies this
      ensures AllPointed(Tables()) && (old(WellFormed(Tables())) ==> WellFormed(Tables()))
      ensures id in old(rows) ==> MayFollow(old(Tables()), old(rows[id].Key()), now, id, next)
      ensures Tables() == AckDb(old(Tables()), now, id, device, segment, next)
      ensures AcksAsPromised(old(Tables()), Tables(), now, id, device, segment)
    {
      hide AcksAsPromised;
      ghost var db := Tables();
      if id !in rows {
        AckInPlainTerms(db, now, id, device, segment, None);
        return None;
      }
      // The successor is read up front; only an ack of the head makes use of it.
      var k := rows[id].Key();
      var after := Successors(Tables(), k, now, id);
      var first := None;
      if after != {} {
        var x := Earliest(after, RowStamps(Tables()));
        first := Some(x);
      }
      next := first;
      AckKeepsAll(db, now, id, device, segment, next);
      AckInPlainTerms(db, now, id, device, segment, next);
      if WellFormed(db) {
        AckKeepsWellFormed(db, now, id, device, segment, next);
      }
      if rows[id].device != device || (segment != "" && segment != rows[id].segment) || rows[id].status.Acked? {
        return;
      }
      rows := rows[id := rows[id].(status := Acked, ackedAt := Some(now))];
      if k !in segs || segs[k].head != Some(id) {
        if k in segs && segs[k].inflight == Some(id) {
          segs := segs[k := segs[k].(inflight := None)];
        }
        return;
      }
      segs := segs[k := Seg(first, None)];
    }

    // The scan and the drops it leads to, with nobody in between.
    method DropExpiredHeads(now: Time, batchSize: nat) returns (count: nat, ghost batch: seq<SegKey>)
      requires AllPointed(Tables())
      modifies this
      ensures AllPointed(Tables()) && (old(WellFormed(Tables())) ==> WellFormed(Tables()))
      ensures ExpiredHeads(old(Tables()), now) <= HeadStamps(old(Tables())).Keys
      ensures IsSelection(ExpiredHeads(old(Tables()), now), HeadStamps(old(Tables())), batchSize, batch)
      ensures count == |batch|
      ensures forall k :: k in batch ==> HasHead(old(Tables()), k)
      ensures Tables() == DropAll(old(Tables()), batch)
      ensures DropsAsPromised(old(Tables()), Tables(), batch, now, batchSize)
      ensures |batch| < batchSize || batchSize >= |old(segs)| ==> NoExpiredHeads(old(Tables()), Tables(), now)
    {
      hide DropsAsPromised, NoExpiredHeads;
      hide DropDb, DropAll, WellFormed, AllPointed, IsSelection, ExpiredHeads, HeadStamps, HasHead, HeadRow;
      ghost var db := Tables();
      ExpiredAreStamped(db, now);
      var expired := Select(ExpiredHeads(Tables(), now), HeadStamps(Tables()), batchSize);
      ChosenExpired(db, now, batchSize, expired);
      var stamps := map k | k in expired :: HeadRow(Tables(), k).createdAt;
      batch := expired;
      count := 0;
      for i := 0 to |expired|
        invariant count == i
        invariant Tables() == DropAll(db, expired[..i])
      {
        DropOneMore(db, expired, i);
        DropSegmentTail(expired[i], stamps[expired[i]]);
        count := count + 1;
      }
      assert expired[..|expired|] == expired;
      DropAllKeepsPointers(db, expired);
      DropInPlainTerms(db, expired, now, batchSize);
      if |expired| < batchSize || batchSize >= |db.segs| {
        DropWithRoom(db, Tables(), expired, now, batchSize);
      }
    }

    method DeleteTerminal(status: Status, olderThan: Time, limit: nat) returns (count: nat, ghost victims: seq<Uuid>)
      requires status.Acked? || status.Dropped?
      requires AllPointed(Tables())
      modifies this
      ensures AllPointed(Tables()) && (old(WellFormed(Tables())) ==> WellFormed(Tables()))
      ensures IsSelection(Purgeable(old(Tables()), status, olderThan), RowStamps(old(Tables())), limit, victims)
      ensures count == |victims|
      ensures Tables() == DeleteDb(old(Tables()), victims)
      ensures PurgesAsPromised(old(Tables()), Tables(), status, olderThan, limit, victims)
    {
      hide PurgesAsPromised;
      var gone := Select(Purgeable(Tables(), status, olderThan), RowStamps(Tables()), limit);
      victims := gone;
      assert forall id :: id in gone ==> id in Elems(gone);
      DeleteKeepsInv(Tables(), gone, 0);
      PurgeInPlainTerms(Tables(), status, olderThan, limit, gone);
      rows := rows - Elems(gone);
      count := |gone|;
    }
  }

  lemma ClaimPromises(db: Db, batch: seq<SegKey>, now: Time, cfg: Config)
    requires AllPointed(db) && cfg.batchSize > 0 && DueHeads(db, now) <= HeadStamps(db).Keys
    requires IsSelection(DueHeads(db, now), HeadStamps(db), cfg.batchSize, batch)
    requires forall k :: k in batch ==> HasHead(db, k)
    ensures var after := ClaimDb(db, batch, now, cfg);
            && ClaimsAsPromised(db, after, batch, now, cfg)
            && TellsOfLeases(after, batch, ClaimEvents(db, batch, now, cfg))
            && (|batch| < cfg.batchSize || cfg.batchSize >= |db.segs| ==> AllTakenUp(db, after, now, cfg))
  {
    ClaimInPlainTerms(db, batch, now, cfg);
    EventsTellOfLeases(db, batch, now, cfg);
    hide ClaimDb, ClaimEvents, TellsOfLeases, AllTakenUp, IsSelection, AllPointed, OldestFirst, OnlyTakenUp, TakenUp;
    if |batch| < cfg.batchSize || cfg.batchSize >= |db.segs| {
      ClaimWithRoom(db, ClaimDb(db, batch, now, cfg), batch, now, cfg);
    }
  }

  // ---- One more round of each loop

  lemma NothingAppended(db: Db, ev: DomainEvent)
    ensures AppendDb(db, ev, Elems([])) == db
  {
    assert Elems<DeviceId>([]) == {};
  }

  // The next device's insert and upsert, on the tables the earlier ones left.
  lemma AppendOneMore(db: Db, ev: DomainEvent, done: set<DeviceId>, d: DeviceId)
    ensures var now, id, k := AppendDb(db, ev, done), Derived(ev.id, d), SegKey(d, SegmentOf(ev));
            var grown := AppendDb(db, ev, done + {d});
            && grown.rows == (if id in now.rows then now.rows else now.rows[id := FreshRow(ev, d)])
            && grown.segs == now.segs[k := Seg(Some(Coalesce(now.Head(k), id)), now.Lease(k))]
  {
    AppendOneRow(db, ev, done, d);
    AppendOneSeg(db, ev, done, d);
  }

  lemma AppendOneRow(db: Db, ev: DomainEvent, done: set<DeviceId>, d: DeviceId)
    ensures var before, id := Inserted(ev, done) + db.rows, Derived(ev.id, d);
            Inserted(ev, done + {d}) + db.rows == if id in before then before else before[id := FreshRow(ev, d)]
  {
  }

  lemma AppendOneSeg(db: Db, ev: DomainEvent, done: set<DeviceId>, d: DeviceId)
    ensures var before, k := AppendDb(db, ev, done), SegKey(d, SegmentOf(ev));
            AppendDb(db, ev, done + {d}).segs ==
            before.segs[k := Seg(Some(Coalesce(before.Head(k), Derived(ev.id, d))), before.Lease(k))]
  {
    AppendPointers(db, ev, done, SegKey(d, SegmentOf(ev)));
    UpsertsMore(db, ev, done, d);
    hide Upserts;
  }

  lemma UpsertsMore(db: Db, ev: DomainEvent, done: set<DeviceId>, d: DeviceId)
    ensures Upserts(db, ev, done + {d}) == Upserts(db, ev, done)[SegKey(d, SegmentOf(ev)) := Upsert(db, ev, d)]
  {
  }

  lemma ChosenDue(db: Db, now: Time, limit: nat, batch: seq<SegKey>)
    requires DueHeads(db, now) <= HeadStamps(db).Keys
    requires IsSelection(DueHeads(db, now), HeadStamps(db), limit, batch)
    ensures Distinct(batch) && forall k :: k in batch ==> HasHead(db, k)
  {
    assert forall k :: k in batch ==> k in Elems(batch);
  }

  lemma NothingClaimed(db: Db, now: Time, cfg: Config)
    ensures ClaimDb(db, [], now, cfg) == db && ClaimEvents(db, [], now, cfg) == []
  {
  }

  // The i-th candidate still reads as it did: no earlier one touched its segment or its head.
  lemma CandidateUntouched(db: Db, batch: seq<SegKey>, i: nat, now: Time, cfg: Config)
    requires AllPointed(db) && Distinct(batch) && i < |batch| && forall k :: k in batch ==> HasHead(db, k)
    ensures var k, d := batch[i], ClaimDb(db, batch[..i], now, cfg);
            && HasHead(db, k) && k in d.segs && d.segs[k] == db.segs[k] && HeadRow(db, k).Key() == k
            && db.segs[k].head.value in d.rows && d.rows[db.segs[k].head.value] == HeadRow(db, k)
            && forall id :: id in db.rows && db.rows[id].Key() == k ==> d.rows[id] == db.rows[id]
  {
    var k := batch[i];
    assert k in batch && Pointed(db, k) && k !in batch[..i];
  }

  lemma ClaimOneRow(db: Db, batch: seq<SegKey>, i: nat, now: Time, cfg: Config, id: Uuid)
    requires AllPointed(db) && Distinct(batch) && i < |batch| && id in db.rows
    requires forall k :: k in batch ==> HasHead(db, k)
    ensures var k, r := batch[i], ClaimRow(db, batch[..i], now, cfg, id);
            && HasHead(db, k)
            && ClaimRow(db, batch[..i + 1], now, cfg, id) ==
               if Spent(HeadRow(db, k), now, cfg.maxAttempts) then
                 if InTail(r, k, HeadRow(db, k).createdAt) then r.(status := Dropped) else r
               else if id == db.segs[k].head.value then Leased(HeadRow(db, k), now, cfg.ackTimeout) else r
  {
    var k := batch[i];
    assert k in batch && Pointed(db, k) && k !in batch[..i];
    assert batch[..i + 1] == batch[..i] + [k];
  }

  lemma ClaimOneMore(db: Db, batch: seq<SegKey>, i: nat, now: Time, cfg: Config)
    requires AllPointed(db) && Distinct(batch) && i < |batch| && forall k :: k in batch ==> HasHead(db, k)
    ensures var k, d := batch[i], ClaimDb(db, batch[..i], now, cfg);
            && HasHead(db, k)
            && ClaimDb(db, batch[..i + 1], now, cfg) ==
               if Spent(HeadRow(db, k), now, cfg.maxAttempts) then DropDb(d, k, HeadRow(db, k).createdAt)
               else Db(d.rows[db.segs[k].head.value := Leased(HeadRow(db, k), now, cfg.ackTimeout)],
                       d.segs[k := Seg(db.segs[k].head, db.segs[k].head)])
  {
    var k, d, d' := batch[i], ClaimDb(db, batch[..i], now, cfg), ClaimDb(db, batch[..i + 1], now, cfg);
    CandidateUntouched(db, batch, i, now, cfg);
    assert batch[..i + 1] == batch[..i] + [k];
    forall id | id in db.rows
      ensures d'.rows[id] == if Spent(HeadRow(db, k), now, cfg.maxAttempts) then
                               if InTail(d.rows[id], k, HeadRow(db, k).createdAt) then d.rows[id].(status := Dropped) else d.rows[id]
                             else if id == db.segs[k].head.value then Leased(HeadRow(db, k), now, cfg.ackTimeout) else d.rows[id]
    {
      ClaimOneRow(db, batch, i, now, cfg, id);
    }
  }

  lemma ClaimOneEvent(db: Db, batch: seq<SegKey>, i: nat, now: Time, cfg: Config)
    requires i < |batch| && forall k :: k in batch ==> HasHead(db, k)
    ensures HasHead(db, batch[i])
    ensures ClaimEvents(db, batch[..i + 1], now, cfg) ==
            ClaimEvents(db, batch[..i], now, cfg) +
            if Spent(HeadRow(db, batch[i]), now, cfg.maxAttempts) then [] else [LeaseEvent(db, batch[i], now, cfg)]
  {
    assert batch[..i + 1][..i] == batch[..i] && batch[i] in batch;
  }

  lemma DropAllKeepsPointers(db: Db, batch: seq<SegKey>)
    requires AllPointed(db) && forall k :: k in batch ==> HasHead(db, k)
    ensures AllPointed(DropAll(db, batch))
    ensures WellFormed(db) ==> WellFormed(DropAll(db, batch))
  {
    var db' := DropAll(db, batch);
    forall k ensures Pointed(db', k) {
      assert Pointed(db, k);
    }
    if WellFormed(db) {
      DropAllKeepsWellFormed(db, batch);
    }
  }

  lemma DropAllKeepsWellFormed(db: Db, batch: seq<SegKey>)
    requires WellFormed(db) && forall k :: k in batch ==> HasHead(db, k)
    ensures WellFormed(DropAll(db, batch))
  {
    var db' := DropAll(db, batch);
    forall k ensures HeadOwned(db', k) && LeaseExact(db', k) {
      assert HeadOwned(db, k) && LeaseExact(db, k);
    }
    forall id | id in db'.rows && db'.rows[id].status.InFlight?
      ensures db'.Head(db'.rows[id].Key()) == Some(id)
    {
      assert HeadOwned(db, db.rows[id].Key());
    }
  }

  lemma ExpiredAreStamped(db: Db, now: Time)
    ensures ExpiredHeads(db, now) <= HeadStamps(db).Keys
  {
  }

  lemma ChosenExpired(db: Db, now: Time, limit: nat, batch: seq<SegKey>)
    requires ExpiredHeads(db, now) <= HeadStamps(db).Keys
    requires IsSelection(ExpiredHeads(db, now), HeadStamps(db), limit, batch)
    ensures Distinct(batch) && |batch| <= limit && (forall k :: k in batch ==> HasHead(db, k)) && DropAll(db, []) == db
  {
    assert forall k :: k in batch ==> k in Elems(batch);
  }

  lemma DropOneMore(db: Db, batch: seq<SegKey>, i: nat)
    requires Distinct(batch) && i < |batch| && forall k :: k in batch ==> HasHead(db, k)
    ensures HasHead(db, batch[i])
    ensures DropAll(db, batch[..i + 1]) == DropDb(DropAll(db, batch[..i]), batch[i], HeadRow(db, batch[i]).createdAt)
  {
    var k := batch[i];
    assert k in batch && k !in batch[..i];
    assert batch[..i + 1] == batch[..i] + [k];
    hide HasHead, HeadRow;
  }
}
