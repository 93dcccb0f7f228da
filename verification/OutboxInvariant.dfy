/** What every outbox step keeps, whichever segment is looked at. */
module OutboxInvariant {
  import opened OutboxTypes
  import opened OutboxSteps
  import opened Selection
  import opened Wrappers

  // A head is a live row of its own segment.
  ghost predicate HeadOwned(db: Db, k: SegKey) {
    db.Head(k).Some? ==> db.LiveIn(k, db.Head(k).value)
  }

  // The in-flight pointer is the head exactly while the head is in flight.
  ghost predicate LeaseExact(db: Db, k: SegKey) {
    db.Lease(k) == match db.Head(k)
                   case Some(e) => if e in db.rows && db.rows[e].status.InFlight? then Some(e) else None
                   case None => None
  }

  ghost predicate OnlyHeadsFly(db: Db) {
    forall id :: id in db.rows && db.rows[id].status.InFlight? ==> db.Head(db.rows[id].Key()) == Some(id)
  }

  // Heads, leases and in-flight rows match exactly.
  ghost predicate WellFormed(db: Db) {
    && OnlyHeadsFly(db)
    && forall k :: HeadOwned(db, k) && LeaseExact(db, k)
  }

  // The head is a live row of the segment, and only a head is pointed at as in flight.
  ghost predicate Pointed(db: Db, k: SegKey) {
    HeadOwned(db, k) && (db.Lease(k).Some? ==> db.Lease(k) == db.Head(k))
  }

  // The clock-free part: what the methods of the store rely on.
  ghost predicate AllPointed(db: Db) {
    forall k :: Pointed(db, k)
  }

  // A scan for rows still deliverable at the clock finds none before the cached head,
  // and none at all when there is no head.
  ghost predicate HeadCurrent(db: Db, k: SegKey, clock: Time) {
    forall id :: db.LiveIn(k, id) && db.rows[id].expiresAt > clock ==>
      db.Head(k).Some? && db.Head(k).value in db.rows && db.rows[db.Head(k).value].createdAt <= db.rows[id].createdAt
  }

  ghost predicate Inv(db: Db, clock: Time) {
    AllPointed(db) && forall k :: HeadCurrent(db, k, clock)
  }

  ghost predicate FreshFor(db: Db, ev: DomainEvent, targets: set<DeviceId>) {
    forall d :: d in targets ==> Derived(ev.id, d) !in db.rows
  }

  ghost predicate NotBackdated(db: Db, ev: DomainEvent, targets: set<DeviceId>) {
    forall id :: id in db.rows && db.rows[id].device in targets && db.rows[id].segment == SegmentOf(ev)
      ==> db.rows[id].createdAt <= ev.createdAt
  }

  lemma TimeKeepsInv(db: Db, clock: Time, later: Time)
    requires Inv(db, clock) && clock <= later
    ensures Inv(db, later)
  {
    forall k ensures HeadCurrent(db, k, later) {
      assert HeadCurrent(db, k, clock);
    }
  }

  lemma WellFormedArePointed(db: Db)
    requires WellFormed(db)
    ensures AllPointed(db)
  {
    forall k ensures Pointed(db, k) {
      assert HeadOwned(db, k) && LeaseExact(db, k);
    }
  }

  // Segment by segment, an append fills an empty head and touches nothing else.
  lemma AppendPointers(db: Db, ev: DomainEvent, targets: set<DeviceId>, k: SegKey)
    ensures var db' := AppendDb(db, ev, targets);
            var hit := k.device in targets && k.segment == SegmentOf(ev);
            && db'.Head(k) == (if hit then Some(Coalesce(db.Head(k), Derived(ev.id, k.device))) else db.Head(k))
            && db'.Lease(k) == db.Lease(k)
  {
  }

  lemma AppendRows(db: Db, ev: DomainEvent, targets: set<DeviceId>, id: Uuid)
    requires FreshFor(db, ev, targets)
    ensures var db' := AppendDb(db, ev, targets);
            && (id in db'.rows <==> id in db.rows || (id.Derived? && id.event == ev.id && id.device in targets))
            && (id in db.rows ==> db'.rows[id] == db.rows[id])
            && (id in db'.rows && id !in db.rows ==> db'.rows[id] == FreshRow(ev, id.device))
  {
  }

  lemma AppendKeepsWellFormed(db: Db, ev: DomainEvent, targets: set<DeviceId>)
    requires WellFormed(db) && FreshFor(db, ev, targets)
    ensures WellFormed(AppendDb(db, ev, targets))
  {
    var db' := AppendDb(db, ev, targets);
    forall k ensures HeadOwned(db', k) && LeaseExact(db', k) {
      AppendPointers(db, ev, targets, k);
      assert HeadOwned(db, k) && LeaseExact(db, k);
      if db'.Head(k).Some? {
        AppendRows(db, ev, targets, db'.Head(k).value);
      }
    }
    forall id | id in db'.rows && db'.rows[id].status.InFlight?
      ensures db'.Head(db'.rows[id].Key()) == Some(id)
    {
      AppendRows(db, ev, targets, id);
      AppendPointers(db, ev, targets, db'.rows[id].Key());
    }
  }

  lemma AppendKeepsPointed(db: Db, ev: DomainEvent, targets: set<DeviceId>, k: SegKey)
    requires Pointed(db, k) && FreshFor(db, ev, targets)
    ensures Pointed(AppendDb(db, ev, targets), k)
  {
    AppendPointers(db, ev, targets, k);
    if AppendDb(db, ev, targets).Head(k).Some? {
      AppendRows(db, ev, targets, AppendDb(db, ev, targets).Head(k).value);
    }
  }

  lemma AppendKeepsInv(db: Db, ev: DomainEvent, targets: set<DeviceId>, clock: Time)
    requires Inv(db, clock) && FreshFor(db, ev, targets) && NotBackdated(db, ev, targets)
    ensures Inv(AppendDb(db, ev, targets), clock)
  {
    var db' := AppendDb(db, ev, targets);
    forall k ensures Pointed(db', k) && HeadCurrent(db', k, clock) {
      assert HeadCurrent(db, k, clock) && Pointed(db, k);
      AppendKeepsPointed(db, ev, targets, k);
      AppendPointers(db, ev, targets, k);
      forall id | db'.LiveIn(k, id) && db'.rows[id].expiresAt > clock
        ensures db'.Head(k).Some? && db'.Head(k).value in db'.rows
        ensures db'.rows[db'.Head(k).value].createdAt <= db'.rows[id].createdAt
      {
        AppendRows(db, ev, targets, id);
        AppendRows(db, ev, targets, db'.Head(k).value);
      }
    }
  }

  lemma ClaimKeepsWellFormed(db: Db, batch: seq<SegKey>, now: Time, cfg: Config)
    requires WellFormed(db) && forall k :: k in batch ==> HasHead(db, k)
    ensures WellFormed(ClaimDb(db, batch, now, cfg))
  {
    var db' := ClaimDb(db, batch, now, cfg);
    forall k ensures HeadOwned(db', k) && LeaseExact(db', k) {
      assert HeadOwned(db, k) && LeaseExact(db, k);
    }
    forall id | id in db'.rows && db'.rows[id].status.InFlight?
      ensures db'.Head(db'.rows[id].Key()) == Some(id)
    {
      assert HeadOwned(db, db.rows[id].Key());
    }
  }

  lemma ClaimKeepsPointed(db: Db, batch: seq<SegKey>, now: Time, cfg: Config, k: SegKey)
    requires Pointed(db, k) && forall j :: j in batch ==> HasHead(db, j)
    ensures Pointed(ClaimDb(db, batch, now, cfg), k)
  {
  }

  lemma ClaimKeepsAll(db: Db, batch: seq<SegKey>, now: Time, cfg: Config)
    requires AllPointed(db) && forall j :: j in batch ==> HasHead(db, j)
    ensures AllPointed(ClaimDb(db, batch, now, cfg))
  {
    forall k ensures Pointed(ClaimDb(db, batch, now, cfg), k) {
      ClaimKeepsPointed(db, batch, now, cfg, k);
    }
  }

  lemma ClaimKeepsCurrent(db: Db, batch: seq<SegKey>, now: Time, cfg: Config, k: SegKey, clock: Time)
    requires Pointed(db, k) && HeadCurrent(db, k, clock) && forall j :: j in batch ==> HasHead(db, j)
    ensures HeadCurrent(ClaimDb(db, batch, now, cfg), k, clock)
  {
  }

  // A claim's own clock reading need not be the latest one.
  lemma ClaimKeepsInv(db: Db, batch: seq<SegKey>, now: Time, cfg: Config, clock: Time)
    requires Inv(db, clock) && forall k :: k in batch ==> HasHead(db, k)
    ensures Inv(ClaimDb(db, batch, now, cfg), clock)
  {
    hide ClaimDb;
    forall k ensures Pointed(ClaimDb(db, batch, now, cfg), k) && HeadCurrent(ClaimDb(db, batch, now, cfg), k, clock) {
      assert HeadCurrent(db, k, clock) && Pointed(db, k);
      ClaimKeepsPointed(db, batch, now, cfg, k);
      ClaimKeepsCurrent(db, batch, now, cfg, k, clock);
    }
  }

  // An ack settles one row, and moves its segment's pointers on only if the row is the head.
  lemma AckRows(db: Db, now: Time, id: Uuid, device: DeviceId, segment: SegmentId, next: Option<Uuid>)
    ensures var rows' := AckDb(db, now, id, device, segment, next).rows;
            rows' == if AckHits(db, id, device, segment) then db.rows[id := db.rows[id].(status := Acked, ackedAt := Some(now))]
                     else db.rows
  {
  }

  lemma AckPointers(db: Db, now: Time, id: Uuid, device: DeviceId, segment: SegmentId, next: Option<Uuid>, k: SegKey)
    requires Pointed(db, k)
    ensures var db' := AckDb(db, now, id, device, segment, next);
            if AckHits(db, id, device, segment) && db.Head(k) == Some(id) then db'.Head(k) == next && db'.Lease(k) == None
            else db'.Head(k) == db.Head(k) && db'.Lease(k) == db.Lease(k)
  {
  }

  lemma AckKeepsWellFormed(db: Db, now: Time, id: Uuid, device: DeviceId, segment: SegmentId, next: Option<Uuid>)
    requires WellFormed(db)
    requires id in db.rows ==> MayFollow(db, db.rows[id].Key(), now, id, next)
    ensures WellFormed(AckDb(db, now, id, device, segment, next))
  {
    var db' := AckDb(db, now, id, device, segment, next);
    WellFormedArePointed(db);
    AckRows(db, now, id, device, segment, next);
    hide AckDb;
    forall k ensures HeadOwned(db', k) && LeaseExact(db', k) {
      assert HeadOwned(db, k) && LeaseExact(db, k) && Pointed(db, k);
      AckPointers(db, now, id, device, segment, next, k);
    }
    forall x | x in db'.rows && db'.rows[x].status.InFlight? ensures db'.Head(db'.rows[x].Key()) == Some(x) {
      assert Pointed(db, db.rows[x].Key());
      AckPointers(db, now, id, device, segment, next, db.rows[x].Key());
    }
  }

  lemma AckKeepsPointed(db: Db, now: Time, id: Uuid, device: DeviceId, segment: SegmentId, next: Option<Uuid>,
      k: SegKey)
    requires Pointed(db, k) && (id in db.rows ==> MayFollow(db, db.rows[id].Key(), now, id, next))
    ensures Pointed(AckDb(db, now, id, device, segment, next), k)
  {
    AckRows(db, now, id, device, segment, next);
    AckPointers(db, now, id, device, segment, next, k);
    hide AckDb;
  }

  lemma AckKeepsAll(db: Db, now: Time, id: Uuid, device: DeviceId, segment: SegmentId, next: Option<Uuid>)
    requires AllPointed(db) && (id in db.rows ==> MayFollow(db, db.rows[id].Key(), now, id, next))
    ensures AllPointed(AckDb(db, now, id, device, segment, next))
  {
    forall k ensures Pointed(AckDb(db, now, id, device, segment, next), k) {
      AckKeepsPointed(db, now, id, device, segment, next, k);
    }
  }

  // The ack's reading need not be the latest one either: an older one only finds more successors.
  lemma AckKeepsCurrent(db: Db, now: Time, id: Uuid, device: DeviceId, segment: SegmentId, next: Option<Uuid>,
                        k: SegKey, clock: Time)
    requires Pointed(db, k) && HeadCurrent(db, k, clock) && now <= clock
    requires id in db.rows ==> MayFollow(db, db.rows[id].Key(), now, id, next)
    ensures HeadCurrent(AckDb(db, now, id, device, segment, next), k, clock)
  {
    var db' := AckDb(db, now, id, device, segment, next);
    AckRows(db, now, id, device, segment, next);
    AckPointers(db, now, id, device, segment, next, k);
    hide AckDb, AckHits;
    forall x | db'.LiveIn(k, x) && db'.rows[x].expiresAt > clock
      ensures db'.Head(k).Some? && db'.Head(k).value in db'.rows
      ensures db'.rows[db'.Head(k).value].createdAt <= db'.rows[x].createdAt
    {
      assert db.LiveIn(k, x);
      if db.Head(k) == Some(id) && AckHits(db, id, device, segment) {
        assert x in Successors(db, k, now, id);
      }
    }
  }

  lemma AckKeepsInv(db: Db, now: Time, id: Uuid, device: DeviceId, segment: SegmentId, next: Option<Uuid>, clock: Time)
    requires Inv(db, clock) && now <= clock
    requires id in db.rows ==> MayFollow(db, db.rows[id].Key(), now, id, next)
    ensures Inv(AckDb(db, now, id, device, segment, next), clock)
  {
    hide AckDb, MayFollow;
    forall k
      ensures Pointed(AckDb(db, now, id, device, segment, next), k)
      ensures HeadCurrent(AckDb(db, now, id, device, segment, next), k, clock)
    {
      assert HeadCurrent(db, k, clock) && Pointed(db, k);
      AckKeepsPointed(db, now, id, device, segment, next, k);
      AckKeepsCurrent(db, now, id, device, segment, next, k, clock);
    }
  }

  // Every live row of the segment older than the stamp has expired.
  ghost predicate ExpiredBefore(db: Db, k: SegKey, from: Time, clock: Time) {
    forall id :: db.LiveIn(k, id) && db.rows[id].createdAt < from ==> db.rows[id].expiresAt <= clock
  }

  lemma DropKeepsPointed(db: Db, j: SegKey, from: Time, k: SegKey)
    requires Pointed(db, k)
    ensures Pointed(DropDb(db, j, from), k)
  {
  }

  // The stamp a drop starts from may be old, as long as what it spares has expired.
  lemma DropKeepsInv(db: Db, k: SegKey, from: Time, clock: Time)
    requires Inv(db, clock) && ExpiredBefore(db, k, from, clock)
    ensures Inv(DropDb(db, k, from), clock)
    ensures forall id :: DropDb(db, k, from).LiveIn(k, id) ==> db.rows[id].expiresAt <= clock
  {
    var db' := DropDb(db, k, from);
    forall j ensures Pointed(db', j) && HeadCurrent(db', j, clock) {
      assert HeadCurrent(db, j, clock) && Pointed(db, j);
      DropKeepsPointed(db, k, from, j);
      assert forall id :: db'.LiveIn(j, id) ==> db.LiveIn(j, id);
    }
  }

  // The head is in flight and older than the stamp, so that a drop from the stamp on spares it.
  ghost predicate LeasedBefore(db: Db, k: SegKey, from: Time) {
    && db.Head(k).Some? && db.Head(k).value in db.rows
    && db.rows[db.Head(k).value].status.InFlight? && db.rows[db.Head(k).value].createdAt < from
  }

  // Dropping a tail leaves a row in flight without a pointer exactly when it spares the lease.
  lemma DropKeepsWellFormedExactly(db: Db, k: SegKey, from: Time)
    requires WellFormed(db)
    ensures WellFormed(DropDb(db, k, from)) <==> !LeasedBefore(db, k, from)
  {
    var db' := DropDb(db, k, from);
    forall j ensures HeadOwned(db', j) && LeaseExact(db', j) {
      assert HeadOwned(db, j) && LeaseExact(db, j);
    }
    if LeasedBefore(db, k, from) {
      var e := db.Head(k).value;
      assert HeadOwned(db, k);
      assert db'.rows[e].status.InFlight? && db'.rows[e].Key() == k && db'.Head(k).None?;
    }
  }

  lemma DeleteKeepsPointed(db: Db, victims: seq<Uuid>, k: SegKey)
    requires Pointed(db, k) && forall id :: id in Elems(victims) && id in db.rows ==> !db.rows[id].Live()
    ensures Pointed(DeleteDb(db, victims), k)
  {
  }

  lemma DeleteKeepsInv(db: Db, victims: seq<Uuid>, clock: Time)
    requires AllPointed(db) && forall id :: id in Elems(victims) && id in db.rows ==> !db.rows[id].Live()
    ensures AllPointed(DeleteDb(db, victims))
    ensures Inv(db, clock) ==> Inv(DeleteDb(db, victims), clock)
    ensures WellFormed(db) ==> WellFormed(DeleteDb(db, victims))
  {
    var db' := DeleteDb(db, victims);
    forall k ensures Pointed(db', k) && (HeadCurrent(db, k, clock) ==> HeadCurrent(db', k, clock)) {
      assert Pointed(db, k);
      DeleteKeepsPointed(db, victims, k);
    }
    if WellFormed(db) {
      forall k ensures HeadOwned(db', k) && LeaseExact(db', k) {
        assert HeadOwned(db, k) && LeaseExact(db, k) && Pointed(db', k);
      }
    }
  }
}
