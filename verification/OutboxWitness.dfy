/** Concrete runs, for the properties that do not hold of every run. */
module OutboxWitness {
  import opened Connection
  import opened OutboxTypes
  import opened OutboxSteps
  import opened OutboxHistory
  import opened OutboxQueue
  import opened OutboxRuns
  import opened Selection
  import opened Wrappers

  const K := SegKey("d", "global:" + "t")

  function Sent(id: EventId, createdAt: Time, expiresAt: Time): DomainEvent {
    DomainEvent(id, "t", map[], 0, createdAt, expiresAt)
  }

  // One more step on a run.
  lemma Extend(cfg: Config, steps: seq<Step>, ws: seq<World>, st: Step) returns (more: seq<World>)
    requires cfg.Positive() && Run(cfg, steps, ws) && Enabled(cfg, ws[|steps|], st)
    ensures Run(cfg, steps + [st], more) && |more| == |steps| + 2 && ws <= more
    ensures more[|steps| + 1] == Next(cfg, ws[|steps|], st)
  {
    hide Enabled, Next;
    more := ws + [Next(cfg, ws[|steps|], st)];
    forall i | 0 <= i < |steps| + 1 ensures StepAt(cfg, steps + [st], more, i) {
      if i < |steps| {
        assert StepAt(cfg, steps, ws, i);
      }
    }
  }

  lemma TablesWithOne(db: Db, ev: DomainEvent)
    requires ev == Sent(ev.id, ev.createdAt, ev.expiresAt) && Derived(ev.id, "d") !in db.rows
    ensures var id := Derived(ev.id, "d");
            AppendDb(db, ev, {"d"}) == Db(db.rows[id := FreshRow(ev, "d")], db.segs[K := Upsert(db, ev, "d")])
  {
    OneTarget(db, ev);
    hide Inserted, Upserts, FreshRow, Upsert, SegmentOf;
    var id := Derived(ev.id, "d");
    assert map[id := FreshRow(ev, "d")] + db.rows == db.rows[id := FreshRow(ev, "d")];
    assert db.segs + map[K := Upsert(db, ev, "d")] == db.segs[K := Upsert(db, ev, "d")];
  }

  lemma OneAppend(cfg: Config, w: World, ev: DomainEvent)
    requires cfg.Positive() && ev == Sent(ev.id, ev.createdAt, ev.expiresAt)
    requires Derived(ev.id, "d") !in w.born && (K in w.newest ==> w.newest[K] <= ev.createdAt)
    ensures Enabled(cfg, w, Append(ev, {"d"}))
    ensures var w' := Next(cfg, w, Append(ev, {"d"}));
            && w'.db == AppendDb(w.db, ev, {"d"}) && w'.clock == w.clock && w'.log == w.log
            && w'.born == w.born + map[Derived(ev.id, "d") := FreshRow(ev, "d")] && w'.newest == w.newest + map[K := ev.createdAt]
  {
    OneTarget(w.db, ev);
    hide Inserted, Upserts, Stamped, FreshRow, Upsert, SegmentOf, AppendDb;
  }

  lemma OneTarget(db: Db, ev: DomainEvent)
    requires ev == Sent(ev.id, ev.createdAt, ev.expiresAt)
    ensures SegKey("d", SegmentOf(ev)) == K
    ensures Inserted(ev, {"d"}) == map[Derived(ev.id, "d") := FreshRow(ev, "d")]
    ensures Upserts(db, ev, {"d"}) == map[K := Upsert(db, ev, "d")]
    ensures Upsert(db, ev, "d") == Seg(Some(Coalesce(db.Head(K), Derived(ev.id, "d"))), db.Lease(K))
    ensures Stamped(ev, {"d"}) == map[K := ev.createdAt]
  {
  }

  lemma OneClaim(cfg: Config, w: World, now: Time)
    requires cfg.Positive() && HeadDue(w.db, K, now) && HeadRow(w.db, K).Key() == K
    requires !Spent(HeadRow(w.db, K), now, cfg.maxAttempts)
    ensures Enabled(cfg, w, Claim(now, [K]))
    ensures var w', e := Next(cfg, w, Claim(now, [K])), w.db.segs[K].head.value;
            && w'.db == Db(w.db.rows[e := Leased(HeadRow(w.db, K), now, cfg.ackTimeout)], w.db.segs[K := Seg(Some(e), Some(e))])
            && w'.log == w.log + [LeaseEvent(w.db, K, now, cfg)] && w'.clock == w.clock
  {
    var batch := [K];
    assert Elems(batch) == {K};
    assert batch[..|batch| - 1] == [];
    assert ClaimEvents(w.db, batch, now, cfg) == [LeaseEvent(w.db, K, now, cfg)];
    forall id | id in w.db.rows
      ensures ClaimRow(w.db, batch, now, cfg, id) ==
              if id == w.db.segs[K].head.value then Leased(HeadRow(w.db, K), now, cfg.ackTimeout) else w.db.rows[id]
    {
    }
  }

  // ---- An ack by an older reading reorders deliveries

  const A := Derived(1, "d")
  const B := Derived(2, "d")
  const C := Derived(3, "d")

  function Waiting(createdAt: Time, expiresAt: Time): Row {
    Row("d", K.segment, Pending, 0, None, 0, createdAt, expiresAt, None, None)
  }

  const QUEUED := Db(map[A := Waiting(1, 100), B := Waiting(2, 5), C := Waiting(3, 100)], map[K := Seg(Some(A), None)])

  // Nothing has been appended after that stamp.
  ghost predicate UpTo(w: World, stamp: nat) {
    (forall id :: id in w.born ==> id.Derived? && id.event <= stamp) && (K in w.newest ==> w.newest[K] <= stamp)
  }

  lemma StaysUpTo(cfg: Config, w: World, st: Step, stamp: nat)
    requires cfg.Positive() && Enabled(cfg, w, st) && !st.Append? && UpTo(w, stamp)
    ensures UpTo(Next(cfg, w, st), stamp)
  {
  }

  // The run so far has only appended, with stamps up to that one.
  ghost predicate OnlyAppended(w: World, db: Db, stamp: nat) {
    w.db == db && w.clock == 0 && w.log == [] && UpTo(w, stamp)
  }

  lemma AppendNext(cfg: Config, steps: seq<Step>, ws: seq<World>, db: Db, ev: DomainEvent) returns (more: seq<World>)
    requires cfg.Positive() && Run(cfg, steps, ws) && ev == Sent(ev.id, ev.id, ev.expiresAt) && ev.id > 0
    requires OnlyAppended(ws[|steps|], db, ev.id - 1) && Derived(ev.id, "d") !in db.rows
    ensures Run(cfg, steps + [Append(ev, {"d"})], more) && |more| == |steps| + 2 && ws <= more
    ensures OnlyAppended(more[|steps| + 1], Db(db.rows[Derived(ev.id, "d") := FreshRow(ev, "d")], db.segs[K := Upsert(db, ev, "d")]), ev.id)
  {
    hide Enabled, Next, AppendDb, FreshRow, Upsert;
    OneAppend(cfg, ws[|steps|], ev);
    TablesWithOne(db, ev);
    more := Extend(cfg, steps, ws, Append(ev, {"d"}));
  }

  lemma Queued(cfg: Config) returns (steps: seq<Step>, ws: seq<World>)
    requires cfg.Positive()
    ensures Run(cfg, steps, ws) && |steps| == 3
    ensures ws[3].db == QUEUED && ws[3].clock == 0 && ws[3].log == [] && UpTo(ws[3], 3)
  {
    hide Run, Enabled, Next;
    steps, ws := [], [World(Db(map[], map[]), 0, map[], [], map[], {})];
    EmptyRun(cfg, ws);
    ws := AppendNext(cfg, steps, ws, Db(map[], map[]), Sent(1, 1, 100));
    steps := steps + [Append(Sent(1, 1, 100), {"d"})];
    ws := AppendNext(cfg, steps, ws, Db(map[A := Waiting(1, 100)], map[K := Seg(Some(A), None)]), Sent(2, 2, 5));
    steps := steps + [Append(Sent(2, 2, 5), {"d"})];
    ws := AppendNext(cfg, steps, ws, Db(map[A := Waiting(1, 100), B := Waiting(2, 5)], map[K := Seg(Some(A), None)]), Sent(3, 3, 100));
    steps := steps + [Append(Sent(3, 3, 100), {"d"})];
  }

  lemma EmptyRun(cfg: Config, ws: seq<World>)
    requires cfg.Positive() && ws == [World(Db(map[], map[]), 0, map[], [], map[], {})]
    ensures Run(cfg, [], ws)
  {
  }

  const CFG := Config(1, 10, 5)

  // One segment with the heads passed on: a acked, then c leased, then c acked and b at the head.
  function AckedA(): Db {
    AckDb(QUEUED, 6, A, "d", "", Some(C))
  }

  function LeasedC(): Db {
    var db := AckedA();
    Db(db.rows[C := Leased(Waiting(3, 100), 3, 10)], db.segs[K := Seg(Some(C), Some(C))])
  }

  function AckedC(): Db {
    AckDb(LeasedC(), 4, C, "d", "", Some(B))
  }

  lemma Successions()
    ensures AckedA().Head(K) == Some(C) && AckedC().Head(K) == Some(B)
    ensures AckedA().segs.Keys == {K} && AckedA().rows.Keys == {A, B, C} && AckedC().rows.Keys == {A, B, C}
    ensures AckedA().rows[B] == Waiting(2, 5) && AckedC().rows[B] == Waiting(2, 5)
    ensures AckedA().rows[C] == Waiting(3, 100)
    ensures MayFollow(QUEUED, K, 6, A, Some(C)) && MayFollow(LeasedC(), K, 4, C, Some(B))
  {
    assert Successors(QUEUED, K, 6, A) == {C};
    assert Successors(LeasedC(), K, 4, C) == {B};
  }

  // A lease of a waiting head.
  lemma ClaimWaiting(w: World, now: Time, id: Uuid, createdAt: Time, expiresAt: Time)
    requires w.db.Head(K) == Some(id) && id in w.db.rows && w.db.rows[id] == Waiting(createdAt, expiresAt)
    requires 0 <= now < expiresAt
    ensures HeadDue(w.db, K, now) && HeadRow(w.db, K).Key() == K && !Spent(HeadRow(w.db, K), now, CFG.maxAttempts)
    ensures LeaseEvent(w.db, K, now, CFG).key == K && LeaseEvent(w.db, K, now, CFG).createdAt == createdAt
  {
  }

  lemma OneAck(w: World, now: Time, id: Uuid, next: Uuid)
    requires id in w.db.rows && w.db.rows[id].Key() == K && MayFollow(w.db, K, now, id, Some(next))
    ensures Enabled(CFG, w, Ack(now, id, "d", "", Some(next)))
    ensures var w' := Next(CFG, w, Ack(now, id, "d", "", Some(next)));
            w'.db == AckDb(w.db, now, id, "d", "", Some(next)) && w'.log == w.log && w'.clock == if w.clock <= now then now else w.clock
  {
  }

  // Stamps 1, 2, 3; the second expires at 5. Acked at 6, the first gives way to the third, which is
  // delivered; the third, acked by a clock that reads 4, gives way to the second, which is
  // delivered after it.
  lemma OlderReadingReorders() returns (steps: seq<Step>, ws: seq<World>)
    ensures Run(CFG, steps, ws) && |steps| == 7 && RevivesBehind(ws[5], steps[5]) && HandsToExpired(ws[5], steps[5], K)
    ensures !Fifo(ws[7].log)
  {
    hide Run, Enabled, Next, AckDb, Fifo, RevivesBehind, HandsToExpired, AckedA, LeasedC, AckedC, MayFollow;
    steps, ws := Queued(CFG);
    RunLength(CFG, steps, ws);
    Successions();
    TablesOfTheRun();
    OneAck(ws[3], 6, A, C);
    ws := Extend(CFG, steps, ws, Ack(6, A, "d", "", Some(C)));
    steps := steps + [Ack(6, A, "d", "", Some(C))];
    assert ws[4].db == AckedA() && ws[4].clock == 6 && ws[4].log == [];
    ClaimWaiting(ws[4], 3, C, 3, 100);
    OneClaim(CFG, ws[4], 3);
    ws := Extend(CFG, steps, ws, Claim(3, [K]));
    steps := steps + [Claim(3, [K])];
    assert ws[5].db == LeasedC() && ws[5].clock == 6 && |ws[5].log| == 1;
    ThirdRevivesSecond(ws[5]);
    OneAck(ws[5], 4, C, B);
    ws := Extend(CFG, steps, ws, Ack(4, C, "d", "", Some(B)));
    steps := steps + [Ack(4, C, "d", "", Some(B))];
    ClaimWaiting(ws[6], 4, B, 2, 5);
    OneClaim(CFG, ws[6], 4);
    ws := Extend(CFG, steps, ws, Claim(4, [K]));
    steps := steps + [Claim(4, [K])];
    OutOfOrder(ws[7].log);
  }

  lemma TablesOfTheRun()
    ensures AckDb(QUEUED, 6, A, "d", "", Some(C)) == AckedA() && AckDb(LeasedC(), 4, C, "d", "", Some(B)) == AckedC()
    ensures LeasedC() == Db(AckedA().rows[C := Leased(Waiting(3, 100), 3, 10)], AckedA().segs[K := Seg(Some(C), Some(C))])
    ensures A in QUEUED.rows && QUEUED.rows[A].Key() == K && C in LeasedC().rows && LeasedC().rows[C].Key() == K
  {
  }

  lemma ThirdRevivesSecond(w: World)
    requires w.db == LeasedC() && w.clock == 6 && |w.log| == 1 && w.log[0].key == K && w.log[0].createdAt == 3
    ensures RevivesBehind(w, Ack(4, C, "d", "", Some(B))) && HandsToExpired(w, Ack(4, C, "d", "", Some(B)), K)
  {
    assert w.db.LiveIn(K, B) && w.db.rows[B].expiresAt == 5;
    assert RevivesBefore(w, Ack(4, C, "d", "", Some(B)), w.log[0].key, w.log[0].createdAt);
  }

  lemma OutOfOrder(log: seq<OutboxEvent>)
    requires |log| == 2 && log[0].key == log[1].key && log[0].createdAt > log[1].createdAt
    ensures !Fifo(log)
  {
  }

  // ---- A stale janitor after such an ack

  function PassedC(): Db {
    AckDb(AckedA(), 4, C, "d", "", Some(B))
  }

  function LeasedB(): Db {
    var db := PassedC();
    Db(db.rows[B := Leased(Waiting(2, 5), 4, 10)], db.segs[K := Seg(Some(B), Some(B))])
  }

  lemma Passing()
    ensures MayFollow(AckedA(), K, 4, C, Some(B)) && C in AckedA().rows && AckedA().rows[C].Key() == K
    ensures PassedC().Head(K) == Some(B) && B in PassedC().rows && PassedC().rows[B] == Waiting(2, 5)
    ensures AckDb(AckedA(), 4, C, "d", "", Some(B)) == PassedC()
    ensures LeasedB() == Db(PassedC().rows[B := Leased(Waiting(2, 5), 4, 10)], PassedC().segs[K := Seg(Some(B), Some(B))])
  {
    assert Successors(AckedA(), K, 4, C) == {B};
  }

  lemma ThirdRevivesBehindTicket(w: World)
    requires w.db == AckedA() && w.clock == 6 && Ticket(K, 3) in w.tickets
    ensures RevivesBehindTicket(w, Ack(4, C, "d", "", Some(B)))
  {
    assert w.db.LiveIn(K, B) && w.db.rows[B].expiresAt == 5;
    assert RevivesBefore(w, Ack(4, C, "d", "", Some(B)), K, 3);
  }

  lemma ScanFindsC(w: World)
    requires w.db == AckedA()
    ensures Enabled(CFG, w, Scan(200, [K]))
    ensures var w' := Next(CFG, w, Scan(200, [K]));
            w'.db == w.db && w'.clock == w.clock && Ticket(K, 3) in w'.tickets
  {
    Successions();
    hide AckedA, AckDb;
    assert ExpiredHeads(w.db, 200) == {K} && Elems([K]) == {K};
  }

  lemma TicketsAfter(w: World, st: Step)
    requires Enabled(CFG, w, st)
    ensures w.tickets <= Next(CFG, w, st).tickets
  {
  }

  const D := Derived(4, "d")

  // B in flight with no pointer, and then D appended and leased as well.
  function StrandedB(): Db {
    DropDb(LeasedB(), K, 3)
  }

  function QueuedD(): Db {
    Db(StrandedB().rows[D := Waiting(4, 100)], StrandedB().segs[K := Seg(Some(D), None)])
  }

  function LeasedD(): Db {
    Db(QueuedD().rows[D := Leased(Waiting(4, 100), 5, 10)], QueuedD().segs[K := Seg(Some(D), Some(D))])
  }

  lemma DropStrandsB(w: World)
    requires w.db == LeasedB() && Ticket(K, 3) in w.tickets
    ensures Enabled(CFG, w, Drop(Ticket(K, 3))) && Strands(w, Drop(Ticket(K, 3)))
    ensures Next(CFG, w, Drop(Ticket(K, 3))).db == StrandedB()
  {
  }

  lemma Stranding()
    ensures D !in StrandedB().rows && K in StrandedB().segs
    ensures Upsert(StrandedB(), Sent(4, 4, 100), "d") == Seg(Some(D), None)
    ensures FreshRow(Sent(4, 4, 100), "d") == Waiting(4, 100)
    ensures QueuedD().Head(K) == Some(D) && D in QueuedD().rows && QueuedD().rows[D] == Waiting(4, 100)
    ensures LeasedD() == Db(QueuedD().rows[D := Leased(Waiting(4, 100), 5, 10)], QueuedD().segs[K := Seg(Some(D), Some(D))])
  {
  }

  lemma InFlightRows()
    ensures LeasedD().rows.Keys == {A, B, C, D}
    ensures LeasedD().rows[B] == Leased(Waiting(2, 5), 4, 10) && LeasedD().rows[D] == Leased(Waiting(4, 100), 5, 10)
    ensures LeasedD().rows[A].status.Acked? && LeasedD().rows[C].status.Acked?
  {
  }

  // A listing of the device then holds both.
  lemma TwoInFlight()
    ensures LeasedD().LiveIn(K, B) && LeasedD().LiveIn(K, D)
    ensures InFlightAt(LeasedD(), "d", 5) <= RowStamps(LeasedD()).Keys
    ensures IsSelection(InFlightAt(LeasedD(), "d", 5), RowStamps(LeasedD()), 128, [B, D])
  {
    InFlightRows();
    hide LeasedD;
    assert InFlightAt(LeasedD(), "d", 5) == {B, D} && Elems([B, D]) == {B, D};
  }

  // The janitor finds the third event at the head, expired by its own clock; an older reading then
  // puts the second there, and it is delivered. The drop from the third's stamp on clears the
  // segment's pointers and leaves the second in flight. The fourth is appended and delivered, and
  // the device's listing holds two events of the segment.
  lemma OlderReadingStrandsALease() returns (steps: seq<Step>, ws: seq<World>)
    ensures Run(CFG, steps, ws) && |steps| == 10 && steps[4].Scan? && RevivesBehindTicket(ws[5], steps[5])
    ensures Strands(ws[7], steps[7])
    ensures ws[10].db.LiveIn(K, B) && ws[10].db.LiveIn(K, D)
    ensures InFlightAt(ws[10].db, "d", 5) <= RowStamps(ws[10].db).Keys
    ensures IsSelection(InFlightAt(ws[10].db, "d", 5), RowStamps(ws[10].db), 128, [B, D])
  {
    hide Run, Enabled, Next, AckDb, AckedA, PassedC, LeasedB, LeasedC, AckedC, MayFollow, DropDb, Strands, RevivesBehindTicket, UpTo,
         IsSelection, InFlightAt, RowStamps;
    steps, ws := DropPending();
    StaysUpTo(CFG, ws[6], Claim(4, [K]), 3);
    DropStrandsB(ws[7]);
    StaysUpTo(CFG, ws[7], Drop(Ticket(K, 3)), 3);
    ws := Extend(CFG, steps, ws, Drop(Ticket(K, 3)));
    steps := steps + [Drop(Ticket(K, 3))];
    hide StrandedB, QueuedD, LeasedD;
    Stranding();
    ws := AppendFourth(steps, ws);
    steps := steps + [Append(Sent(4, 4, 100), {"d"})];
    ClaimWaiting(ws[9], 5, D, 4, 100);
    OneClaim(CFG, ws[9], 5);
    ws := Extend(CFG, steps, ws, Claim(5, [K]));
    steps := steps + [Claim(5, [K])];
    TwoInFlight();
  }

  lemma AppendFourth(steps: seq<Step>, ws: seq<World>) returns (more: seq<World>)
    requires Run(CFG, steps, ws) && |ws| == |steps| + 1 && ws[|steps|].db == StrandedB() && UpTo(ws[|steps|], 3)
    ensures Run(CFG, steps + [Append(Sent(4, 4, 100), {"d"})], more) && |more| == |steps| + 2 && ws <= more
    ensures more[|steps| + 1].db == QueuedD()
  {
    Stranding();
    hide Run, Enabled, Next, AppendDb, FreshRow, Upsert, StrandedB;
    OneAppend(CFG, ws[|steps|], Sent(4, 4, 100));
    TablesWithOne(ws[|steps|].db, Sent(4, 4, 100));
    more := Extend(CFG, steps, ws, Append(Sent(4, 4, 100), {"d"}));
  }

  lemma DropPending() returns (steps: seq<Step>, ws: seq<World>)
    ensures Run(CFG, steps, ws) && |steps| == 7 && |ws| == 8 && steps[4].Scan? && RevivesBehindTicket(ws[5], steps[5])
    ensures ws[7].db == LeasedB() && Ticket(K, 3) in ws[7].tickets && UpTo(ws[6], 3)
    ensures Enabled(CFG, ws[6], Claim(4, [K])) && ws[7] == Next(CFG, ws[6], Claim(4, [K]))
  {
    hide Run, Enabled, Next, AckDb, AckedA, PassedC, LeasedB, LeasedC, AckedC, MayFollow, RevivesBehindTicket, UpTo;
    steps, ws := Queued(CFG);
    RunLength(CFG, steps, ws);
    Successions();
    TablesOfTheRun();
    Passing();
    OneAck(ws[3], 6, A, C);
    StaysUpTo(CFG, ws[3], Ack(6, A, "d", "", Some(C)), 3);
    ws := Extend(CFG, steps, ws, Ack(6, A, "d", "", Some(C)));
    steps := steps + [Ack(6, A, "d", "", Some(C))];
    ScanFindsC(ws[4]);
    StaysUpTo(CFG, ws[4], Scan(200, [K]), 3);
    ws := Extend(CFG, steps, ws, Scan(200, [K]));
    steps := steps + [Scan(200, [K])];
    OneAck(ws[5], 4, C, B);
    ThirdRevivesBehindTicket(ws[5]);
    TicketsAfter(ws[5], Ack(4, C, "d", "", Some(B)));
    StaysUpTo(CFG, ws[5], Ack(4, C, "d", "", Some(B)), 3);
    ws := Extend(CFG, steps, ws, Ack(4, C, "d", "", Some(B)));
    steps := steps + [Ack(4, C, "d", "", Some(B))];
    ClaimWaiting(ws[6], 4, B, 2, 5);
    OneClaim(CFG, ws[6], 4);
    TicketsAfter(ws[6], Claim(4, [K]));
    ws := Extend(CFG, steps, ws, Claim(4, [K]));
    steps := steps + [Claim(4, [K])];
  }

  // ---- A retried lease is withheld when the pull's readings straddle it

  lemma ExtendPeer(steps: seq<PeerStep>, ps: seq<Peer>, st: PeerStep) returns (more: seq<Peer>)
    requires PeerRun(CFG, steps, ps) && PeerEnabled(CFG, ps[|steps|], st)
    ensures PeerRun(CFG, steps + [st], more) && |more| == |steps| + 2 && ps <= more
    ensures more[|steps| + 1] == PeerNext(CFG, ps[|steps|], st)
  {
    hide PeerEnabled, PeerNext;
    more := ps + [PeerNext(CFG, ps[|steps|], st)];
    forall i | 0 <= i < |steps| + 1 ensures PeerStepAt(CFG, steps + [st], more, i) {
      if i < |steps| {
        assert PeerStepAt(CFG, steps, ps, i);
      }
    }
  }

  const START := World(Db(map[], map[]), 0, map[], [], map[], {})

  lemma StartOfPeer() returns (ps: seq<Peer>)
    ensures PeerRun(CFG, [], ps) && ps == [Peer(START, Conn(map[], 0, []))]
  {
    ps := [Peer(START, Conn(map[], 0, []))];
  }

  // The event's row after being claimed at 0, and again at 10.
  const ONCE := Leased(Waiting(1, 100), 0, 10)
  const TWICE := Leased(ONCE, 10, 10)

  function Lone(r: Row): Db {
    Db(map[A := r], map[K := Seg(Some(A), if r.status.InFlight? then Some(A) else None)])
  }

  lemma LoneAppend()
    ensures Enabled(CFG, START, Append(Sent(1, 1, 100), {"d"}))
    ensures Next(CFG, START, Append(Sent(1, 1, 100), {"d"})).db == Lone(Waiting(1, 100))
  {
    OneAppend(CFG, START, Sent(1, 1, 100));
    TablesWithOne(START.db, Sent(1, 1, 100));
    hide AppendDb, Enabled, Next;
  }

  lemma LoneDue(w: World, now: Time, r: Row)
    requires w.db == Lone(r) && r.Key() == K && r.attempts < 5 && now < r.expiresAt
    requires (r.status.Pending? && r.sendAfter <= now) || (r.status.InFlight? && r.inflightUntil.Some? && r.inflightUntil.value <= now)
    ensures HeadDue(w.db, K, now) && HeadRow(w.db, K) == r && !Spent(r, now, CFG.maxAttempts)
  {
  }

  lemma LoneClaim(w: World, now: Time, r: Row)
    requires w.db == Lone(r) && r.Key() == K && r.attempts < 5 && now < r.expiresAt
    requires (r.status.Pending? && r.sendAfter <= now) || (r.status.InFlight? && r.inflightUntil.Some? && r.inflightUntil.value <= now)
    ensures Enabled(CFG, w, Claim(now, [K])) && Next(CFG, w, Claim(now, [K])).db == Lone(Leased(r, now, 10))
  {
    LoneDue(w, now, r);
    LoneLeased(w.db, r, now);
    hide HeadDue, HeadRow, Spent, Enabled, Next, Leased, LeaseEvent, Lone;
    OneClaim(CFG, w, now);
  }

  lemma LoneLeased(db: Db, r: Row, now: Time)
    requires db == Lone(r)
    ensures K in db.segs && db.segs[K].head == Some(A)
    ensures Db(db.rows[A := Leased(r, now, 10)], db.segs[K := Seg(Some(A), Some(A))]) == Lone(Leased(r, now, 10))
  {
  }

  lemma LoneList(p: Peer, at: Time, r: Row)
    requires p.w.db == Lone(r) && r.device == "d" && r.status.InFlight? && r.inflightUntil.Some?
    requires r.inflightUntil.value > at && p.c.now <= at
    ensures PeerEnabled(CFG, p, List(at, "d", 128, [A]))
    ensures var c, e := PeerNext(CFG, p, List(at, "d", 128, [A])).c, EventOf(A, r);
            if Suppressed(p.c.sent, p.c.now, e) then c == p.c
            else c == p.c.(sent := p.c.sent[A := r.inflightUntil.value], out := p.c.out + [e])
    ensures PeerNext(CFG, p, List(at, "d", 128, [A])).w == p.w
  {
    assert InFlightAt(p.w.db, "d", at) == {A} && Elems([A]) == {A};
    var e := EventOf(A, r);
    assert EventsOf(p.w.db, [A]) == [e];
    OneEvent(p.c.sent, p.c.now, e);
    AfterList(CFG, p, List(at, "d", 128, [A]));
    assert p.c.out + [] == p.c.out;
  }

  lemma OneEvent(sent: map<Uuid, Time>, now: Time, e: OutboxEvent)
    requires e.inflightUntil.Some?
    ensures EmittedOf(sent, now, [e]) == if Suppressed(sent, now, e) then [] else [e]
    ensures Remember(sent, [e]) == sent[e.id := e.inflightUntil.value] && Remember(sent, []) == sent
  {
    hide Suppressed;
    var events := [e];
    var front := events[..|events| - 1];
    assert front == [];
    assert EmittedOf(sent, now, front) == [] && Remember(sent, front) == sent;
  }

  // Sent at 0 under a lease until 10. A pull reads 9 and finds the lease still cached; a claim at
  // 10 leases the event anew, and the list, read at 10, has it; the pull sends nothing.
  lemma RetryIsWithheld() returns (steps: seq<PeerStep>, ps: seq<Peer>)
    ensures PeerRun(CFG, steps, ps) && |steps| == 7 && steps[6] == List(10, "d", 128, [A])
    ensures ps[6].w.db.rows == map[A := TWICE] && ps[6].c.now == 9
    ensures ps[6].c.out == [EventOf(A, ONCE)] && ps[7].c.out == ps[6].c.out
  {
    hide PeerRun, PeerEnabled, PeerNext, Enabled, Next, EventOf;
    ps := StartOfPeer();
    steps := [];
    LoneAppend();
    ps, steps := WorkerStep(steps, ps, Append(Sent(1, 1, 100), {"d"}));
    LoneClaim(ps[1].w, 0, Waiting(1, 100));
    ps, steps := WorkerStep(steps, ps, Claim(0, [K]));
    ps, steps := BeginStep(steps, ps, 0);
    LoneList(ps[3], 0, ONCE);
    ps := ExtendPeer(steps, ps, List(0, "d", 128, [A]));
    steps := steps + [List(0, "d", 128, [A])];
    assert ps[4].c == Conn(map[A := 10], 0, [EventOf(A, ONCE)]);
    ps, steps := BeginStep(steps, ps, 9);
    LoneClaim(ps[5].w, 10, ONCE);
    ps, steps := WorkerStep(steps, ps, Claim(10, [K]));
    LoneList(ps[6], 10, TWICE);
    IdOf(A, TWICE);
    ps := ExtendPeer(steps, ps, List(10, "d", 128, [A]));
    steps := steps + [List(10, "d", 128, [A])];
  }

  lemma IdOf(id: Uuid, r: Row)
    ensures EventOf(id, r).id == id
  {
  }

  lemma WorkerStep(steps: seq<PeerStep>, ps: seq<Peer>, st: Step) returns (more: seq<Peer>, steps': seq<PeerStep>)
    requires PeerRun(CFG, steps, ps) && |ps| == |steps| + 1 && Enabled(CFG, ps[|steps|].w, st)
    ensures steps' == steps + [Worker(st)] && PeerRun(CFG, steps', more) && |more| == |steps'| + 1 && ps <= more
    ensures more[|steps'|].w == Next(CFG, ps[|steps|].w, st) && more[|steps'|].c == ps[|steps|].c
  {
    hide PeerRun, Enabled, Next;
    more := ExtendPeer(steps, ps, Worker(st));
    steps' := steps + [Worker(st)];
  }

  lemma BeginStep(steps: seq<PeerStep>, ps: seq<Peer>, now: Time) returns (more: seq<Peer>, steps': seq<PeerStep>)
    requires PeerRun(CFG, steps, ps) && |ps| == |steps| + 1 && ps[|steps|].c.now <= now
    ensures steps' == steps + [Begin(now)] && PeerRun(CFG, steps', more) && |more| == |steps'| + 1 && ps <= more
    ensures more[|steps'|].w == ps[|steps|].w
    ensures more[|steps'|].c == ps[|steps|].c.(sent := PurgeSent(ps[|steps|].c.sent, now), now := now)
  {
    hide PeerRun;
    more := ExtendPeer(steps, ps, Begin(now));
    steps' := steps + [Begin(now)];
  }
}
