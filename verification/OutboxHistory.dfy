/** What holds of whole runs of the outbox. */
module OutboxHistory {
  import opened OutboxTypes
  import opened OutboxSteps
  import opened OutboxInvariant
  import opened OutboxRuns
  import opened Selection
  import opened Sums
  import opened Wrappers

  // ---- The cached head

  ghost predicate Deliverable(db: Db, k: SegKey, id: Uuid, t: Time) {
    db.LiveIn(k, id) && db.rows[id].expiresAt > t
  }

  // From the latest ack reading on, the cached head is what a scan of the segment would find first.
  lemma HeadAgreesWithScan(cfg: Config, steps: seq<Step>, ws: seq<World>, n: nat, k: SegKey, t: Time)
    requires cfg.Positive() && Run(cfg, steps, ws) && n < |ws| && ws[n].clock <= t
    ensures var db := ws[n].db;
            match db.Head(k)
            case Some(e) => db.LiveIn(k, e) && forall id :: Deliverable(db, k, id, t) ==> db.rows[e].createdAt <= db.rows[id].createdAt
            case None => forall id :: db.LiveIn(k, id) ==> db.rows[id].expiresAt <= t
  {
    RunIsSound(cfg, steps, ws, n);
    SoundParts(cfg, ws[n], k);
  }

  // ---- Heads that move back

  // The head of k is passed over for an older row by step n.
  ghost predicate MovesBack(ws: seq<World>, n: nat, k: SegKey)
    requires n + 1 < |ws|
  {
    var db, db' := ws[n].db, ws[n + 1].db;
    && db.Head(k).Some? && db'.Head(k).Some? && db.Head(k).value in db.rows && db'.Head(k).value in db'.rows
    && db'.rows[db'.Head(k).value].createdAt < db.rows[db.Head(k).value].createdAt
  }

  // An ack of the head, by an older reading than an ack before it, finds an older row alive again
  // that had expired by then.
  ghost predicate Revives(w: World, st: Step) {
    st.Ack? && st.id in w.db.rows && RevivesBefore(w, st, w.db.rows[st.id].Key(), w.db.rows[st.id].createdAt)
  }

  lemma HeadMovesBackExactly(cfg: Config, ws: seq<World>, n: nat, st: Step, k: SegKey)
    requires cfg.Positive() && n + 1 < |ws| && Enabled(cfg, ws[n], st) && ws[n + 1] == Next(cfg, ws[n], st)
    requires Sound(cfg, ws[n])
    ensures MovesBack(ws, n, k) <==>
            st.Ack? && st.id in ws[n].db.rows && ws[n].db.rows[st.id].Key() == k && Revives(ws[n], st)
  {
    var w := ws[n];
    SoundParts(cfg, w, k);
    if w.db.Head(k).Some? {
      var e := w.db.Head(k).value;
      assert e in w.born && w.db.rows[e].Key() == k;
      RunsOnHeads(cfg, ws[n + 1], w, st);
      hide Enabled, Next, Sound, Inv;
      HeadStaysExactly(cfg, w, st, k, w.db.rows[e].createdAt);
    }
  }

  lemma RunsOnHeads(cfg: Config, w': World, w: World, st: Step)
    requires cfg.Positive() && Enabled(cfg, w, st) && w' == Next(cfg, w, st) && Sound(cfg, w)
    ensures forall k :: w'.db.Head(k).Some? ==> w'.db.Head(k).value in w'.db.rows
  {
    StepKeepsSound(cfg, w, st);
    hide Enabled, Next, Sound;
    forall k | w'.db.Head(k).Some? ensures w'.db.Head(k).value in w'.db.rows {
      SoundParts(cfg, w', k);
    }
  }

  // Over a whole run, no head ever moves back if and only if no ack revives a row.
  lemma HeadsMoveForwardExactly(cfg: Config, steps: seq<Step>, ws: seq<World>, n: nat)
    requires cfg.Positive() && Run(cfg, steps, ws) && n < |ws|
    ensures (forall m, k :: 0 <= m < n ==> !MovesBack(ws, m, k)) <==> forall m :: 0 <= m < n ==> !Revives(ws[m], steps[m])
  {
    hide Enabled, Next, Revives, MovesBack, Sound, StepAt;
    forall m, k | 0 <= m < n
      ensures MovesBack(ws, m, k) <==>
              steps[m].Ack? && steps[m].id in ws[m].db.rows && ws[m].db.rows[steps[m].id].Key() == k && Revives(ws[m], steps[m])
    {
      RunStep(cfg, steps, ws, m);
      HeadMovesBackExactly(cfg, ws, m, steps[m], k);
    }
    forall m | 0 <= m < n && Revives(ws[m], steps[m]) ensures exists k :: MovesBack(ws, m, k) {
      RevivesAcks(ws[m], steps[m]);
      assert MovesBack(ws, m, ws[m].db.rows[steps[m].id].Key());
    }
  }

  lemma RevivesAcks(w: World, st: Step)
    requires Revives(w, st)
    ensures st.Ack? && st.id in w.db.rows
  {
  }

  // ---- Order

  // Claims are in order so far, and no head is older than an event of its segment already claimed.
  ghost predicate InOrder(w: World) {
    Fifo(w.log) && forall i :: 0 <= i < |w.log| ==> NotPast(w.db, w.log[i].key, w.log[i].createdAt)
  }

  // An ack of the head revives a row older than an event of the segment already claimed.
  ghost predicate RevivesBehind(w: World, st: Step) {
    exists i :: 0 <= i < |w.log| && RevivesBefore(w, st, w.log[i].key, w.log[i].createdAt)
  }

  // Each new claim is of a head, and no head is older than an earlier claim of its segment.
  lemma FifoExtends(w: World, es: seq<OutboxEvent>, log: seq<OutboxEvent>)
    requires InOrder(w) && Fifo(es) && log == w.log + es
    requires forall e :: e in es ==> HasHead(w.db, e.key) && e.createdAt == HeadRow(w.db, e.key).createdAt
    ensures Fifo(log)
  {
    forall i, j | 0 <= i < j < |log| && log[i].key == log[j].key ensures log[i].createdAt <= log[j].createdAt {
      if |w.log| <= i {
        assert log[i] == es[i - |w.log|] && log[j] == es[j - |w.log|];
      } else if |w.log| <= j {
        assert log[j] == es[j - |w.log|] && log[i] == w.log[i] && NotPast(w.db, w.log[i].key, w.log[i].createdAt);
      } else {
        assert log[i] == w.log[i] && log[j] == w.log[j];
      }
    }
  }

  lemma ClaimExtendsFifo(cfg: Config, w: World, st: Step)
    requires cfg.Positive() && Enabled(cfg, w, st) && Sound(cfg, w) && InOrder(w)
    ensures Fifo(Next(cfg, w, st).log)
  {
    StepGrowsLog(cfg, w, st);
    assert Fifo(w.log);
    hide Enabled, Next, Sound, ClaimEvents, Fifo, InOrder, HasHead, HeadRow, Reached;
    if st.Claim? {
      ClaimedAreReached(cfg, w, st);
      FifoExtends(w, ClaimEvents(w.db, st.batch, st.now, cfg), Next(cfg, w, st).log);
    } else {
      assert w.log + [] == w.log;
    }
  }

  lemma ClaimsStandAtHeads(cfg: Config, w: World, st: Step, e: OutboxEvent)
    requires cfg.Positive() && Enabled(cfg, w, st) && Sound(cfg, w) && st.Claim?
    requires forall k :: k in st.batch ==> HasHead(w.db, k)
    requires e in ClaimEvents(w.db, st.batch, st.now, cfg)
    ensures NotPast(Next(cfg, w, st).db, e.key, e.createdAt)
  {
    ClaimedAreReached(cfg, w, st);
    SoundParts(cfg, w, e.key);
    NextAfterClaim(cfg, w, st);
    ClaimKeepsStamp(w.db, st.batch, st.now, cfg, e.key, e.createdAt);
  }

  lemma StepKeepsOrderExactly(cfg: Config, w: World, st: Step)
    requires cfg.Positive() && Enabled(cfg, w, st) && Sound(cfg, w) && InOrder(w)
    ensures InOrder(Next(cfg, w, st)) <==> !RevivesBehind(w, st)
  {
    var w' := Next(cfg, w, st);
    ClaimExtendsFifo(cfg, w, st);
    StepGrowsLog(cfg, w, st);
    assert LogStamped(w);
    hide Enabled, Next, Sound, Fifo, NotPast, RevivesBefore, ClaimEvents, HasHead;
    forall i | 0 <= i < |w.log|
      ensures w'.log[i] == w.log[i]
      ensures NotPast(w'.db, w.log[i].key, w.log[i].createdAt) <==> !RevivesBefore(w, st, w.log[i].key, w.log[i].createdAt)
    {
      HeadStaysExactly(cfg, w, st, w.log[i].key, w.log[i].createdAt);
    }
    forall i | |w.log| <= i < |w'.log| ensures NotPast(w'.db, w'.log[i].key, w'.log[i].createdAt) {
      ClaimsStandAtHeads(cfg, w, st, w'.log[i]);
    }
  }

  // Over a whole run, claims stay in order, and heads at or past what was claimed, if and only if
  // no ack revives a row behind a claimed event.
  lemma {:induction false} InOrderExactly(cfg: Config, steps: seq<Step>, ws: seq<World>, n: nat)
    requires cfg.Positive() && Run(cfg, steps, ws) && n < |ws|
    ensures (forall m :: 0 <= m <= n ==> InOrder(ws[m])) <==> forall m :: 0 <= m < n ==> !RevivesBehind(ws[m], steps[m])
  {
    hide Enabled, Next, InOrder, RevivesBehind, Sound, StepAt;
    if n == 0 {
      StartsInOrder(ws[0]);
    } else {
      InOrderExactly(cfg, steps, ws, n - 1);
      RunStep(cfg, steps, ws, n - 1);
      if InOrder(ws[n - 1]) {
        StepKeepsOrderExactly(cfg, ws[n - 1], steps[n - 1]);
      }
    }
  }

  lemma StartsInOrder(w: World)
    requires Initial(w)
    ensures InOrder(w)
  {
  }

  // The claims of one segment, retries included, then never go back to an older event.
  lemma ClaimsAreFifo(cfg: Config, steps: seq<Step>, ws: seq<World>, n: nat, i: nat, j: nat)
    requires cfg.Positive() && Run(cfg, steps, ws) && n < |ws|
    requires forall m :: 0 <= m < n ==> !RevivesBehind(ws[m], steps[m])
    requires i < j < |ws[n].log| && ws[n].log[i].key == ws[n].log[j].key
    ensures ws[n].log[i].createdAt <= ws[n].log[j].createdAt
  {
    InOrderExactly(cfg, steps, ws, n);
    assert InOrder(ws[n]);
  }

  // ---- Single leases

  // A row is in flight only as the head of its segment, and the in-flight pointer says so.
  ghost predicate SingleLease(db: Db) {
    forall k, e ::
      && (db.Lease(k) == Some(e) <==> e in db.rows && db.rows[e].Key() == k && db.rows[e].status.InFlight?)
      && (db.Lease(k) == Some(e) ==> db.Head(k) == Some(e))
  }

  lemma SingleLeaseIsWellFormed(db: Db)
    requires AllPointed(db)
    ensures SingleLease(db) <==> WellFormed(db)
  {
    if SingleLease(db) {
      forall id | id in db.rows && db.rows[id].status.InFlight? ensures db.Head(db.rows[id].Key()) == Some(id) {
        assert db.Lease(db.rows[id].Key()) == Some(id);
      }
      forall k ensures HeadOwned(db, k) && LeaseExact(db, k) {
        assert Pointed(db, k);
      }
    }
    if WellFormed(db) {
      forall k, e
        ensures db.Lease(k) == Some(e) <==> e in db.rows && db.rows[e].Key() == k && db.rows[e].status.InFlight?
        ensures db.Lease(k) == Some(e) ==> db.Head(k) == Some(e)
      {
        assert HeadOwned(db, k) && LeaseExact(db, k);
      }
    }
  }

  // A drop from a stamp past its segment's leased head.
  ghost predicate Strands(w: World, st: Step) {
    st.Drop? && LeasedBefore(w.db, st.ticket.key, st.ticket.createdAt)
  }

  lemma StepKeepsLeasesExactly(cfg: Config, w: World, st: Step)
    requires cfg.Positive() && Enabled(cfg, w, st) && Sound(cfg, w) && WellFormed(w.db)
    ensures WellFormed(Next(cfg, w, st).db) <==> !Strands(w, st)
  {
    assert RowsOk(cfg, w);
    hide Sound, WellFormed, LeasedBefore;
    match st
    case Append(ev, targets) =>
      AppendKeepsWellFormed(w.db, ev, targets);
    case Claim(now, batch) =>
      ChosenHaveHeads(cfg, w, st);
      ClaimKeepsWellFormed(w.db, batch, now, cfg);
    case Ack(now, id, device, segment, next) =>
      AckKeepsWellFormed(w.db, now, id, device, segment, next);
    case Scan(now, batch) =>
      ChosenHaveHeads(cfg, w, st);
    case Drop(ticket) =>
      DropKeepsWellFormedExactly(w.db, ticket.key, ticket.createdAt);
    case Purge(now, retention, status, limit, victims) =>
      WellFormedArePointed(w.db);
      DeleteKeepsInv(w.db, victims, 0);
  }

  // Over a whole run, leases stay single if and only if no drop strands one.
  lemma {:induction false} LeasesAreSingleExactly(cfg: Config, steps: seq<Step>, ws: seq<World>, n: nat)
    requires cfg.Positive() && Run(cfg, steps, ws) && n < |ws|
    ensures (forall m :: 0 <= m <= n ==> SingleLease(ws[m].db)) <==> forall m :: 0 <= m < n ==> !Strands(ws[m], steps[m])
  {
    hide Enabled, Next, SingleLease, WellFormed, Strands, Sound, StepAt;
    SoundLeases(cfg, steps, ws, n);
    if n == 0 {
      StartsWellFormed(ws[0]);
    } else {
      LeasesAreSingleExactly(cfg, steps, ws, n - 1);
      SoundLeases(cfg, steps, ws, n - 1);
      RunStep(cfg, steps, ws, n - 1);
      if WellFormed(ws[n - 1].db) {
        StepKeepsLeasesExactly(cfg, ws[n - 1], steps[n - 1]);
      }
    }
  }

  lemma StartsWellFormed(w: World)
    requires Initial(w)
    ensures WellFormed(w.db)
  {
  }

  lemma SoundLeases(cfg: Config, steps: seq<Step>, ws: seq<World>, n: nat)
    requires cfg.Positive() && Run(cfg, steps, ws) && n < |ws|
    ensures SingleLease(ws[n].db) <==> WellFormed(ws[n].db)
  {
    RunIsSound(cfg, steps, ws, n);
    hide Run, SingleLease, WellFormed;
    InvPoints(ws[n].db, ws[n].clock);
    SingleLeaseIsWellFormed(ws[n].db);
  }

  // A listing of tables with single leases holds no two events of one segment.
  lemma SingleLeasesListOnce(db: Db, device: DeviceId, now: Time, limit: nat, ids: seq<Uuid>, i: nat, j: nat)
    requires SingleLease(db) && IsSelection(InFlightAt(db, device, now), RowStamps(db), limit, ids) && i < j < |ids|
    ensures ids[i] in db.rows && ids[j] in db.rows && db.rows[ids[i]].segment != db.rows[ids[j]].segment
  {
    assert ids[i] in Elems(ids) && ids[j] in Elems(ids);
    assert db.Lease(db.rows[ids[i]].Key()) == Some(ids[i]) && db.Lease(db.rows[ids[j]].Key()) == Some(ids[j]);
  }

  // ---- Heads against tickets

  // No head is older than the stamp of a ticket of its segment.
  ghost predicate TicketsBehind(w: World) {
    forall t :: t in w.tickets ==> NotPast(w.db, t.key, t.createdAt)
  }

  // An ack of the head revives a row older than a ticket of the segment.
  ghost predicate RevivesBehindTicket(w: World, st: Step) {
    exists t :: t in w.tickets && RevivesBefore(w, st, t.key, t.createdAt)
  }

  lemma ScannedStandAtHeads(cfg: Config, w: World, st: Step, t: Ticket)
    requires cfg.Positive() && Enabled(cfg, w, st) && t in Next(cfg, w, st).tickets && t !in w.tickets
    ensures NotPast(Next(cfg, w, st).db, t.key, t.createdAt)
  {
    if st.Scan? {
      NextAfterScan(cfg, w, st);
    }
  }

  lemma StepKeepsTicketsBehindExactly(cfg: Config, w: World, st: Step)
    requires cfg.Positive() && Enabled(cfg, w, st) && Sound(cfg, w) && TicketsBehind(w)
    ensures TicketsBehind(Next(cfg, w, st)) <==> !RevivesBehindTicket(w, st)
  {
    var w' := Next(cfg, w, st);
    assert TicketsOk(w) && w.tickets <= w'.tickets;
    hide Enabled, Next, Sound, NotPast, RevivesBefore, ExpiredBefore, Reached;
    forall t | t in w.tickets
      ensures NotPast(w'.db, t.key, t.createdAt) <==> !RevivesBefore(w, st, t.key, t.createdAt)
    {
      HeadStaysExactly(cfg, w, st, t.key, t.createdAt);
    }
    forall t | t in w'.tickets && t !in w.tickets ensures NotPast(w'.db, t.key, t.createdAt) {
      ScannedStandAtHeads(cfg, w, st, t);
    }
  }

  // Over a whole run, no head falls behind a ticket if and only if no ack revives a row behind one.
  lemma {:induction false} TicketsBehindExactly(cfg: Config, steps: seq<Step>, ws: seq<World>, n: nat)
    requires cfg.Positive() && Run(cfg, steps, ws) && n < |ws|
    ensures (forall m :: 0 <= m <= n ==> TicketsBehind(ws[m])) <==>
            forall m :: 0 <= m < n ==> !RevivesBehindTicket(ws[m], steps[m])
  {
    hide Enabled, Next, TicketsBehind, RevivesBehindTicket, Sound, StepAt;
    if n == 0 {
      StartsWithoutTickets(ws[0]);
    } else {
      TicketsBehindExactly(cfg, steps, ws, n - 1);
      RunStep(cfg, steps, ws, n - 1);
      if TicketsBehind(ws[n - 1]) {
        StepKeepsTicketsBehindExactly(cfg, ws[n - 1], steps[n - 1]);
      }
    }
  }

  lemma StartsWithoutTickets(w: World)
    requires Initial(w)
    ensures TicketsBehind(w)
  {
  }

  lemma BehindNeverStrands(cfg: Config, w: World, st: Step)
    requires cfg.Positive() && Enabled(cfg, w, st) && TicketsBehind(w)
    ensures !Strands(w, st)
  {
  }

  // So no drop strands a lease while no ack revives a row behind a ticket.
  lemma NoLeaseIsStranded(cfg: Config, steps: seq<Step>, ws: seq<World>, n: nat)
    requires cfg.Positive() && Run(cfg, steps, ws) && n < |ws|
    requires forall m :: 0 <= m < n ==> !RevivesBehindTicket(ws[m], steps[m])
    ensures forall m :: 0 <= m < n ==> !Strands(ws[m], steps[m])
    ensures forall m :: 0 <= m <= n ==> SingleLease(ws[m].db)
  {
    TicketsBehindExactly(cfg, steps, ws, n);
    LeasesAreSingleExactly(cfg, steps, ws, n);
    hide Enabled, Next, TicketsBehind, RevivesBehindTicket, Strands, SingleLease, Sound, StepAt;
    forall m | 0 <= m < n ensures !Strands(ws[m], steps[m]) {
      RunStep(cfg, steps, ws, m);
      BehindNeverStrands(cfg, ws[m], steps[m]);
    }
  }

  // Acks that read no clock older than an ack before them, up to step n.
  ghost predicate AcksInOrder(steps: seq<Step>, ws: seq<World>, n: nat)
    requires n <= |steps| && |ws| == |steps| + 1
  {
    forall m :: 0 <= m < n && steps[m].Ack? ==> ws[m].clock <= steps[m].now
  }

  // Such acks revive nothing: not behind a claimed event, nor behind a ticket, nor behind the head.
  lemma AcksInOrderReviveNothing(steps: seq<Step>, ws: seq<World>, n: nat)
    requires n <= |steps| && |ws| == |steps| + 1 && AcksInOrder(steps, ws, n)
    ensures forall m :: 0 <= m < n ==> !RevivesBehind(ws[m], steps[m])
    ensures forall m :: 0 <= m < n ==> !RevivesBehindTicket(ws[m], steps[m])
    ensures forall m :: 0 <= m < n ==> !Revives(ws[m], steps[m])
  {
  }

  // While no ack revives a row behind a ticket, the in-flight pointer is e exactly when e is an
  // in-flight row of the segment, and then e is the head.
  lemma OneInFlightPerSegment(cfg: Config, steps: seq<Step>, ws: seq<World>, n: nat, k: SegKey, e: Uuid)
    requires cfg.Positive() && Run(cfg, steps, ws) && n < |ws|
    requires forall m :: 0 <= m < n ==> !RevivesBehindTicket(ws[m], steps[m])
    ensures var db := ws[n].db;
            db.Lease(k) == Some(e) <==> e in db.rows && db.rows[e].Key() == k && db.rows[e].status.InFlight?
    ensures ws[n].db.Lease(k) == Some(e) ==> ws[n].db.Head(k) == Some(e)
  {
    NoLeaseIsStranded(cfg, steps, ws, n);
    assert SingleLease(ws[n].db);
  }

  // And no listing holds two events of one segment.
  lemma ListInflightHasOnePerSegment(cfg: Config, steps: seq<Step>, ws: seq<World>, n: nat, device: DeviceId,
      now: Time, limit: nat, ids: seq<Uuid>, i: nat, j: nat)
    requires cfg.Positive() && Run(cfg, steps, ws) && n < |ws|
    requires forall m :: 0 <= m < n ==> !RevivesBehindTicket(ws[m], steps[m])
    requires IsSelection(InFlightAt(ws[n].db, device, now), RowStamps(ws[n].db), limit, ids)
    requires i < j < |ids|
    ensures ids[i] in ws[n].db.rows && ids[j] in ws[n].db.rows
    ensures ws[n].db.rows[ids[i]].segment != ws[n].db.rows[ids[j]].segment
  {
    NoLeaseIsStranded(cfg, steps, ws, n);
    SingleLeasesListOnce(ws[n].db, device, now, limit, ids, i, j);
  }

  // With acks in the order of their readings all of this holds: claims in order, heads that never
  // move back, single leases.
  lemma AcksInOrderKeepEverything(cfg: Config, steps: seq<Step>, ws: seq<World>, n: nat)
    requires cfg.Positive() && Run(cfg, steps, ws) && n < |ws| && AcksInOrder(steps, ws, n)
    ensures InOrder(ws[n]) && TicketsBehind(ws[n]) && SingleLease(ws[n].db)
    ensures forall m, k :: 0 <= m < n ==> !MovesBack(ws, m, k)
  {
    hide Run, AcksInOrder, InOrder, TicketsBehind, SingleLease, MovesBack, Revives, RevivesBehind, RevivesBehindTicket;
    RunLength(cfg, steps, ws);
    AcksInOrderReviveNothing(steps, ws, n);
    InOrderExactly(cfg, steps, ws, n);
    TicketsBehindExactly(cfg, steps, ws, n);
    NoLeaseIsStranded(cfg, steps, ws, n);
    HeadsMoveForwardExactly(cfg, steps, ws, n);
  }

  // ---- The stale janitor

  lemma {:induction false} TicketsLast(cfg: Config, steps: seq<Step>, ws: seq<World>, i: nat, j: nat)
    requires cfg.Positive() && Run(cfg, steps, ws) && i <= j < |ws|
    ensures ws[i].tickets <= ws[j].tickets
  {
    hide Enabled, Sound;
    if i < j {
      TicketsLast(cfg, steps, ws, i, j - 1);
      RunStep(cfg, steps, ws, j - 1);
    }
  }

  // Carrying out the drop now is allowed, keeps what every run keeps, and leaves the segment with
  // no head and no row that could still be delivered. It keeps leases single exactly when it does
  // not start past a leased head.
  ghost predicate HarmlessNow(cfg: Config, w: World, ticket: Ticket)
    requires cfg.Positive()
  {
    var dropped := DropDb(w.db, ticket.key, ticket.createdAt);
    && Enabled(cfg, w, Drop(ticket))
    && Next(cfg, w, Drop(ticket)).db == dropped
    && Sound(cfg, Next(cfg, w, Drop(ticket)))
    && dropped.Head(ticket.key) == None
    && (forall id, t :: t >= w.clock ==> !Deliverable(dropped, ticket.key, id, t))
    && (SingleLease(w.db) ==> (SingleLease(dropped) <==> !LeasedBefore(w.db, ticket.key, ticket.createdAt)))
  }

  lemma DropFromTicket(cfg: Config, w: World, ticket: Ticket)
    requires cfg.Positive() && Sound(cfg, w) && ticket in w.tickets
    ensures HarmlessNow(cfg, w, ticket)
  {
    StepKeepsSound(cfg, w, Drop(ticket));
    SoundParts(cfg, w, ticket.key);
    if SingleLease(w.db) {
      DropKeepsSingleExactly(cfg, w, ticket);
    }
    hide Sound, Inv, SingleLease, LeasedBefore;
    DropKeepsInv(w.db, ticket.key, ticket.createdAt, w.clock);
  }

  lemma DropKeepsSingleExactly(cfg: Config, w: World, ticket: Ticket)
    requires Sound(cfg, w) && ticket in w.tickets && SingleLease(w.db)
    ensures SingleLease(DropDb(w.db, ticket.key, ticket.createdAt)) <==> !LeasedBefore(w.db, ticket.key, ticket.createdAt)
  {
    SoundParts(cfg, w, ticket.key);
    var dropped := DropDb(w.db, ticket.key, ticket.createdAt);
    hide Sound, WellFormed, SingleLease, LeasedBefore, DropDb;
    DropKeepsInv(w.db, ticket.key, ticket.createdAt, w.clock);
    InvPoints(w.db, w.clock);
    InvPoints(dropped, w.clock);
    hide Inv, AllPointed;
    SingleLeaseIsWellFormed(w.db);
    SingleLeaseIsWellFormed(dropped);
    DropKeepsWellFormedExactly(w.db, ticket.key, ticket.createdAt);
  }

  lemma ScanIssuesTicket(cfg: Config, w: World, st: Step, k: SegKey)
    requires cfg.Positive() && Enabled(cfg, w, st) && st.Scan? && k in st.batch
    ensures HasHead(w.db, k)
    ensures var t := Ticket(k, HeadRow(w.db, k).createdAt);
            t in Next(cfg, w, st).tickets && NotPast(Next(cfg, w, st).db, k, t.createdAt)
  {
    ChosenHaveHeads(cfg, w, st);
  }

  // Between a scan and its drop the head stays at or past the ticket's stamp exactly while no ack
  // revives a row older than that.
  lemma {:induction false} HeadStaysPastTicketExactly(cfg: Config, steps: seq<Step>, ws: seq<World>, i: nat,
      j: nat, t: Ticket)
    requires cfg.Positive() && Run(cfg, steps, ws) && i <= j < |ws| && t in ws[i].tickets
    requires NotPast(ws[i].db, t.key, t.createdAt)
    ensures (forall m :: i <= m <= j ==> NotPast(ws[m].db, t.key, t.createdAt)) <==>
            forall m :: i <= m < j ==> !RevivesBefore(ws[m], steps[m], t.key, t.createdAt)
  {
    hide Enabled, Next, NotPast, RevivesBefore, Sound, StepAt;
    if i < j {
      HeadStaysPastTicketExactly(cfg, steps, ws, i, j - 1, t);
      RunStep(cfg, steps, ws, j - 1);
      TicketsLast(cfg, steps, ws, i, j - 1);
      if NotPast(ws[j - 1].db, t.key, t.createdAt) {
        TicketIsReached(cfg, ws[j - 1], t);
        HeadStaysExactly(cfg, ws[j - 1], steps[j - 1], t.key, t.createdAt);
      }
    }
  }

  lemma TicketIsReached(cfg: Config, w: World, t: Ticket)
    requires Sound(cfg, w) && t in w.tickets
    ensures Reached(w.newest, t.key, t.createdAt)
  {
  }

  // A drop decided by the scan at step i and carried out at any later point j, whatever ran between.
  // It starts past no leased head unless an ack in between revived a row older than what the scan saw.
  lemma StaleJanitorIsHarmless(cfg: Config, steps: seq<Step>, ws: seq<World>, i: nat, j: nat, k: SegKey)
    requires cfg.Positive() && Run(cfg, steps, ws) && i < j < |ws| && steps[i].Scan? && k in steps[i].batch
    ensures HasHead(ws[i].db, k)
    ensures var t := Ticket(k, HeadRow(ws[i].db, k).createdAt);
            && HarmlessNow(cfg, ws[j], t)
            && ((forall m :: i < m < j ==> !RevivesBefore(ws[m], steps[m], k, t.createdAt)) ==>
                  !LeasedBefore(ws[j].db, k, t.createdAt))
  {
    hide *;
    RunLength(cfg, steps, ws);
    RunStep(cfg, steps, ws, i);
    ScanIssuesTicket(cfg, ws[i], steps[i], k);
    var t := Ticket(k, HeadRow(ws[i].db, k).createdAt);
    TicketsLast(cfg, steps, ws, i + 1, j);
    RunIsSound(cfg, steps, ws, j);
    DropFromTicket(cfg, ws[j], t);
    HeadStaysPastTicketExactly(cfg, steps, ws, i + 1, j, t);
    NotPastIsNotLeased(ws[j].db, k, t.createdAt);
  }

  lemma NotPastIsNotLeased(db: Db, k: SegKey, stamp: Time)
    ensures NotPast(db, k, stamp) ==> !LeasedBefore(db, k, stamp)
  {
  }

  // ---- Retries

  // Once claimed n times, an event was last sent no earlier than (n - 1) timeouts after it fell due.
  lemma RetryArithmetic(cfg: Config, steps: seq<Step>, ws: seq<World>, n: nat, id: Uuid)
    requires cfg.Positive() && Run(cfg, steps, ws) && n < |ws| && id in ws[n].db.rows
    ensures id in ws[n].born
    ensures var r := ws[n].db.rows[id];
            && r.attempts <= cfg.maxAttempts
            && (r.attempts > 0 ==>
                  && r.lastSentAt.Some?
                  && ws[n].born[id].sendAfter + (r.attempts - 1) * cfg.ackTimeout <= r.lastSentAt.value < r.expiresAt
                  && r.inflightUntil == Some(r.lastSentAt.value + cfg.ackTimeout))
  {
    RunIsSound(cfg, steps, ws, n);
  }

  // The log speaks of rows as they are: an older claim of an event has run out before the next.
  ghost predicate ClaimBorn(cfg: Config, born: map<Uuid, Row>, e: OutboxEvent) {
    && e.id in born && born[e.id].Key() == e.key && born[e.id].createdAt == e.createdAt
    && 1 <= e.attempts <= cfg.maxAttempts
    && e.lastSentAt.Some? && e.inflightUntil == Some(e.lastSentAt.value + cfg.ackTimeout)
  }

  ghost predicate ClaimPrecedes(e: OutboxEvent, r: Row) {
    && e.attempts <= r.attempts && r.lastSentAt.Some? && e.lastSentAt.Some? && e.inflightUntil.Some?
    && (e.attempts == r.attempts ==> r.lastSentAt == e.lastSentAt && r.inflightUntil == e.inflightUntil)
    && (e.attempts < r.attempts ==> e.inflightUntil.value <= r.lastSentAt.value)
  }

  // Two claims of one event are different attempts, a whole timeout apart.
  ghost predicate Apart(a: OutboxEvent, b: OutboxEvent) {
    a.id == b.id ==>
      a.attempts < b.attempts && a.inflightUntil.Some? && b.lastSentAt.Some? && a.inflightUntil.value <= b.lastSentAt.value
  }

  ghost predicate ClaimOk(cfg: Config, w: World, e: OutboxEvent) {
    && ClaimBorn(cfg, w.born, e)
    && (e.id in w.db.rows ==> ClaimPrecedes(e, w.db.rows[e.id]))
  }

  ghost predicate LogOk(cfg: Config, w: World) {
    && (forall i :: 0 <= i < |w.log| ==> ClaimOk(cfg, w, w.log[i]))
    && (forall i, j :: 0 <= i < j < |w.log| ==> Apart(w.log[i], w.log[j]))
  }

  lemma MoveKeepsClaim(cfg: Config, st: Step, born: Row, r: Row, r': Row, e: OutboxEvent)
    requires cfg.Positive() && Moves(cfg, st, r, r') && RetryOk(cfg, born, r) && ClaimPrecedes(e, r)
    ensures ClaimPrecedes(e, r')
  {
  }

  // A new claim is of a stored row it leaves leased, and comes after every earlier claim of it.
  lemma NewClaim(cfg: Config, w: World, now: Time, batch: seq<SegKey>, e: OutboxEvent)
    requires cfg.Positive() && Enabled(cfg, w, Claim(now, batch)) && Sound(cfg, w)
    requires forall k :: k in batch ==> HasHead(w.db, k)
    requires e in ClaimEvents(w.db, batch, now, cfg)
    ensures e.id in w.db.rows && ClaimBorn(cfg, w.born, e)
    ensures var r := w.db.rows[e.id];
            && Ready(r, now, cfg.maxAttempts) && ClaimRow(w.db, batch, now, cfg, e.id) == Leased(r, now, cfg.ackTimeout)
            && e == EventOf(e.id, Leased(r, now, cfg.ackTimeout))
  {
    assert RowsOk(cfg, w);
    ChosenAreDue(cfg, w, now, batch);
    hide Enabled, Sound;
    ClaimEventsFrom(w.db, batch, now, cfg);
    assert HeadOwned(w.db, e.key) && HeadDue(w.db, e.key, now);
  }

  // Claims made together are of different events, and follow every earlier claim of theirs.
  lemma NewClaimsAreApart(cfg: Config, w: World, now: Time, batch: seq<SegKey>, a: OutboxEvent, b: OutboxEvent)
    requires cfg.Positive() && Enabled(cfg, w, Claim(now, batch)) && Sound(cfg, w)
    requires forall k :: k in batch ==> HasHead(w.db, k)
    requires b in ClaimEvents(w.db, batch, now, cfg)
    requires (a in ClaimEvents(w.db, batch, now, cfg) && a.key != b.key) || ClaimOk(cfg, w, a)
    ensures Apart(a, b)
  {
    assert RowsOk(cfg, w);
    hide Enabled, Sound, ClaimEvents;
    NewClaim(cfg, w, now, batch, b);
    if a in ClaimEvents(w.db, batch, now, cfg) && a.key != b.key {
      NewClaim(cfg, w, now, batch, a);
    }
  }

  lemma ClaimKeepsApart(cfg: Config, w: World, now: Time, batch: seq<SegKey>, i: nat, j: nat)
    requires cfg.Positive() && Enabled(cfg, w, Claim(now, batch)) && Sound(cfg, w) && LogOk(cfg, w)
    requires forall k :: k in batch ==> HasHead(w.db, k)
    requires i < j < |w.log + ClaimEvents(w.db, batch, now, cfg)|
    ensures var log := w.log + ClaimEvents(w.db, batch, now, cfg); Apart(log[i], log[j])
  {
    var es := ClaimEvents(w.db, batch, now, cfg);
    if |w.log| <= j {
      hide Enabled, Sound, ClaimEvents, Apart, ClaimOk;
      ChosenAreDue(cfg, w, now, batch);
      ClaimEventsFrom(w.db, batch, now, cfg);
      assert |w.log| <= i ==> es[i - |w.log|].key != es[j - |w.log|].key && es[i - |w.log|] in es;
      NewClaimsAreApart(cfg, w, now, batch, (w.log + es)[i], es[j - |w.log|]);
    }
  }

  lemma StepKeepsOldClaim(cfg: Config, w: World, st: Step, e: OutboxEvent)
    requires cfg.Positive() && Enabled(cfg, w, st) && Sound(cfg, w) && ClaimOk(cfg, w, e)
    ensures ClaimOk(cfg, Next(cfg, w, st), e)
  {
    var w' := Next(cfg, w, st);
    StepMovesTable(cfg, w, st);
    BornStays(cfg, w, st, e.id);
    if e.id in w'.db.rows {
      if e.id !in w.db.rows {
        NewRowsAreInserted(cfg, w, st, e.id);
      }
      MoveKeepsClaim(cfg, st, w.born[e.id], w.db.rows[e.id], w'.db.rows[e.id], e);
    }
  }

  lemma StepLogsClaims(cfg: Config, w: World, st: Step, e: OutboxEvent)
    requires cfg.Positive() && Enabled(cfg, w, st) && Sound(cfg, w) && st.Claim?
    requires forall k :: k in st.batch ==> HasHead(w.db, k)
    requires e in ClaimEvents(w.db, st.batch, st.now, cfg)
    ensures ClaimOk(cfg, Next(cfg, w, st), e)
  {
    NewClaim(cfg, w, st.now, st.batch, e);
  }

  lemma StepKeepsLog(cfg: Config, w: World, st: Step)
    requires cfg.Positive() && Enabled(cfg, w, st) && Sound(cfg, w) && LogOk(cfg, w)
    ensures LogOk(cfg, Next(cfg, w, st))
  {
    hide Enabled, Sound, Next, ClaimEvents, Apart, ClaimOk;
    var w' := Next(cfg, w, st);
    StepGrowsLog(cfg, w, st);
    forall i | 0 <= i < |w'.log| ensures ClaimOk(cfg, w', w'.log[i]) {
      if i < |w.log| {
        StepKeepsOldClaim(cfg, w, st, w.log[i]);
      } else {
        StepLogsClaims(cfg, w, st, w'.log[i]);
      }
    }
    forall i, j | 0 <= i < j < |w'.log| ensures Apart(w'.log[i], w'.log[j]) {
      if st.Claim? {
        ClaimKeepsApart(cfg, w, st.now, st.batch, i, j);
      }
    }
  }

  lemma {:induction false} RunKeepsLog(cfg: Config, steps: seq<Step>, ws: seq<World>, n: nat)
    requires cfg.Positive() && Run(cfg, steps, ws) && n < |ws|
    ensures LogOk(cfg, ws[n])
  {
    hide Enabled, Sound, Next;
    if n > 0 {
      RunKeepsLog(cfg, steps, ws, n - 1);
      RunStep(cfg, steps, ws, n - 1);
      StepKeepsLog(cfg, ws[n - 1], steps[n - 1]);
    }
  }

  // Two claims of one event in a run are different attempts within the limit, a timeout apart or more.
  lemma ClaimsOfOneEventAreApart(cfg: Config, steps: seq<Step>, ws: seq<World>, n: nat, i: nat, j: nat)
    requires cfg.Positive() && Run(cfg, steps, ws) && n < |ws|
    requires i < j < |ws[n].log| && ws[n].log[i].id == ws[n].log[j].id
    ensures 1 <= ws[n].log[i].attempts < ws[n].log[j].attempts <= cfg.maxAttempts
    ensures ws[n].log[i].lastSentAt.Some? && ws[n].log[j].lastSentAt.Some?
    ensures ws[n].log[i].lastSentAt.value + cfg.ackTimeout <= ws[n].log[j].lastSentAt.value
  {
    RunKeepsLog(cfg, steps, ws, n);
    assert ClaimOk(cfg, ws[n], ws[n].log[i]) && ClaimOk(cfg, ws[n], ws[n].log[j]) && Apart(ws[n].log[i], ws[n].log[j]);
  }

  // ---- Conservation

  datatype Phase = Unborn | In(status: Status) | Purged

  ghost function PhaseOf(w: World, id: Uuid): Phase {
    if id in w.db.rows then In(w.db.rows[id].status) else if id in w.born then Purged else Unborn
  }

  // Nothing leaves Purged; Acked is left only by a purge, Dropped only by an ack or a purge,
  // and no row becomes pending again.
  predicate CanBecome(a: Phase, b: Phase) {
    a == b || a.Unborn? || match a
      case In(Pending) => !b.Unborn?
      case In(InFlight) => !b.Unborn? && b != In(Pending)
      case In(Dropped) => b == In(Acked) || b.Purged?
      case In(Acked) => b.Purged?
      case Purged => false
      case Unborn => true
  }

  lemma StepMovesPhase(cfg: Config, w: World, st: Step, id: Uuid)
    requires cfg.Positive() && Enabled(cfg, w, st) && Sound(cfg, w)
    ensures CanBecome(PhaseOf(w, id), PhaseOf(Next(cfg, w, st), id))
    ensures !st.Purge? && id in w.db.rows ==> id in Next(cfg, w, st).db.rows
  {
    assert id in w.db.rows ==> id in w.born;
    hide Sound, Inv, RowsOk;
    StepMovesTable(cfg, w, st);
    if id in w.born {
      BornStays(cfg, w, st, id);
    }
    if id !in w.db.rows && id in Next(cfg, w, st).db.rows {
      NewRowsAreInserted(cfg, w, st, id);
    }
  }

  lemma {:induction false} PhasesMoveForward(cfg: Config, steps: seq<Step>, ws: seq<World>, i: nat, j: nat, id: Uuid)
    requires cfg.Positive() && Run(cfg, steps, ws) && i <= j < |ws|
    ensures CanBecome(PhaseOf(ws[i], id), PhaseOf(ws[j], id))
  {
    hide Enabled, Next, Sound, PhaseOf;
    if i < j {
      PhasesMoveForward(cfg, steps, ws, i, j - 1, id);
      RunStep(cfg, steps, ws, j - 1);
      StepMovesPhase(cfg, ws[j - 1], steps[j - 1], id);
    }
  }

  // How many rows the purges among the first n steps took.
  function PurgedBy(steps: seq<Step>, n: nat): nat
    requires n <= |steps|
  {
    if n == 0 then 0
    else PurgedBy(steps, n - 1) + if steps[n - 1].Purge? then |steps[n - 1].victims| else 0
  }

  lemma PurgedStep(steps: seq<Step>, n: nat)
    requires n <= |steps|
    ensures PurgedBy(steps, n) == if n == 0 then 0 else PurgedBy(steps, n - 1) + if steps[n - 1].Purge? then |steps[n - 1].victims| else 0
  {
  }

  ghost function Missing(w: World): set<Uuid> {
    w.born.Keys - w.db.rows.Keys
  }

  lemma OnlyPurgesLose(cfg: Config, w: World, st: Step, id: Uuid)
    requires cfg.Positive() && Enabled(cfg, w, st) && Sound(cfg, w) && !st.Purge?
    ensures id in Missing(Next(cfg, w, st)) <==> id in Missing(w)
  {
    StepMovesPhase(cfg, w, st, id);
    if id in w.born {
      BornStays(cfg, w, st, id);
    } else if st.Append? {
      AppendRows(w.db, st.ev, st.targets, id);
    }
  }

  lemma SetsLost(all: set<Uuid>, kept: set<Uuid>, victims: seq<Uuid>)
    requires Distinct(victims) && Elems(victims) <= kept <= all
    ensures |all - (kept - Elems(victims))| == |all - kept| + |victims|
  {
    DistinctCount(victims);
    assert all - (kept - Elems(victims)) == (all - kept) + Elems(victims);
  }

  lemma PurgeLosesVictims(cfg: Config, w: World, st: Step)
    requires cfg.Positive() && Enabled(cfg, w, st) && Sound(cfg, w) && st.Purge?
    ensures |Missing(Next(cfg, w, st))| == |Missing(w)| + |st.victims|
  {
    assert RowsOk(cfg, w);
    hide Sound;
    SetsLost(w.born.Keys, w.db.rows.Keys, st.victims);
    assert Next(cfg, w, st).db.rows.Keys == w.db.rows.Keys - Elems(st.victims);
  }

  lemma StepConserves(cfg: Config, w: World, st: Step)
    requires cfg.Positive() && Enabled(cfg, w, st) && Sound(cfg, w)
    ensures |Missing(Next(cfg, w, st))| == |Missing(w)| + if st.Purge? then |st.victims| else 0
  {
    hide *;
    if st.Purge? {
      PurgeLosesVictims(cfg, w, st);
    } else {
      forall id ensures id in Missing(Next(cfg, w, st)) <==> id in Missing(w) {
        OnlyPurgesLose(cfg, w, st, id);
      }
      assert Missing(Next(cfg, w, st)) == Missing(w);
    }
  }

  // Every row ever appended is still in the table, or is one of those the purges counted.
  lemma AppendedIsKeptOrPurged(cfg: Config, steps: seq<Step>, ws: seq<World>, n: nat)
    requires cfg.Positive() && Run(cfg, steps, ws) && n < |ws|
    ensures |ws[n].born| == |ws[n].db.rows| + PurgedBy(steps, n)
  {
    MissingArePurged(cfg, steps, ws, n);
    RunIsSound(cfg, steps, ws, n);
    assert ws[n].db.rows.Keys <= ws[n].born.Keys;
  }

  lemma {:induction false} MissingArePurged(cfg: Config, steps: seq<Step>, ws: seq<World>, n: nat)
    requires cfg.Positive() && Run(cfg, steps, ws) && n < |ws|
    ensures |Missing(ws[n])| == PurgedBy(steps, n)
  {
    hide *;
    RunLength(cfg, steps, ws);
    PurgedStep(steps, n);
    if n > 0 {
      RunStep(cfg, steps, ws, n - 1);
      MissingArePurged(cfg, steps, ws, n - 1);
      StepConserves(cfg, ws[n - 1], steps[n - 1]);
    } else {
      NothingMissingAtFirst(cfg, steps, ws);
    }
  }

  lemma NothingMissingAtFirst(cfg: Config, steps: seq<Step>, ws: seq<World>)
    requires cfg.Positive() && Run(cfg, steps, ws)
    ensures |ws| > 0 && Missing(ws[0]) == {}
  {
  }

  // An append stores one pending row per target device; a purge takes only rows that are over
  // and past their retention, so none that a segment points at.
  lemma AppendReachesEveryTarget(cfg: Config, steps: seq<Step>, ws: seq<World>, n: nat, d: DeviceId)
    requires cfg.Positive() && Run(cfg, steps, ws) && n < |steps| && steps[n].Append? && d in steps[n].targets
    ensures PhaseOf(ws[n], Derived(steps[n].ev.id, d)) == Unborn
    ensures PhaseOf(ws[n + 1], Derived(steps[n].ev.id, d)) == In(Pending)
    ensures ws[n + 1].db.rows[Derived(steps[n].ev.id, d)].Key() == SegKey(d, SegmentOf(steps[n].ev))
  {
    RunStep(cfg, steps, ws, n);
    AppendRows(ws[n].db, steps[n].ev, steps[n].targets, Derived(steps[n].ev.id, d));
  }

  lemma PurgeTakesOnlyRetired(cfg: Config, steps: seq<Step>, ws: seq<World>, n: nat, id: Uuid)
    requires cfg.Positive() && Run(cfg, steps, ws) && n < |steps| && steps[n].Purge?
    requires id in ws[n].db.rows && id !in ws[n + 1].db.rows
    ensures var r := ws[n].db.rows[id];
            && ((r.status.Acked? && r.ackedAt.Some? && r.ackedAt.value + steps[n].retention <= steps[n].now)
                || (r.status.Dropped? && r.expiresAt + steps[n].retention <= steps[n].now))
            && forall k :: ws[n].db.Head(k) != Some(id) && ws[n].db.Lease(k) != Some(id)
  {
    RunStep(cfg, steps, ws, n);
    assert RowsOk(cfg, ws[n]) && id in Elems(steps[n].victims);
    forall k ensures ws[n].db.Head(k) != Some(id) && ws[n].db.Lease(k) != Some(id) {
      assert Pointed(ws[n].db, k);
    }
  }

  // ---- Termination

  ghost function Budgets(cfg: Config, db: Db): map<Uuid, int> {
    map id | id in db.rows && db.rows[id].Live() :: cfg.maxAttempts - db.rows[id].attempts + 1
  }

  // What is left to spend on the rows still to be delivered.
  ghost function Budget(cfg: Config, db: Db): int {
    Sum(Budgets(cfg, db))
  }

  lemma BudgetsPositive(cfg: Config, w: World)
    requires Sound(cfg, w)
    ensures forall id :: id in Budgets(cfg, w.db) ==> Budgets(cfg, w.db)[id] >= 1
    ensures Budget(cfg, w.db) >= 0
  {
    SumNonNegative(Budgets(cfg, w.db));
  }

  // The live rows a step charges: every head it claims, a live row it acks, a tail it drops.
  ghost function Charged(db: Db, st: Step): set<Uuid> {
    match st
    case Claim(now, batch) => set id | id in db.rows && db.rows[id].Key() in batch && db.Head(db.rows[id].Key()) == Some(id)
    case Ack(now, id, device, segment, next) => if AckHits(db, id, device, segment) && db.rows[id].Live() then {id} else {}
    case Drop(ticket) => set id | id in db.rows && InTail(db.rows[id], ticket.key, ticket.createdAt)
    case _ => {}
  }

  lemma {:induction false} OneChargePerChosenHead(db: Db, batch: seq<SegKey>, now: Time)
    requires forall k :: k in batch ==> HasHead(db, k) && HeadOwned(db, k)
    requires Distinct(batch)
    ensures |Charged(db, Claim(now, batch))| == |batch|
  {
    if batch == [] {
      assert Charged(db, Claim(now, batch)) == {};
    } else {
      var k, front := batch[|batch| - 1], batch[..|batch| - 1];
      assert forall x :: x in batch <==> x in front || x == k;
      OneChargePerChosenHead(db, front, now);
      assert k in batch;
      var e := db.segs[k].head.value;
      assert db.rows[e].Key() == k;
      assert Charged(db, Claim(now, batch)) == Charged(db, Claim(now, front)) + {e};
    }
  }

  lemma MoveCosts(cfg: Config, st: Step, born: Row, r: Row, r': Row)
    requires cfg.Positive() && Moves(cfg, st, r, r') && RetryOk(cfg, born, r) && r'.Live()
    ensures r.Live() && r.attempts <= r'.attempts && (r' != r ==> r.attempts < r'.attempts)
  {
  }

  lemma ChargedRowsSpend(cfg: Config, st: Step, born: map<Uuid, Row>, db: Db, db': Db, charged: set<Uuid>)
    requires cfg.Positive() && TableMoves(cfg, st, db.rows, db'.rows) && db'.rows.Keys <= db.rows.Keys
    requires forall id :: id in db.rows ==> id in born && RetryOk(cfg, born[id], db.rows[id])
    requires charged <= Budgets(cfg, db).Keys
    requires forall id :: id in charged && id in db'.rows ==> db'.rows[id] != db.rows[id]
    ensures Budget(cfg, db') + |charged| <= Budget(cfg, db)
  {
    var before, after := Budgets(cfg, db), Budgets(cfg, db');
    assert forall id :: id in before ==> before[id] >= 1;
    hide RetryOk, Moves;
    forall id | id in after
      ensures id in before && after[id] <= before[id] && (id in charged ==> after[id] < before[id])
    {
      MoveCosts(cfg, st, born[id], db.rows[id], db'.rows[id]);
    }
    SumFalls(before, after, charged);
  }

  lemma ChargedRowChanges(cfg: Config, w: World, st: Step, id: Uuid)
    requires cfg.Positive() && Enabled(cfg, w, st) && Sound(cfg, w) && id in Charged(w.db, st)
    ensures id in w.db.rows && w.db.rows[id].Live()
    ensures id in Next(cfg, w, st).db.rows ==> Next(cfg, w, st).db.rows[id] != w.db.rows[id]
  {
    if st.Claim? {
      ChosenHaveHeads(cfg, w, st);
      assert Pointed(w.db, w.db.rows[id].Key());
    }
  }

  lemma OnlyAppendsAdd(cfg: Config, w: World, st: Step)
    requires cfg.Positive() && Enabled(cfg, w, st) && !st.Append?
    ensures Next(cfg, w, st).db.rows.Keys <= w.db.rows.Keys
  {
  }

  // A charged row gives up at least one unit of the budget, whatever the step does to it.
  lemma StepSpends(cfg: Config, w: World, st: Step)
    requires cfg.Positive() && Enabled(cfg, w, st) && Sound(cfg, w) && !st.Append?
    ensures Budget(cfg, Next(cfg, w, st).db) + |Charged(w.db, st)| <= Budget(cfg, w.db)
  {
    assert RowsOk(cfg, w);
    hide Enabled, Next, Sound, Charged, TableMoves, Budget;
    StepMovesTable(cfg, w, st);
    OnlyAppendsAdd(cfg, w, st);
    forall id | id in Charged(w.db, st)
      ensures id in Budgets(cfg, w.db)
      ensures (id in Next(cfg, w, st).db.rows ==> Next(cfg, w, st).db.rows[id] != w.db.rows[id])
    {
      ChargedRowChanges(cfg, w, st, id);
    }
    ChargedRowsSpend(cfg, st, w.born, w.db, Next(cfg, w, st).db, Charged(w.db, st));
  }

  lemma StepPaysForClaims(cfg: Config, w: World, st: Step)
    requires cfg.Positive() && Enabled(cfg, w, st) && Sound(cfg, w) && !st.Append?
    ensures |Next(cfg, w, st).log| + Budget(cfg, Next(cfg, w, st).db) <= |w.log| + Budget(cfg, w.db)
  {
    hide Enabled, Next, Sound, Charged, Budget, ClaimEvents;
    StepSpends(cfg, w, st);
    StepGrowsLog(cfg, w, st);
    if st.Claim? {
      ChosenAreDue(cfg, w, st.now, st.batch);
      ClaimEventsFrom(w.db, st.batch, st.now, cfg);
      OneChargePerChosenHead(w.db, st.batch, st.now);
    }
  }

  // Without further appends, the deliveries still to come are bounded by the budget, which each uses up.
  lemma {:induction false} DeliveriesAreBounded(cfg: Config, steps: seq<Step>, ws: seq<World>, i: nat, j: nat)
    requires cfg.Positive() && Run(cfg, steps, ws) && i <= j < |ws|
    requires forall n :: i <= n < j ==> !steps[n].Append?
    ensures |ws[j].log| - |ws[i].log| + Budget(cfg, ws[j].db) <= Budget(cfg, ws[i].db)
    ensures |ws[j].log| - |ws[i].log| <= Budget(cfg, ws[i].db)
  {
    hide *;
    RunLength(cfg, steps, ws);
    RunIsSound(cfg, steps, ws, j);
    BudgetsPositive(cfg, ws[j]);
    if i < j {
      DeliveriesAreBounded(cfg, steps, ws, i, j - 1);
      RunStep(cfg, steps, ws, j - 1);
      StepPaysForClaims(cfg, ws[j - 1], steps[j - 1]);
    }
  }
}
