/**
 Runs of the outbox: any interleaving of appends, claims, acks, janitor scans, the drops
 those scans lead to, and purges. Every step carries the choices the database was free to
 make, and its own clock reading; readings of different workers may be out of order.
 */
module OutboxRuns {
  import opened OutboxTypes
  import opened OutboxSteps
  import opened OutboxInvariant
  import opened Selection
  import opened Wrappers

  // What a janitor scan remembers of an expired head until it drops the segment.
  datatype Ticket = Ticket(key: SegKey, createdAt: Time)

  datatype Step =
    | Append(ev: DomainEvent, targets: set<DeviceId>)
    | Claim(now: Time, batch: seq<SegKey>)
    | Ack(now: Time, id: Uuid, device: DeviceId, segment: SegmentId, next: Option<Uuid>)
    | Scan(now: Time, batch: seq<SegKey>)
    | Drop(ticket: Ticket)
    | Purge(now: Time, retention: int, status: Status, limit: nat, victims: seq<Uuid>)

  /**
   The tables, and what only an observer sees: the latest clock reading of any ack, every row as it was
   inserted, every claim in order, per segment the stamp last appended, and the tickets scans
   have handed out.
   */
  datatype World = World(
    db: Db,
    clock: Time,
    born: map<Uuid, Row>,
    log: seq<OutboxEvent>,
    newest: map<SegKey, Time>,
    tickets: set<Ticket>)

  // A claim may take any of the due heads, since it skips the segments that others have locked.
  ghost predicate Enabled(cfg: Config, w: World, st: Step)
    requires cfg.Positive()
  {
    match st
    case Append(ev, targets) =>
      forall d :: d in targets ==>
        && Derived(ev.id, d) !in w.born
        && (SegKey(d, SegmentOf(ev)) in w.newest ==> w.newest[SegKey(d, SegmentOf(ev))] <= ev.createdAt)
    case Claim(now, batch) =>
      Distinct(batch) && Elems(batch) <= DueHeads(w.db, now)
    case Ack(now, id, device, segment, next) =>
      id in w.db.rows ==> MayFollow(w.db, w.db.rows[id].Key(), now, id, next)
    case Scan(now, batch) =>
      ExpiredHeads(w.db, now) <= HeadStamps(w.db).Keys && IsSelection(ExpiredHeads(w.db, now), HeadStamps(w.db), cfg.batchSize, batch)
    case Drop(ticket) =>
      ticket in w.tickets
    case Purge(now, retention, status, limit, victims) =>
      && (status.Acked? || status.Dropped?)
      && IsSelection(Purgeable(w.db, status, now - retention), RowStamps(w.db), limit, victims)
  }

  function Issued(db: Db, batch: seq<SegKey>): set<Ticket>
    requires forall k :: k in batch ==> HasHead(db, k)
  {
    set k | k in batch :: Ticket(k, HeadRow(db, k).createdAt)
  }

  lemma ChosenHaveHeads(cfg: Config, w: World, st: Step)
    requires cfg.Positive() && Enabled(cfg, w, st) && (st.Claim? || st.Scan?)
    ensures forall k :: k in st.batch ==> HasHead(w.db, k)
  {
    forall k | k in st.batch ensures HasHead(w.db, k) {
      assert k in Elems(st.batch);
    }
  }

  function Stamped(ev: DomainEvent, targets: set<DeviceId>): map<SegKey, Time> {
    map d | d in targets :: SegKey(d, SegmentOf(ev)) := ev.createdAt
  }

  ghost function Next(cfg: Config, w: World, st: Step): World
    requires cfg.Positive() && Enabled(cfg, w, st)
  {
    match st
    case Append(ev, targets) =>
      w.(db := AppendDb(w.db, ev, targets),
         born := w.born + Inserted(ev, targets),
         newest := w.newest + Stamped(ev, targets))
    case Claim(now, batch) =>
      ChosenHaveHeads(cfg, w, st);
      w.(db := ClaimDb(w.db, batch, now, cfg),
         log := w.log + ClaimEvents(w.db, batch, now, cfg))
    case Ack(now, id, device, segment, next) =>
      w.(db := AckDb(w.db, now, id, device, segment, next), clock := if w.clock <= now then now else w.clock)
    case Scan(now, batch) =>
      ChosenHaveHeads(cfg, w, st);
      w.(tickets := w.tickets + Issued(w.db, batch))
    case Drop(ticket) =>
      w.(db := DropDb(w.db, ticket.key, ticket.createdAt))
    case Purge(now, retention, status, limit, victims) =>
      w.(db := DeleteDb(w.db, victims))
  }

  ghost predicate Initial(w: World) {
    w.db == Db(map[], map[]) && w.born == map[] && w.log == [] && w.newest == map[] && w.tickets == {}
  }

  ghost predicate StepAt(cfg: Config, steps: seq<Step>, ws: seq<World>, i: nat)
    requires cfg.Positive() && i < |steps| && |ws| == |steps| + 1
  {
    Enabled(cfg, ws[i], steps[i]) && ws[i + 1] == Next(cfg, ws[i], steps[i])
  }

  // ws is a run: it starts empty and every two neighbours are one enabled step apart.
  ghost predicate Run(cfg: Config, steps: seq<Step>, ws: seq<World>)
    requires cfg.Positive()
  {
    && |ws| == |steps| + 1
    && Initial(ws[0])
    && forall i :: 0 <= i < |steps| ==> StepAt(cfg, steps, ws, i)
  }

  // ---- The invariant

  ghost predicate SameRow(a: Row, b: Row) {
    a.Key() == b.Key() && a.createdAt == b.createdAt && a.expiresAt == b.expiresAt
  }

  // Attempts never exceed the limit, and n attempts take at least (n - 1) timeouts.
  ghost predicate RetryOk(cfg: Config, born: Row, r: Row) {
    && r.attempts <= cfg.maxAttempts
    && (r.status.Pending? ==> r.attempts == 0)
    && (r.status.InFlight? ==> r.attempts > 0)
    && (r.status.Acked? <==> r.ackedAt.Some?)
    && if r.attempts == 0 then r.lastSentAt.None? && r.inflightUntil.None? && r.sendAfter == born.sendAfter
       else
         && r.lastSentAt.Some? && r.inflightUntil == Some(r.sendAfter)
         && r.sendAfter == r.lastSentAt.value + cfg.ackTimeout
         && born.sendAfter + (r.attempts - 1) * cfg.ackTimeout <= r.lastSentAt.value < r.expiresAt
  }

  ghost predicate RowsOk(cfg: Config, w: World) {
    forall id :: id in w.db.rows ==>
      id in w.born && SameRow(w.born[id], w.db.rows[id]) && RetryOk(cfg, w.born[id], w.db.rows[id])
  }

  ghost predicate BornOk(w: World) {
    && forall id :: id in w.born ==> w.born[id].Key() in w.newest && w.born[id].createdAt <= w.newest[w.born[id].Key()]
  }

  ghost predicate Reached(newest: map<SegKey, Time>, k: SegKey, stamp: Time) {
    k in newest && stamp <= newest[k]
  }

  // A ticket's stamp has been appended, and of the live rows older than it all have expired.
  ghost predicate TicketsOk(w: World) {
    forall t :: t in w.tickets ==> Reached(w.newest, t.key, t.createdAt) && ExpiredBefore(w.db, t.key, t.createdAt, w.clock)
  }

  ghost predicate LogStamped(w: World) {
    forall i :: 0 <= i < |w.log| ==> Reached(w.newest, w.log[i].key, w.log[i].createdAt)
  }

  // What holds of every run, in whatever order acks read their clocks.
  ghost predicate Sound(cfg: Config, w: World) {
    Inv(w.db, w.clock) && RowsOk(cfg, w) && BornOk(w) && TicketsOk(w) && LogStamped(w)
  }

  lemma SoundParts(cfg: Config, w: World, k: SegKey)
    requires Sound(cfg, w)
    ensures Inv(w.db, w.clock) && Pointed(w.db, k) && HeadCurrent(w.db, k, w.clock)
    ensures RowsOk(cfg, w) && BornOk(w) && TicketsOk(w) && LogStamped(w)
  {
  }

  ghost predicate Fifo(log: seq<OutboxEvent>) {
    forall i, j :: 0 <= i < j < |log| && log[i].key == log[j].key ==> log[i].createdAt <= log[j].createdAt
  }

  // ---- Claims

  lemma {:induction false} ClaimEventsFrom(db: Db, batch: seq<SegKey>, now: Time, cfg: Config)
    requires forall k :: k in batch ==> HasHead(db, k) && HeadOwned(db, k)
    requires Distinct(batch)
    ensures |ClaimEvents(db, batch, now, cfg)| <= |batch|
    ensures forall e :: e in ClaimEvents(db, batch, now, cfg) <==>
              e.key in batch && !Spent(HeadRow(db, e.key), now, cfg.maxAttempts) && e == LeaseEvent(db, e.key, now, cfg)
    ensures var es := ClaimEvents(db, batch, now, cfg);
            forall i, j :: 0 <= i < j < |es| ==> es[i].key != es[j].key
  {
    if batch != [] {
      var k, front := batch[|batch| - 1], batch[..|batch| - 1];
      assert forall x :: x in batch <==> x in front || x == k;
      ClaimEventsFrom(db, front, now, cfg);
      assert k in batch && LeaseEvent(db, k, now, cfg).key == k;
    }
  }

  // What is known of the segments a claim chose.
  lemma ChosenAreDue(cfg: Config, w: World, now: Time, batch: seq<SegKey>)
    requires cfg.Positive() && Enabled(cfg, w, Claim(now, batch)) && Sound(cfg, w)
    ensures Distinct(batch)
    ensures forall k :: k in batch ==> HasHead(w.db, k) && HeadOwned(w.db, k) && HeadDue(w.db, k, now)
  {
    forall k | k in batch ensures HasHead(w.db, k) && HeadOwned(w.db, k) && HeadDue(w.db, k, now) {
      assert k in Elems(batch) && Pointed(w.db, k);
    }
  }

  lemma NextAfterClaim(cfg: Config, w: World, st: Step)
    requires cfg.Positive() && st.Claim? && Enabled(cfg, w, st)
    ensures forall k :: k in st.batch ==> HasHead(w.db, k)
    ensures Next(cfg, w, st) == w.(db := ClaimDb(w.db, st.batch, st.now, cfg),
                                   log := w.log + ClaimEvents(w.db, st.batch, st.now, cfg))
  {
    ChosenHaveHeads(cfg, w, st);
  }

  lemma NextAfterScan(cfg: Config, w: World, st: Step)
    requires cfg.Positive() && st.Scan? && Enabled(cfg, w, st)
    ensures forall k :: k in st.batch ==> HasHead(w.db, k)
    ensures Next(cfg, w, st) == w.(tickets := w.tickets + Issued(w.db, st.batch))
  {
    ChosenHaveHeads(cfg, w, st);
  }

  // ---- How heads move

  ghost predicate NotPast(db: Db, k: SegKey, stamp: Time) {
    db.Head(k).Some? && db.Head(k).value in db.rows ==> stamp <= db.rows[db.Head(k).value].createdAt
  }

  // An ack of the head of k, by an older reading than an ack before it, finds a row older than the
  // stamp alive again that had expired by then.
  ghost predicate RevivesBefore(w: World, st: Step, k: SegKey, stamp: Time) {
    && st.Ack? && AckHits(w.db, st.id, st.device, st.segment) && w.db.Head(k) == Some(st.id)
    && exists x :: w.db.LiveIn(k, x) && w.db.rows[x].createdAt < stamp && st.now < w.db.rows[x].expiresAt <= w.clock
  }

  // The head's stamp, once at or past a stamp, stays there in every step but such an ack.
  lemma HeadStaysExactly(cfg: Config, w: World, st: Step, k: SegKey, stamp: Time)
    requires cfg.Positive() && Enabled(cfg, w, st) && Sound(cfg, w)
    requires NotPast(w.db, k, stamp) && Reached(w.newest, k, stamp)
    ensures NotPast(Next(cfg, w, st).db, k, stamp) <==> !RevivesBefore(w, st, k, stamp)
  {
    SoundParts(cfg, w, k);
    assert w.db.rows.Keys <= w.born.Keys;
    hide Inv, Sound, RowsOk, BornOk, TicketsOk, LogStamped;
    match st
    case Append(ev, targets) =>
      AppendKeepsStamp(cfg, w, ev, targets, k, stamp);
    case Claim(now, batch) =>
      ChosenHaveHeads(cfg, w, st);
      ClaimKeepsStamp(w.db, batch, now, cfg, k, stamp);
    case Ack(now, id, device, segment, next) =>
      AckKeepsStampExactly(cfg, w, st, k, stamp);
    case Scan(now, batch) =>
      ChosenHaveHeads(cfg, w, st);
    case Drop(ticket) =>
    case Purge(now, retention, status, limit, victims) =>
  }

  lemma ClaimKeepsStamp(db: Db, batch: seq<SegKey>, now: Time, cfg: Config, k: SegKey, stamp: Time)
    requires NotPast(db, k, stamp) && Pointed(db, k) && forall j :: j in batch ==> HasHead(db, j)
    ensures NotPast(ClaimDb(db, batch, now, cfg), k, stamp)
  {
  }

  lemma AppendKeepsStamp(cfg: Config, w: World, ev: DomainEvent, targets: set<DeviceId>, k: SegKey, stamp: Time)
    requires cfg.Positive() && Enabled(cfg, w, Append(ev, targets)) && Reached(w.newest, k, stamp)
    requires Pointed(w.db, k) && NotPast(w.db, k, stamp) && w.db.rows.Keys <= w.born.Keys
    ensures NotPast(AppendDb(w.db, ev, targets), k, stamp)
  {
  }

  lemma AckKeepsStampExactly(cfg: Config, w: World, st: Step, k: SegKey, stamp: Time)
    requires cfg.Positive() && st.Ack? && Enabled(cfg, w, st)
    requires Pointed(w.db, k) && HeadCurrent(w.db, k, w.clock) && NotPast(w.db, k, stamp)
    ensures NotPast(AckDb(w.db, st.now, st.id, st.device, st.segment, st.next), k, stamp) <==> !RevivesBefore(w, st, k, stamp)
  {
    var Ack(now, id, device, segment, next) := st;
    AckRows(w.db, now, id, device, segment, next);
    AckPointers(w.db, now, id, device, segment, next, k);
    hide AckDb, AckHits;
    if AckHits(w.db, id, device, segment) && w.db.Head(k) == Some(id) {
      assert next.Some? ==> next.value in Successors(w.db, k, now, id);
      if x :| w.db.LiveIn(k, x) && w.db.rows[x].createdAt < stamp && now < w.db.rows[x].expiresAt <= w.clock {
        assert x in Successors(w.db, k, now, id);
      }
    }
  }

  lemma StampsOnlyRise(cfg: Config, w: World, st: Step, k: SegKey, stamp: Time)
    requires cfg.Positive() && Enabled(cfg, w, st) && Reached(w.newest, k, stamp)
    ensures Reached(Next(cfg, w, st).newest, k, stamp)
  {
  }

  lemma InsertedIsStamped(ev: DomainEvent, targets: set<DeviceId>, d: DeviceId)
    requires d in targets
    ensures Derived(ev.id, d) in Inserted(ev, targets) && Inserted(ev, targets)[Derived(ev.id, d)] == FreshRow(ev, d)
    ensures SegKey(d, SegmentOf(ev)) in Stamped(ev, targets)
    ensures Stamped(ev, targets)[SegKey(d, SegmentOf(ev))] == ev.createdAt
  {
  }

  lemma StepKeepsBorn(cfg: Config, w: World, st: Step)
    requires cfg.Positive() && Enabled(cfg, w, st) && BornOk(w)
    ensures BornOk(Next(cfg, w, st))
  {
    if st.Append? {
      var w' := Next(cfg, w, st);
      forall id | id in w'.born
        ensures w'.born[id].Key() in w'.newest && w'.born[id].createdAt <= w'.newest[w'.born[id].Key()]
      {
        if id in Inserted(st.ev, st.targets) {
          InsertedIsStamped(st.ev, st.targets, id.device);
        } else {
          assert id in w.born;
          var k := w.born[id].Key();
          if k in Stamped(st.ev, st.targets) {
            InsertedIsStamped(st.ev, st.targets, k.device);
          }
        }
      }
    }
  }

  // A row that may be leased at now: it has time and attempts left, and is pending or overdue.
  predicate Ready(r: Row, now: Time, maxAttempts: int) {
    && !Spent(r, now, maxAttempts)
    && ((r.status.Pending? && r.sendAfter <= now)
        || (r.status.InFlight? && r.inflightUntil.Some? && r.inflightUntil.value <= now))
  }

  // All a step can do to a stored row.
  predicate Moves(cfg: Config, st: Step, r: Row, r': Row) {
    || r' == r
    || (st.Claim? && Ready(r, st.now, cfg.maxAttempts) && r' == Leased(r, st.now, cfg.ackTimeout))
    || ((st.Claim? || st.Drop?) && r.Live() && r' == r.(status := Dropped))
    || (st.Ack? && !r.status.Acked? && r' == r.(status := Acked, ackedAt := Some(st.now)))
  }

  ghost predicate TableMoves(cfg: Config, st: Step, rows: map<Uuid, Row>, rows': map<Uuid, Row>) {
    forall id :: id in rows ==> if id in rows' then Moves(cfg, st, rows[id], rows'[id]) else st.Purge? && id in st.victims
  }

  lemma StepMovesTable(cfg: Config, w: World, st: Step)
    requires cfg.Positive() && Enabled(cfg, w, st)
    ensures TableMoves(cfg, st, w.db.rows, Next(cfg, w, st).db.rows)
  {
    var rows' := Next(cfg, w, st).db.rows;
    forall id | id in w.db.rows
      ensures if id in rows' then Moves(cfg, st, w.db.rows[id], rows'[id]) else st.Purge? && id in st.victims
    {
      match st
      case Append(ev, targets) =>
      case Claim(now, batch) =>
        ClaimMovesRow(cfg, w, now, batch, id);
      case Ack(now, x, device, segment, next) =>
      case Scan(now, batch) =>
      case Drop(ticket) =>
      case Purge(now, retention, status, limit, victims) =>
    }
  }

  lemma ClaimMovesRow(cfg: Config, w: World, now: Time, batch: seq<SegKey>, id: Uuid)
    requires cfg.Positive() && Enabled(cfg, w, Claim(now, batch)) && id in w.db.rows
    ensures forall k :: k in batch ==> HasHead(w.db, k)
    ensures Moves(cfg, Claim(now, batch), w.db.rows[id], ClaimRow(w.db, batch, now, cfg, id))
  {
    ChosenHaveHeads(cfg, w, Claim(now, batch));
    var k := w.db.rows[id].Key();
    if k in batch {
      assert k in Elems(batch) && HeadDue(w.db, k, now);
    }
  }

  // Only an append brings rows in, and then the ones it inserted.
  lemma NewRowsAreInserted(cfg: Config, w: World, st: Step, id: Uuid)
    requires cfg.Positive() && Enabled(cfg, w, st) && id in Next(cfg, w, st).db.rows && id !in w.db.rows
    ensures st.Append? && id in Inserted(st.ev, st.targets)
    ensures Next(cfg, w, st).db.rows[id] == Inserted(st.ev, st.targets)[id]
  {
  }

  lemma MoveKeepsRetry(cfg: Config, st: Step, born: Row, r: Row, r': Row)
    requires cfg.Positive() && Moves(cfg, st, r, r') && SameRow(born, r) && RetryOk(cfg, born, r)
    ensures SameRow(born, r') && RetryOk(cfg, born, r')
  {
  }

  lemma StepKeepsRows(cfg: Config, w: World, st: Step)
    requires cfg.Positive() && Enabled(cfg, w, st) && RowsOk(cfg, w)
    ensures RowsOk(cfg, Next(cfg, w, st))
  {
    var w' := Next(cfg, w, st);
    StepMovesTable(cfg, w, st);
    forall id | id in w'.db.rows
      ensures id in w'.born && SameRow(w'.born[id], w'.db.rows[id]) && RetryOk(cfg, w'.born[id], w'.db.rows[id])
    {
      if id in w.db.rows {
        BornStays(cfg, w, st, id);
        MoveKeepsRetry(cfg, st, w.born[id], w.db.rows[id], w'.db.rows[id]);
      } else {
        NewRowsAreInserted(cfg, w, st, id);
      }
    }
  }

  lemma BornStays(cfg: Config, w: World, st: Step, id: Uuid)
    requires cfg.Positive() && Enabled(cfg, w, st) && id in w.born
    ensures id in Next(cfg, w, st).born && Next(cfg, w, st).born[id] == w.born[id]
  {
  }

  lemma StepKeepsInv(cfg: Config, w: World, st: Step)
    requires cfg.Positive() && Enabled(cfg, w, st) && Sound(cfg, w)
    ensures Inv(Next(cfg, w, st).db, Next(cfg, w, st).clock)
  {
    var w' := Next(cfg, w, st);
    TimeKeepsInv(w.db, w.clock, w'.clock);
    hide Inv;
    match st
    case Append(ev, targets) =>
      AppendKeepsInv(w.db, ev, targets, w'.clock);
    case Claim(now, batch) =>
      ChosenHaveHeads(cfg, w, st);
      ClaimKeepsInv(w.db, batch, now, cfg, w'.clock);
    case Ack(now, id, device, segment, next) =>
      AckKeepsInv(w.db, now, id, device, segment, next, w'.clock);
    case Scan(now, batch) =>
      ChosenHaveHeads(cfg, w, st);
    case Drop(ticket) =>
      DropKeepsInv(w.db, ticket.key, ticket.createdAt, w'.clock);
    case Purge(now, retention, status, limit, victims) =>
      InvPoints(w.db, w'.clock);
      DeleteKeepsInv(w.db, victims, w'.clock);
  }

  lemma InvPoints(db: Db, clock: Time)
    requires Inv(db, clock)
    ensures AllPointed(db)
  {
  }

  // A live row was live before, with the stamps it has, or has just been inserted.
  lemma LiveBefore(cfg: Config, w: World, st: Step, k: SegKey, id: Uuid)
    requires cfg.Positive() && Enabled(cfg, w, st) && RowsOk(cfg, w) && Next(cfg, w, st).db.LiveIn(k, id)
    ensures var r := Next(cfg, w, st).db.rows[id];
            || (w.db.LiveIn(k, id) && w.db.rows[id].createdAt == r.createdAt && w.db.rows[id].expiresAt == r.expiresAt)
            || (k in w.newest ==> w.newest[k] <= r.createdAt)
  {
    StepMovesTable(cfg, w, st);
    if id in w.db.rows {
      hide Next, Enabled;
    } else {
      NewRowsAreInserted(cfg, w, st, id);
    }
  }

  lemma OldTicketsLast(cfg: Config, w: World, st: Step, t: Ticket)
    requires cfg.Positive() && Enabled(cfg, w, st) && RowsOk(cfg, w)
    requires Reached(w.newest, t.key, t.createdAt) && ExpiredBefore(w.db, t.key, t.createdAt, w.clock)
    ensures var w' := Next(cfg, w, st); Reached(w'.newest, t.key, t.createdAt) && ExpiredBefore(w'.db, t.key, t.createdAt, w'.clock)
  {
    var w' := Next(cfg, w, st);
    StampsOnlyRise(cfg, w, st, t.key, t.createdAt);
    assert w.clock <= w'.clock;
    hide Next, Enabled;
    forall id | w'.db.LiveIn(t.key, id) && w'.db.rows[id].createdAt < t.createdAt ensures w'.db.rows[id].expiresAt <= w'.clock {
      LiveBefore(cfg, w, st, t.key, id);
    }
  }

  lemma HeadsAreReached(cfg: Config, w: World, k: SegKey)
    requires Sound(cfg, w) && HasHead(w.db, k)
    ensures Reached(w.newest, k, HeadRow(w.db, k).createdAt)
    ensures ExpiredBefore(w.db, k, HeadRow(w.db, k).createdAt, w.clock)
  {
    SoundParts(cfg, w, k);
    assert w.db.segs[k].head.value in w.born;
  }

  lemma StepKeepsTickets(cfg: Config, w: World, st: Step)
    requires cfg.Positive() && Enabled(cfg, w, st) && Sound(cfg, w)
    ensures TicketsOk(Next(cfg, w, st))
  {
    var w' := Next(cfg, w, st);
    SoundParts(cfg, w, SegKey("", ""));
    assert !st.Scan? ==> w'.tickets == w.tickets;
    if st.Scan? {
      NextAfterScan(cfg, w, st);
    }
    hide Next, Enabled, Sound, Inv, RowsOk, HasHead, HeadRow, ExpiredBefore, Reached;
    forall t | t in w'.tickets ensures Reached(w'.newest, t.key, t.createdAt) && ExpiredBefore(w'.db, t.key, t.createdAt, w'.clock) {
      if t in w.tickets {
        OldTicketsLast(cfg, w, st, t);
      } else {
        HeadsAreReached(cfg, w, t.key);
      }
    }
  }

  lemma ClaimedAreReached(cfg: Config, w: World, st: Step)
    requires cfg.Positive() && st.Claim? && Enabled(cfg, w, st) && Sound(cfg, w)
    ensures forall k :: k in st.batch ==> HasHead(w.db, k)
    ensures forall e :: e in ClaimEvents(w.db, st.batch, st.now, cfg) ==>
              e.key in st.batch && e.createdAt == HeadRow(w.db, e.key).createdAt && Reached(w.newest, e.key, e.createdAt)
    ensures Fifo(ClaimEvents(w.db, st.batch, st.now, cfg))
  {
    ChosenAreDue(cfg, w, st.now, st.batch);
    ClaimEventsFrom(w.db, st.batch, st.now, cfg);
    hide Enabled, Sound;
    forall e | e in ClaimEvents(w.db, st.batch, st.now, cfg)
      ensures e.createdAt == HeadRow(w.db, e.key).createdAt && Reached(w.newest, e.key, e.createdAt)
    {
      HeadsAreReached(cfg, w, e.key);
    }
  }

  lemma StepKeepsLogStamped(cfg: Config, w: World, st: Step)
    requires cfg.Positive() && Enabled(cfg, w, st) && Sound(cfg, w)
    ensures LogStamped(Next(cfg, w, st))
  {
    var w' := Next(cfg, w, st);
    StepGrowsLog(cfg, w, st);
    SoundParts(cfg, w, SegKey("", ""));
    if st.Claim? {
      ClaimedAreReached(cfg, w, st);
      NextAfterClaim(cfg, w, st);
    }
    hide Next, Enabled, Sound, Reached, ClaimEvents, HeadRow, HasHead, Fifo;
    forall i | 0 <= i < |w'.log| ensures Reached(w'.newest, w'.log[i].key, w'.log[i].createdAt) {
      if i < |w.log| {
        StampsOnlyRise(cfg, w, st, w.log[i].key, w.log[i].createdAt);
      } else {
        assert w'.log[i] in ClaimEvents(w.db, st.batch, st.now, cfg);
      }
    }
  }

  lemma StepKeepsSound(cfg: Config, w: World, st: Step)
    requires cfg.Positive() && Enabled(cfg, w, st) && Sound(cfg, w)
    ensures Sound(cfg, Next(cfg, w, st))
  {
    StepKeepsInv(cfg, w, st);
    StepKeepsRows(cfg, w, st);
    StepKeepsBorn(cfg, w, st);
    StepKeepsTickets(cfg, w, st);
    StepKeepsLogStamped(cfg, w, st);
  }

  lemma StartIsSound(cfg: Config, w: World)
    requires Initial(w)
    ensures Sound(cfg, w)
  {
  }

  lemma {:induction false} RunIsSound(cfg: Config, steps: seq<Step>, ws: seq<World>, n: nat)
    requires cfg.Positive() && Run(cfg, steps, ws) && n < |ws|
    ensures Sound(cfg, ws[n])
  {
    hide Enabled, Next, Sound;
    if n == 0 {
      StartIsSound(cfg, ws[0]);
    } else {
      RunIsSound(cfg, steps, ws, n - 1);
      assert StepAt(cfg, steps, ws, n - 1);
      StepKeepsSound(cfg, ws[n - 1], steps[n - 1]);
    }
  }

  lemma StepGrowsLog(cfg: Config, w: World, st: Step)
    requires cfg.Positive() && Enabled(cfg, w, st)
    ensures st.Claim? ==> forall k :: k in st.batch ==> HasHead(w.db, k)
    ensures Next(cfg, w, st).log == w.log + if st.Claim? then ClaimEvents(w.db, st.batch, st.now, cfg) else []
  {
    if st.Claim? {
      ChosenHaveHeads(cfg, w, st);
    }
  }

  lemma RunLength(cfg: Config, steps: seq<Step>, ws: seq<World>)
    requires cfg.Positive() && Run(cfg, steps, ws)
    ensures |ws| == |steps| + 1
  {
  }

  // A run, one step at a time.
  lemma RunStep(cfg: Config, steps: seq<Step>, ws: seq<World>, n: nat)
    requires cfg.Positive() && Run(cfg, steps, ws) && n < |steps|
    ensures n + 1 < |ws| && Enabled(cfg, ws[n], steps[n]) && ws[n + 1] == Next(cfg, ws[n], steps[n])
    ensures Sound(cfg, ws[n]) && Sound(cfg, ws[n + 1])
  {
    hide Enabled, Next, Sound;
    assert StepAt(cfg, steps, ws, n);
    RunIsSound(cfg, steps, ws, n);
    RunIsSound(cfg, steps, ws, n + 1);
  }
}
