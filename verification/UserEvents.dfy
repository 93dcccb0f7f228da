/**
 The pull-and-redeliver queue of user events. A pull is two steps, listing and marking, with
 other pulls, acks and expiry in between.
 */
module UserEvents {
  import opened Keys
  import opened OutboxTypes
  import opened Selection
  import opened Wrappers

  datatype UserEvent = UserEvent(user: PublicKey, createdAt: Time, availableAt: Time, expiresAt: Time, deliveredAt: Option<Time>)

  type Table = map<EventId, UserEvent>

  predicate Eligible(r: UserEvent, user: PublicKey, now: Time, cooldown: int) {
    && r.user == user
    && (r.deliveredAt.None? || r.deliveredAt.value <= now - cooldown)
    && r.availableAt <= now
    && r.expiresAt > now
  }

  function PendingFor(rows: Table, user: PublicKey, now: Time, cooldown: int): set<EventId> {
    set id | id in rows && Eligible(rows[id], user, now, cooldown)
  }

  function Stamps(rows: Table): map<EventId, Time> {
    map id | id in rows :: rows[id].createdAt
  }

  // A row that went meanwhile is not brought back.
  function Marked(rows: Table, ids: seq<EventId>, at: Time): Table {
    map id | id in rows :: if id in ids then rows[id].(deliveredAt := Some(at)) else rows[id]
  }

  function AfterAck(rows: Table, user: PublicKey, id: EventId): Table {
    if id in rows && rows[id].user == user then rows - {id} else rows
  }

  function Unexpired(rows: Table, now: Time): Table {
    map id | id in rows && rows[id].expiresAt > now :: rows[id]
  }

  // Events of the user that have become available, have not expired, and were never delivered or
  // a cooldown ago, each once, oldest first; what is left out is left out for want of room and no older.
  ghost predicate ListsAsPromised(rows: Table, user: PublicKey, now: Time, cooldown: int, limit: nat,
      ids: seq<EventId>) {
    && |ids| <= limit
    && (forall id :: id in ids ==>
          && id in rows && rows[id].user == user && rows[id].availableAt <= now < rows[id].expiresAt
          && (rows[id].deliveredAt.Some? ==> rows[id].deliveredAt.value + cooldown <= now))
    && (forall i, j :: 0 <= i < j < |ids| ==> ids[i] != ids[j] && rows[ids[i]].createdAt <= rows[ids[j]].createdAt)
    && forall id :: id in rows && rows[id].user == user && rows[id].availableAt <= now < rows[id].expiresAt
                    && (rows[id].deliveredAt.Some? ==> rows[id].deliveredAt.value + cooldown <= now) && id !in ids ==>
         |ids| == limit && forall x :: x in ids ==> rows[x].createdAt <= rows[id].createdAt
  }

  lemma ListInPlainTerms(rows: Table, user: PublicKey, now: Time, cooldown: int, limit: nat, ids: seq<EventId>)
    requires IsSelection(PendingFor(rows, user, now, cooldown), Stamps(rows), limit, ids)
    ensures ListsAsPromised(rows, user, now, cooldown, limit, ids)
  {
    SelectionInPlainTerms(PendingFor(rows, user, now, cooldown), Stamps(rows), limit, ids);
    hide IsSelection;
  }

  // ---- The repository and the service

  datatype Error = InvalidPublicKey

  class EventStore {
    var rows: Table

    constructor ()
      ensures rows == map[]
    {
      rows := map[];
    }

    // event_id is the primary key: a second insert fails.
    method Append(id: EventId, user: PublicKey, createdAt: Time, availableAt: Time, expiresAt: Time) returns (ok: bool)
      modifies this
      ensures ok == (id !in old(rows))
      ensures rows == if ok then old(rows)[id := UserEvent(user, createdAt, availableAt, expiresAt, None)] else old(rows)
    {
      ok := id !in rows;
      if ok {
        rows := rows[id := UserEvent(user, createdAt, availableAt, expiresAt, None)];
      }
    }

    method ListPending(user: PublicKey, now: Time, cooldown: int, limit: nat) returns (ids: seq<EventId>)
      ensures IsSelection(PendingFor(rows, user, now, cooldown), Stamps(rows), limit, ids)
      ensures ListsAsPromised(rows, user, now, cooldown, limit, ids)
    {
      ids := Select(PendingFor(rows, user, now, cooldown), Stamps(rows), limit);
      ListInPlainTerms(rows, user, now, cooldown, limit, ids);
    }

    method MarkDelivered(ids: seq<EventId>, at: Time)
      modifies this
      ensures rows == Marked(old(rows), ids, at)
      ensures rows.Keys == old(rows).Keys
      ensures forall id :: id in rows ==>
                rows[id] == if id in ids then old(rows)[id].(deliveredAt := Some(at)) else old(rows)[id]
    {
      if |ids| == 0 {
        return;
      }
      rows := map id | id in rows :: if id in ids then rows[id].(deliveredAt := Some(at)) else rows[id];
    }

    method Acknowledge(user: PublicKey, id: EventId)
      modifies this
      ensures rows == AfterAck(old(rows), user, id)
      ensures id in old(rows) && old(rows)[id].user == user ==> rows == old(rows) - {id}
      ensures id in old(rows) && old(rows)[id].user != user ==> rows == old(rows)
    {
      if id in rows && rows[id].user == user {
        rows := rows - {id};
      }
    }

    method DeleteExpired(now: Time) returns (count: nat)
      modifies this
      ensures rows == Unexpired(old(rows), now)
      ensures forall id :: id in rows <==> id in old(rows) && now < old(rows)[id].expiresAt
      ensures forall id :: id in rows ==> rows[id] == old(rows)[id]
      ensures count == |old(rows)| - |rows|
    {
      var gone := set id | id in rows && rows[id].expiresAt <= now;
      assert rows.Keys - gone == Unexpired(rows, now).Keys;
      count := |gone|;
      rows := rows - gone;
    }
  }

  datatype PullConfig = PullConfig(batchSize: int, cooldown: int)
  {
    predicate Positive() {
      batchSize > 0 && cooldown > 0
    }
  }

  // A limit that is missing or too large becomes the batch size.
  function Clamp(limit: int, cfg: PullConfig): (r: nat)
    requires cfg.Positive()
    ensures 0 < r <= cfg.batchSize && (0 < limit <= cfg.batchSize ==> r == limit)
  {
    if limit <= 0 || limit > cfg.batchSize then cfg.batchSize else limit
  }

  // A pull nobody interrupts.
  method PullEvents(store: EventStore, cfg: PullConfig, user: PublicKey, limit: int, now: Time)
      returns (r: Result<seq<EventId>, Error>)
    requires cfg.Positive()
    modifies store
    ensures |user| != KEY_SIZE ==> r == Err(InvalidPublicKey) && store.rows == old(store.rows)
    ensures |user| == KEY_SIZE ==>
              && r.Ok?
              && IsSelection(PendingFor(old(store.rows), user, now, cfg.cooldown), Stamps(old(store.rows)), Clamp(limit, cfg), r.value)
              && store.rows == Marked(old(store.rows), r.value, now)
              && ListsAsPromised(old(store.rows), user, now, cfg.cooldown,
                                 if 0 < limit <= cfg.batchSize then limit else cfg.batchSize, r.value)
    ensures store.rows.Keys == old(store.rows).Keys
    ensures forall id :: id in store.rows ==>
              store.rows[id] == if r.Ok? && id in r.value then old(store.rows)[id].(deliveredAt := Some(now)) else old(store.rows)[id]
    ensures forall id :: id in store.rows && old(store.rows)[id].user != user ==> store.rows[id] == old(store.rows)[id]
  {
    if |user| != KEY_SIZE {
      return Err(InvalidPublicKey);
    }
    var ids := store.ListPending(user, now, cfg.cooldown, Clamp(limit, cfg));
    if |ids| == 0 {
      assert Marked(store.rows, [], now) == store.rows;
      return Ok([]);
    }
    var eventIDs := [];
    for i := 0 to |ids|
      invariant eventIDs == ids[..i]
    {
      eventIDs := eventIDs + [ids[i]];
    }
    store.MarkDelivered(eventIDs, now);
    r := Ok(ids);
  }

  // ---- Repeated pulls at one instant

  lemma MarkingUsesUp(rows: Table, ids: seq<EventId>, user: PublicKey, now: Time, cooldown: int)
    requires cooldown > 0
    ensures PendingFor(Marked(rows, ids, now), user, now, cooldown) == PendingFor(rows, user, now, cooldown) - Elems(ids)
    ensures Stamps(Marked(rows, ids, now)) == Stamps(rows)
  {
  }

  // tables are the rows between uninterrupted pulls of one user at the instant now.
  ghost predicate Pulls(cooldown: int, user: PublicKey, now: Time, limits: seq<nat>, batches: seq<seq<EventId>>,
      tables: seq<Table>)
  {
    && |batches| == |limits| && |tables| == |limits| + 1
    && forall i :: 0 <= i < |limits| ==> PullAt(cooldown, user, now, limits, batches, tables, i)
  }

  ghost predicate PullAt(cooldown: int, user: PublicKey, now: Time, limits: seq<nat>,
      batches: seq<seq<EventId>>, tables: seq<Table>, i: nat)
    requires i < |limits| && |batches| == |limits| && |tables| == |limits| + 1
  {
    && IsSelection(PendingFor(tables[i], user, now, cooldown), Stamps(tables[i]), limits[i], batches[i])
    && tables[i + 1] == Marked(tables[i], batches[i], now)
  }

  lemma {:induction false} PullsAreRounds(cooldown: int, user: PublicKey, now: Time, limits: seq<nat>,
      batches: seq<seq<EventId>>, tables: seq<Table>)
    requires cooldown > 0 && Pulls(cooldown, user, now, limits, batches, tables)
    ensures Rounds(PendingFor(tables[0], user, now, cooldown), Stamps(tables[0]), limits, batches)
    ensures PendingFor(tables[|limits|], user, now, cooldown) == PendingFor(tables[0], user, now, cooldown) - Elems(Flatten(batches))
    decreases |limits|
  {
    if limits != [] {
      assert PullAt(cooldown, user, now, limits, batches, tables, 0);
      MarkingUsesUp(tables[0], batches[0], user, now, cooldown);
      LaterPulls(cooldown, user, now, limits, batches, tables);
      ElemsJoin(batches[0], Flatten(batches[1..]));
      hide IsSelection, PendingFor, Stamps, Marked, Elems;
      PullsAreRounds(cooldown, user, now, limits[1..], batches[1..], tables[1..]);
    }
  }

  lemma LaterPulls(cooldown: int, user: PublicKey, now: Time, limits: seq<nat>, batches: seq<seq<EventId>>,
      tables: seq<Table>)
    requires limits != [] && Pulls(cooldown, user, now, limits, batches, tables)
    ensures Pulls(cooldown, user, now, limits[1..], batches[1..], tables[1..])
  {
    forall i | 0 <= i < |limits| - 1 ensures PullAt(cooldown, user, now, limits[1..], batches[1..], tables[1..], i) {
      assert PullAt(cooldown, user, now, limits, batches, tables, i + 1);
    }
  }

  // Together the pulls return each eligible event at most once, oldest first, and none is left
  // once their limits add up to enough.
  lemma PullsDeliverAllInOrder(cooldown: int, user: PublicKey, now: Time, limits: seq<nat>,
      batches: seq<seq<EventId>>, tables: seq<Table>)
    requires cooldown > 0 && Pulls(cooldown, user, now, limits, batches, tables)
    ensures IsSelection(PendingFor(tables[0], user, now, cooldown), Stamps(tables[0]), Total(limits), Flatten(batches))
    ensures Total(limits) >= |PendingFor(tables[0], user, now, cooldown)| <==> PendingFor(tables[|limits|], user, now, cooldown) == {}
  {
    PullsAreRounds(cooldown, user, now, limits, batches, tables);
    var pool := PendingFor(tables[0], user, now, cooldown);
    RoundsAreOneSelection(pool, Stamps(tables[0]), limits, batches);
    DistinctCount(Flatten(batches));
    assert |pool - Elems(Flatten(batches))| == |pool| - |Flatten(batches)|;
  }

  // ---- Any interleaving of pulls, acks and expiry

  // A listing on its way to being marked.
  datatype Listing = Listing(user: PublicKey, ids: seq<EventId>, now: Time)

  // To whom an event was delivered, and by which reading.
  datatype Delivery = Delivery(user: PublicKey, id: EventId, at: Time)

  // What only an observer sees: rows as they were inserted, sessions ever begun, deliveries in order of their marks.
  datatype Queue = Queue(rows: Table, born: Table, begun: set<nat>, open: map<nat, Listing>, log: seq<Delivery>)

  datatype Act =
    | Insert(id: EventId, row: UserEvent)
    | List(session: nat, user: PublicKey, now: Time, limit: nat, ids: seq<EventId>)
    | Mark(session: nat)
    | AckEvent(user: PublicKey, id: EventId)
    | Expire(now: Time)

  // Every pull is a session of its own; ids are never inserted again, even after their row has gone.
  ghost predicate Allowed(cooldown: int, q: Queue, a: Act) {
    match a
    case Insert(id, row) => id !in q.born && row.deliveredAt.None?
    case List(session, user, now, limit, ids) =>
      session !in q.begun && IsSelection(PendingFor(q.rows, user, now, cooldown), Stamps(q.rows), limit, ids)
    case Mark(session) => session in q.open
    case AckEvent(user, id) => true
    case Expire(now) => true
  }

  function Deliveries(l: Listing): seq<Delivery> {
    seq(|l.ids|, i requires 0 <= i < |l.ids| => Delivery(l.user, l.ids[i], l.now))
  }

  ghost function Acts(q: Queue, a: Act): Queue {
    match a
    case Insert(id, row) => q.(rows := q.rows[id := row], born := q.born[id := row])
    case List(session, user, now, limit, ids) => q.(begun := q.begun + {session}, open := q.open[session := Listing(user, ids, now)])
    case Mark(session) =>
      if session !in q.open then q
      else
        var l := q.open[session];
        q.(rows := Marked(q.rows, l.ids, l.now), open := q.open - {session}, log := q.log + Deliveries(l))
    case AckEvent(user, id) => q.(rows := AfterAck(q.rows, user, id))
    case Expire(now) => q.(rows := Unexpired(q.rows, now))
  }

  // No listed event is in another listing that is still to be marked.
  ghost predicate Serial(q: Queue, a: Act) {
    a.List? ==> forall s, id :: s in q.open && id in a.ids ==> id !in q.open[s].ids
  }

  ghost predicate Spaced(cooldown: int, log: seq<Delivery>) {
    forall i, j :: 0 <= i < j < |log| && log[i].id == log[j].id ==> log[i].at + cooldown <= log[j].at
  }

  ghost predicate Disjoint(open: map<nat, Listing>) {
    && (forall s :: s in open ==> Distinct(open[s].ids))
    && forall s, t, id :: s in open && t in open && s != t && id in open[s].ids ==> id !in open[t].ids
  }

  lemma MarkKeepsSpaced(cooldown: int, q: Queue, l: Listing)
    requires cooldown > 0 && Spaced(cooldown, q.log) && Distinct(l.ids)
    requires forall i :: 0 <= i < |q.log| && q.log[i].id in l.ids ==> q.log[i].at + cooldown <= l.now
    ensures Spaced(cooldown, q.log + Deliveries(l))
  {
  }

  ghost predicate ActAt(cooldown: int, acts: seq<Act>, qs: seq<Queue>, i: nat)
    requires i < |acts| && |qs| == |acts| + 1
  {
    Allowed(cooldown, qs[i], acts[i]) && qs[i + 1] == Acts(qs[i], acts[i])
  }

  ghost predicate QueueRun(cooldown: int, acts: seq<Act>, qs: seq<Queue>) {
    && |qs| == |acts| + 1
    && qs[0] == Queue(map[], map[], {}, map[], [])
    && forall i :: 0 <= i < |acts| ==> ActAt(cooldown, acts, qs, i)
  }

  ghost predicate SerialRun(acts: seq<Act>, qs: seq<Queue>) {
    |qs| == |acts| + 1 && forall i :: 0 <= i < |acts| ==> Serial(qs[i], acts[i])
  }

  // ---- Exactly when deliveries stay apart

  function LastMark(log: seq<Delivery>, id: EventId): Option<Time> {
    if log == [] then None
    else if log[|log| - 1].id == id then Some(log[|log| - 1].at)
    else LastMark(log[..|log| - 1], id)
  }

  ghost predicate IsLatest(log: seq<Delivery>, id: EventId, m: int) {
    0 <= m < |log| && log[m].id == id && forall i :: m < i < |log| ==> log[i].id != id
  }

  lemma {:induction false} LastMarkIsLatest(log: seq<Delivery>, id: EventId)
    ensures LastMark(log, id).None? ==> forall i :: 0 <= i < |log| ==> log[i].id != id
    ensures LastMark(log, id).Some? ==> exists m :: IsLatest(log, id, m) && log[m].at == LastMark(log, id).value
  {
    if log != [] {
      var front := log[..|log| - 1];
      LastMarkIsLatest(front, id);
      if log[|log| - 1].id == id {
        assert IsLatest(log, id, |log| - 1);
      } else if LastMark(front, id).Some? {
        var m :| IsLatest(front, id, m) && front[m].at == LastMark(front, id).value;
        assert IsLatest(log, id, m);
      }
    }
  }

  lemma {:induction false} LastMarkAfter(log: seq<Delivery>, l: Listing, k: nat, id: EventId)
    requires k <= |l.ids|
    ensures LastMark(log + Deliveries(l)[..k], id) == if id in l.ids[..k] then Some(l.now) else LastMark(log, id)
  {
    var all := log + Deliveries(l)[..k];
    if k == 0 {
      assert all == log;
    } else {
      assert all[..|all| - 1] == log + Deliveries(l)[..k - 1];
      assert l.ids[..k] == l.ids[..k - 1] + [l.ids[k - 1]];
      LastMarkAfter(log, l, k - 1, id);
    }
  }

  // The stored stamp is the last delivery, so this is the listing's own test, made again at the mark.
  ghost predicate StillDue(cooldown: int, q: Queue, l: Listing) {
    forall id :: id in l.ids ==> LastMark(q.log, id).None? || LastMark(q.log, id).value <= l.now - cooldown
  }

  ghost predicate RowsTellLastMark(q: Queue) {
    && q.rows.Keys <= q.born.Keys
    && (forall i :: 0 <= i < |q.log| ==> q.log[i].id in q.born)
    && (forall s :: s in q.open ==> Distinct(q.open[s].ids) && Elems(q.open[s].ids) <= q.born.Keys)
    && (forall id :: id in q.rows ==> q.rows[id].deliveredAt == LastMark(q.log, id))
  }

  lemma ActKeepsLastMarks(cooldown: int, q: Queue, a: Act)
    requires RowsTellLastMark(q) && Allowed(cooldown, q, a)
    ensures RowsTellLastMark(Acts(q, a))
  {
    if a.Mark? {
      var l, q' := q.open[a.session], Acts(q, a);
      forall id | id in q'.rows ensures q'.rows[id].deliveredAt == LastMark(q'.log, id) {
        LastMarkAfter(q.log, l, |l.ids|, id);
        assert l.ids[..|l.ids|] == l.ids && Deliveries(l)[..|l.ids|] == Deliveries(l);
      }
      forall i | |q.log| <= i < |q'.log| ensures q'.log[i].id in q'.born {
        assert q'.log[i].id == l.ids[i - |q.log|] && l.ids[i - |q.log|] in Elems(l.ids);
      }
    } else if a.Insert? {
      LastMarkIsLatest(q.log, a.id);
    }
  }

  lemma {:induction false} RunTellsLastMark(cooldown: int, acts: seq<Act>, qs: seq<Queue>, n: nat)
    requires QueueRun(cooldown, acts, qs) && n < |qs|
    ensures RowsTellLastMark(qs[n])
  {
    if n > 0 {
      RunTellsLastMark(cooldown, acts, qs, n - 1);
      assert ActAt(cooldown, acts, qs, n - 1);
      ActKeepsLastMarks(cooldown, qs[n - 1], acts[n - 1]);
    }
  }

  lemma MarkSpacesExactly(cooldown: int, q: Queue, l: Listing)
    requires cooldown > 0 && Distinct(l.ids)
    ensures Spaced(cooldown, q.log + Deliveries(l)) <==> Spaced(cooldown, q.log) && StillDue(cooldown, q, l)
  {
    var log := q.log + Deliveries(l);
    if Spaced(cooldown, log) {
      forall i, j | 0 <= i < j < |q.log| && q.log[i].id == q.log[j].id ensures q.log[i].at + cooldown <= q.log[j].at {
        assert log[i] == q.log[i] && log[j] == q.log[j];
      }
      forall id | id in l.ids ensures LastMark(q.log, id).None? || LastMark(q.log, id).value <= l.now - cooldown {
        LastMarkIsLatest(q.log, id);
        if LastMark(q.log, id).Some? {
          var m :| IsLatest(q.log, id, m) && q.log[m].at == LastMark(q.log, id).value;
          var k :| 0 <= k < |l.ids| && l.ids[k] == id;
          assert log[m] == q.log[m] && log[|q.log| + k] == Delivery(l.user, id, l.now);
        }
      }
    }
    if Spaced(cooldown, q.log) && StillDue(cooldown, q, l) {
      forall i | 0 <= i < |q.log| && q.log[i].id in l.ids ensures q.log[i].at + cooldown <= l.now {
        LastMarkIsLatest(q.log, q.log[i].id);
      }
      MarkKeepsSpaced(cooldown, q, l);
    }
  }

  // Over any run, overlapping pulls included: all deliveries of an event are the cooldown apart
  // exactly when every mark still finds its events due.
  lemma {:induction false} SpacedExactlyWhenStillDue(cooldown: int, acts: seq<Act>, qs: seq<Queue>, n: nat)
    requires cooldown > 0 && QueueRun(cooldown, acts, qs) && n < |qs|
    ensures Spaced(cooldown, qs[n].log) <==>
            forall m :: 0 <= m < n && acts[m].Mark? && acts[m].session in qs[m].open ==>
              StillDue(cooldown, qs[m], qs[m].open[acts[m].session])
  {
    if n > 0 {
      SpacedExactlyWhenStillDue(cooldown, acts, qs, n - 1);
      RunTellsLastMark(cooldown, acts, qs, n - 1);
      var q, a := qs[n - 1], acts[n - 1];
      assert ActAt(cooldown, acts, qs, n - 1);
      assert a.Mark? ==> Distinct(q.open[a.session].ids);
      hide Spaced, StillDue, RowsTellLastMark;
      if a.Mark? {
        MarkSpacesExactly(cooldown, q, q.open[a.session]);
      }
    }
  }

  // ---- In terms of what overlaps

  lemma SessionsOnce(cooldown: int, acts: seq<Act>, qs: seq<Queue>, n: nat)
    requires QueueRun(cooldown, acts, qs) && n < |qs|
    ensures qs[n].open.Keys <= qs[n].begun
  {
    if n > 0 {
      SessionsOnce(cooldown, acts, qs, n - 1);
      assert ActAt(cooldown, acts, qs, n - 1);
    }
  }

  // A listing open at m was made before i, and then was open at i already, or later.
  lemma {:induction false} OpenSince(cooldown: int, acts: seq<Act>, qs: seq<Queue>, i: nat, m: nat, s: nat)
    requires QueueRun(cooldown, acts, qs) && i <= m < |qs| && s in qs[m].open
    ensures s in qs[i].begun ==> s in qs[i].open && qs[i].open[s] == qs[m].open[s]
    ensures s !in qs[i].begun ==>
              exists j :: i <= j < m && acts[j].List? && acts[j].session == s
                && qs[m].open[s] == Listing(acts[j].user, acts[j].ids, acts[j].now)
    decreases m
  {
    SessionsOnce(cooldown, acts, qs, m);
    if i < m {
      assert ActAt(cooldown, acts, qs, m - 1);
      if acts[m - 1].List? && acts[m - 1].session == s {
        BegunLasts(cooldown, acts, qs, i, m - 1);
      } else {
        OpenSince(cooldown, acts, qs, i, m - 1, s);
      }
    }
  }

  lemma {:induction false} BegunLasts(cooldown: int, acts: seq<Act>, qs: seq<Queue>, i: nat, m: nat)
    requires QueueRun(cooldown, acts, qs) && i <= m < |qs|
    ensures qs[i].begun <= qs[m].begun
  {
    if i < m {
      BegunLasts(cooldown, acts, qs, i, m - 1);
      assert ActAt(cooldown, acts, qs, m - 1);
    }
  }

  // What is marked at m, if that step is a mark.
  function MarkedAt(acts: seq<Act>, qs: seq<Queue>, m: nat): Listing
    requires m < |acts| && m < |qs|
  {
    if acts[m].Mark? && acts[m].session in qs[m].open then qs[m].open[acts[m].session] else Listing([], [], 0)
  }

  // While the listing marked at m was open, another one was marked at i that shares an event with
  // it, by a reading less than a cooldown before its own.
  ghost predicate Clash(cooldown: int, acts: seq<Act>, qs: seq<Queue>, i: nat, m: nat)
    requires i < m < |acts| && |acts| < |qs|
  {
    && acts[m].Mark? && acts[m].session in qs[i].open
    && MarkedAt(acts, qs, i).now > MarkedAt(acts, qs, m).now - cooldown
    && exists id :: id in MarkedAt(acts, qs, i).ids && id in MarkedAt(acts, qs, m).ids
  }

  // The last delivery of an event by m was there at j already, or was marked in between.
  lemma {:induction false} LastMarkSince(cooldown: int, acts: seq<Act>, qs: seq<Queue>, j: nat, m: nat, id: EventId)
    requires QueueRun(cooldown, acts, qs) && j <= m < |qs| && LastMark(qs[m].log, id).Some?
    ensures LastMark(qs[m].log, id) == LastMark(qs[j].log, id)
            || exists i :: j <= i < m && id in MarkedAt(acts, qs, i).ids && LastMark(qs[m].log, id) == Some(MarkedAt(acts, qs, i).now)
    decreases m
  {
    if j < m {
      var q, a, l := qs[m - 1], acts[m - 1], MarkedAt(acts, qs, m - 1);
      assert ActAt(cooldown, acts, qs, m - 1);
      if a.Mark? {
        LastMarkAfter(q.log, l, |l.ids|, id);
        assert l.ids[..|l.ids|] == l.ids && Deliveries(l)[..|l.ids|] == Deliveries(l);
      }
      if !(a.Mark? && id in l.ids) {
        LastMarkSince(cooldown, acts, qs, j, m - 1, id);
      }
    }
  }

  // A listed event was due when it was listed, so one that no longer is clashes with a mark since.
  lemma NotDueMeansClash(cooldown: int, acts: seq<Act>, qs: seq<Queue>, m: nat)
    requires cooldown > 0 && QueueRun(cooldown, acts, qs) && m < |acts| && acts[m].Mark?
    requires acts[m].session in qs[m].open && !StillDue(cooldown, qs[m], MarkedAt(acts, qs, m))
    ensures exists i :: 0 <= i < m && Clash(cooldown, acts, qs, i, m)
  {
    var s, l := acts[m].session, MarkedAt(acts, qs, m);
    var id :| id in l.ids && LastMark(qs[m].log, id).Some? && LastMark(qs[m].log, id).value > l.now - cooldown;
    OpenSince(cooldown, acts, qs, 0, m, s);
    var j :| 0 <= j < m && acts[j].List? && acts[j].session == s && l == Listing(acts[j].user, acts[j].ids, acts[j].now);
    ListedWasDue(cooldown, acts, qs, j, id);
    LastMarkSince(cooldown, acts, qs, j, m, id);
    var i :| j <= i < m && id in MarkedAt(acts, qs, i).ids && LastMark(qs[m].log, id) == Some(MarkedAt(acts, qs, i).now);
    assert j < i;
    BegunLasts(cooldown, acts, qs, j + 1, i);
    assert ActAt(cooldown, acts, qs, j);
    OpenSince(cooldown, acts, qs, i, m, s);
    assert Clash(cooldown, acts, qs, i, m);
  }

  lemma ListedWasDue(cooldown: int, acts: seq<Act>, qs: seq<Queue>, j: nat, id: EventId)
    requires QueueRun(cooldown, acts, qs) && j < |acts| && acts[j].List? && id in acts[j].ids
    ensures LastMark(qs[j].log, id).None? || LastMark(qs[j].log, id).value <= acts[j].now - cooldown
  {
    RunTellsLastMark(cooldown, acts, qs, j);
    assert ActAt(cooldown, acts, qs, j) && id in Elems(acts[j].ids);
  }

  lemma DeliveredStays(cooldown: int, acts: seq<Act>, qs: seq<Queue>, i: nat, m: nat)
    requires QueueRun(cooldown, acts, qs) && i <= m < |qs|
    ensures qs[i].log <= qs[m].log
  {
    if i < m {
      DeliveredStays(cooldown, acts, qs, i, m - 1);
      assert ActAt(cooldown, acts, qs, m - 1);
    }
  }

  lemma ClashIsUnspaced(cooldown: int, acts: seq<Act>, qs: seq<Queue>, i: nat, m: nat, n: nat)
    requires cooldown > 0 && QueueRun(cooldown, acts, qs) && i < m < n < |qs| && Clash(cooldown, acts, qs, i, m)
    ensures !Spaced(cooldown, qs[n].log)
  {
    var first, second := MarkedAt(acts, qs, i), MarkedAt(acts, qs, m);
    var id :| id in first.ids && id in second.ids;
    assert ActAt(cooldown, acts, qs, i) && ActAt(cooldown, acts, qs, m);
    DeliveredStays(cooldown, acts, qs, i + 1, m);
    DeliveredStays(cooldown, acts, qs, m + 1, n);
    var a :| 0 <= a < |first.ids| && first.ids[a] == id;
    var b :| 0 <= b < |second.ids| && second.ids[b] == id;
    assert qs[i + 1].log[|qs[i].log| + a] == Delivery(first.user, id, first.now);
    assert qs[m + 1].log[|qs[m].log| + b] == Delivery(second.user, id, second.now);
    assert qs[n].log[|qs[i].log| + a] == Delivery(first.user, id, first.now) && qs[n].log[|qs[m].log| + b] == Delivery(second.user, id, second.now);
  }

  // Over any run, all deliveries of an event are the cooldown apart exactly when no listing is
  // marked after a clashing one that was marked while it was open.
  lemma SpacedExactlyWithoutClash(cooldown: int, acts: seq<Act>, qs: seq<Queue>, n: nat)
    requires cooldown > 0 && QueueRun(cooldown, acts, qs) && n < |qs|
    ensures Spaced(cooldown, qs[n].log) <==> forall i, m :: 0 <= i < m < n ==> !Clash(cooldown, acts, qs, i, m)
  {
    SpacedExactlyWhenStillDue(cooldown, acts, qs, n);
    if Spaced(cooldown, qs[n].log) {
      forall i, m | 0 <= i < m < n ensures !Clash(cooldown, acts, qs, i, m) {
        if Clash(cooldown, acts, qs, i, m) {
          ClashIsUnspaced(cooldown, acts, qs, i, m, n);
        }
      }
    } else {
      var m :| 0 <= m < n && acts[m].Mark? && acts[m].session in qs[m].open
               && !StillDue(cooldown, qs[m], qs[m].open[acts[m].session]);
      NotDueMeansClash(cooldown, acts, qs, m);
    }
  }

  lemma ActKeepsDisjoint(cooldown: int, q: Queue, a: Act)
    requires Disjoint(q.open) && Allowed(cooldown, q, a) && Serial(q, a)
    ensures Disjoint(Acts(q, a).open)
  {
  }

  lemma {:induction false} RunKeepsDisjoint(cooldown: int, acts: seq<Act>, qs: seq<Queue>, n: nat)
    requires QueueRun(cooldown, acts, qs) && SerialRun(acts, qs) && n < |qs|
    ensures Disjoint(qs[n].open)
  {
    if n > 0 {
      RunKeepsDisjoint(cooldown, acts, qs, n - 1);
      assert ActAt(cooldown, acts, qs, n - 1) && Serial(qs[n - 1], acts[n - 1]);
      hide Allowed, Acts, Serial, Disjoint;
      ActKeepsDisjoint(cooldown, qs[n - 1], acts[n - 1]);
    }
  }

  lemma SerialNeverClashes(cooldown: int, acts: seq<Act>, qs: seq<Queue>, i: nat, m: nat)
    requires QueueRun(cooldown, acts, qs) && SerialRun(acts, qs) && i < m < |acts|
    ensures !Clash(cooldown, acts, qs, i, m)
  {
    if Clash(cooldown, acts, qs, i, m) {
      var s := acts[m].session;
      assert ActAt(cooldown, acts, qs, i) && ActAt(cooldown, acts, qs, m);
      SessionsOnce(cooldown, acts, qs, i);
      OpenSince(cooldown, acts, qs, i, m, s);
      OpenSince(cooldown, acts, qs, i + 1, m, s);
      RunKeepsDisjoint(cooldown, acts, qs, i);
    }
  }

  // In particular when no listing takes an event that another has taken and not yet marked.
  lemma DeliveriesAreSpaced(cooldown: int, acts: seq<Act>, qs: seq<Queue>, n: nat, i: nat, j: nat)
    requires cooldown > 0 && QueueRun(cooldown, acts, qs) && SerialRun(acts, qs) && n < |qs|
    requires i < j < |qs[n].log| && qs[n].log[i].id == qs[n].log[j].id
    ensures qs[n].log[i].at + cooldown <= qs[n].log[j].at
  {
    forall a, b | 0 <= a < b < n ensures !Clash(cooldown, acts, qs, a, b) {
      SerialNeverClashes(cooldown, acts, qs, a, b);
    }
    SpacedExactlyWithoutClash(cooldown, acts, qs, n);
  }

  lemma SelectsSeven(rows: Table, user: PublicKey, cooldown: int)
    requires rows == map[7 := UserEvent(user, 0, 0, 100, None)]
    ensures PendingFor(rows, user, 10, cooldown) <= Stamps(rows).Keys
    ensures IsSelection(PendingFor(rows, user, 10, cooldown), Stamps(rows), 5, [7])
  {
    assert PendingFor(rows, user, 10, cooldown) == {7} && Elems([7]) == {7};
  }

  // The same event twice at one instant: two pulls list before either marks.
  lemma OverlappingPullsRepeat(cooldown: int, user: PublicKey) returns (acts: seq<Act>, qs: seq<Queue>)
    requires cooldown > 0
    ensures QueueRun(cooldown, acts, qs) && |acts| == 5 && qs[5].log == [Delivery(user, 7, 10), Delivery(user, 7, 10)]
  {
    var row := UserEvent(user, 0, 0, 100, None);
    acts := [Insert(7, row), List(1, user, 10, 5, [7]), List(2, user, 10, 5, [7]), Mark(1), Mark(2)];
    var q0 := Queue(map[], map[], {}, map[], []);
    var q1 := Acts(q0, acts[0]);
    var q2 := Acts(q1, acts[1]);
    var q3 := Acts(q2, acts[2]);
    var q4 := Acts(q3, acts[3]);
    var q5 := Acts(q4, acts[4]);
    qs := [q0, q1, q2, q3, q4, q5];
    SelectsSeven(q1.rows, user, cooldown);
    hide IsSelection, PendingFor, Stamps;
    forall i | 0 <= i < 5 ensures ActAt(cooldown, acts, qs, i) {
    }
    assert QueueRun(cooldown, acts, qs);
  }

  // ---- To each their own

  // The user had this event inserted for them, and was given it while it was available and unexpired.
  ghost predicate Own(q: Queue, user: PublicKey, id: EventId, at: Time) {
    id in q.born && q.born[id].user == user && q.born[id].availableAt <= at < q.born[id].expiresAt
  }

  ghost predicate AllOwn(q: Queue) {
    && (forall id :: id in q.rows ==> id in q.born && q.rows[id] == q.born[id].(deliveredAt := q.rows[id].deliveredAt))
    && (forall s, i :: s in q.open && 0 <= i < |q.open[s].ids| ==> Own(q, q.open[s].user, q.open[s].ids[i], q.open[s].now))
    && (forall i :: 0 <= i < |q.log| ==> Own(q, q.log[i].user, q.log[i].id, q.log[i].at))
  }

  lemma ListedAreOwn(cooldown: int, q: Queue, a: Act)
    requires AllOwn(q) && Allowed(cooldown, q, a) && a.List?
    ensures forall i :: 0 <= i < |a.ids| ==> Own(q, a.user, a.ids[i], a.now)
  {
    ListInPlainTerms(q.rows, a.user, a.now, cooldown, a.limit, a.ids);
    hide IsSelection, PendingFor, Stamps;
    forall i | 0 <= i < |a.ids| ensures Own(q, a.user, a.ids[i], a.now) {
      assert a.ids[i] in a.ids;
    }
  }

  lemma ListKeepsOwn(cooldown: int, q: Queue, a: Act)
    requires AllOwn(q) && Allowed(cooldown, q, a) && a.List?
    ensures AllOwn(Acts(q, a))
  {
    ListedAreOwn(cooldown, q, a);
    hide Allowed;
  }

  lemma ActKeepsOwn(cooldown: int, q: Queue, a: Act)
    requires AllOwn(q) && Allowed(cooldown, q, a)
    ensures AllOwn(Acts(q, a))
  {
    if a.List? {
      hide AllOwn;
      ListKeepsOwn(cooldown, q, a);
    }
  }

  // Whatever interleaves, nobody is given another user's event, nor one not yet available or expired
  // by the reading of its listing.
  lemma DeliveriesAreOwn(cooldown: int, acts: seq<Act>, qs: seq<Queue>, n: nat)
    requires QueueRun(cooldown, acts, qs) && n < |qs|
    ensures forall i :: 0 <= i < |qs[n].log| ==>
              && qs[n].log[i].id in qs[n].born
              && qs[n].born[qs[n].log[i].id].user == qs[n].log[i].user
              && qs[n].born[qs[n].log[i].id].availableAt <= qs[n].log[i].at < qs[n].born[qs[n].log[i].id].expiresAt
  {
    RunKeepsOwn(cooldown, acts, qs, n);
  }

  lemma {:induction false} RunKeepsOwn(cooldown: int, acts: seq<Act>, qs: seq<Queue>, n: nat)
    requires QueueRun(cooldown, acts, qs) && n < |qs|
    ensures AllOwn(qs[n])
  {
    if n > 0 {
      RunKeepsOwn(cooldown, acts, qs, n - 1);
      assert ActAt(cooldown, acts, qs, n - 1);
      hide AllOwn, Allowed, Acts;
      ActKeepsOwn(cooldown, qs[n - 1], acts[n - 1]);
    }
  }

  // ---- Nothing after an ack or an expiry

  lemma {:induction false} GoneStaysGone(cooldown: int, acts: seq<Act>, qs: seq<Queue>, i: nat, j: nat, id: EventId)
    requires QueueRun(cooldown, acts, qs) && i <= j < |qs| && id in qs[i].born && id !in qs[i].rows
    ensures id in qs[j].born && id !in qs[j].rows
  {
    if i < j {
      GoneStaysGone(cooldown, acts, qs, i, j - 1, id);
      assert ActAt(cooldown, acts, qs, j - 1);
    }
  }

  // No listing takes an event that was acked or has expired.
  lemma NoListingAfterGone(cooldown: int, acts: seq<Act>, qs: seq<Queue>, i: nat, j: nat, id: EventId)
    requires QueueRun(cooldown, acts, qs) && i <= j < |acts| && acts[j].List?
    ensures id in qs[i].born && id !in qs[i].rows ==> id !in acts[j].ids
    ensures id in acts[j].ids ==> id in qs[j].rows && acts[j].now < qs[j].rows[id].expiresAt
  {
    assert ActAt(cooldown, acts, qs, j);
    assert id in acts[j].ids ==> id in Elems(acts[j].ids);
    if id in qs[i].born && id !in qs[i].rows {
      GoneStaysGone(cooldown, acts, qs, i, j, id);
    }
  }

  // So once it has gone, by an ack or by expiry, a mark delivers it exactly when its listing was
  // open by then.
  lemma DeliveredAfterGoneExactly(cooldown: int, acts: seq<Act>, qs: seq<Queue>, g: nat, m: nat, id: EventId)
    requires QueueRun(cooldown, acts, qs) && g <= m < |acts| && acts[m].Mark?
    requires id in qs[g].born && id !in qs[g].rows
    ensures |qs[m].log| <= |qs[m + 1].log|
    ensures (exists u, t :: Delivery(u, id, t) in qs[m + 1].log[|qs[m].log|..])
            <==> acts[m].session in qs[g].open && id in qs[g].open[acts[m].session].ids
  {
    assert ActAt(cooldown, acts, qs, m);
    var s := acts[m].session;
    var l := qs[m].open[s];
    assert qs[m + 1].log[|qs[m].log|..] == Deliveries(l);
    if k :| 0 <= k < |l.ids| && l.ids[k] == id {
      assert Deliveries(l)[k] == Delivery(l.user, id, l.now);
    }
    OpenSince(cooldown, acts, qs, g, m, s);
    SessionsOnce(cooldown, acts, qs, g);
    if s !in qs[g].begun {
      var j :| g <= j < m && acts[j].List? && acts[j].session == s && l == Listing(acts[j].user, acts[j].ids, acts[j].now);
      NoListingAfterGone(cooldown, acts, qs, g, j, id);
    }
  }

  // Listed, then acked by another connection, then marked and delivered.
  lemma DeliveryAfterAck(cooldown: int, user: PublicKey) returns (acts: seq<Act>, qs: seq<Queue>)
    requires cooldown > 0
    ensures QueueRun(cooldown, acts, qs) && |acts| == 4 && acts[2] == AckEvent(user, 7)
    ensures 7 in qs[2].rows && 7 !in qs[3].rows && qs[3].log == [] && qs[4].log == [Delivery(user, 7, 10)]
  {
    var row := UserEvent(user, 0, 0, 100, None);
    acts := [Insert(7, row), List(1, user, 10, 5, [7]), AckEvent(user, 7), Mark(1)];
    var q0 := Queue(map[], map[], {}, map[], []);
    var q1 := Acts(q0, acts[0]);
    var q2 := Acts(q1, acts[1]);
    var q3 := Acts(q2, acts[2]);
    var q4 := Acts(q3, acts[3]);
    qs := [q0, q1, q2, q3, q4];
    SelectsSeven(q1.rows, user, cooldown);
    hide IsSelection, PendingFor, Stamps;
    forall i | 0 <= i < 4 ensures ActAt(cooldown, acts, qs, i) {
    }
  }
}
