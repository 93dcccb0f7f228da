/**
 A segment is a FIFO queue. The queue machine below knows nothing of rows, statuses or cached
 pointers; with distinct stamps in a segment, every step of the tables is one step of it, but for
 acks that hand the segment to a row already expired.
 */
module OutboxQueue {
  import opened OutboxTypes
  import opened OutboxSteps
  import opened OutboxHistory
  import opened OutboxInvariant
  import opened OutboxRuns
  import opened Selection
  import opened Wrappers

  // ---- The queue machine

  datatype Item = Item(id: Uuid, createdAt: Time, expiresAt: Time, attempts: nat)

  function Keep(q: seq<Item>, now: Time): seq<Item> {
    if q == [] then []
    else Keep(q[..|q| - 1], now) + if q[|q| - 1].expiresAt > now then [q[|q| - 1]] else []
  }

  // The front waits to be settled; the others leave when they expire.
  function Age(q: seq<Item>, now: Time): seq<Item> {
    if q == [] then [] else [q[0]] + Keep(q[1..], now)
  }

  function Without(q: seq<Item>, id: Uuid): seq<Item> {
    if q == [] then []
    else Without(q[..|q| - 1], id) + if q[|q| - 1].id != id then [q[|q| - 1]] else []
  }

  function QueueStep(cfg: Config, clock: Time, k: SegKey, q: seq<Item>, st: Step): seq<Item> {
    match st
    case Append(ev, targets) =>
      if k.device in targets && k.segment == SegmentOf(ev) && (q == [] || ev.expiresAt > clock)
      then q + [Item(Derived(ev.id, k.device), ev.createdAt, ev.expiresAt, 0)] else q
    case Claim(now, batch) =>
      if k !in batch || q == [] then q
      else if q[0].expiresAt <= now || q[0].attempts + 1 > cfg.maxAttempts then []
      else [q[0].(attempts := q[0].attempts + 1)] + q[1..]
    case Ack(now, id, device, segment, next) =>
      if device != k.device || (segment != "" && segment != k.segment) then Age(q, now)
      else if q != [] && q[0].id == id then Keep(q[1..], now)
      else Without(Age(q, now), id)
    case Drop(ticket) =>
      if ticket.key == k then [] else q
    case _ => q
  }

  // ---- What the queue is of the tables

  // All of the tables that a segment's queue depends on: its live rows and its cached head.
  datatype View = View(live: map<Uuid, Item>, head: Option<Uuid>)

  function ItemOf(id: Uuid, r: Row): Item {
    Item(id, r.createdAt, r.expiresAt, r.attempts)
  }

  function ViewOf(db: Db, k: SegKey): View {
    View(map id | id in db.rows && db.LiveIn(k, id) :: ItemOf(id, db.rows[id]), db.Head(k))
  }

  ghost predicate Ascending(q: seq<Item>) {
    forall i, j :: 0 <= i < j < |q| ==> q[i].createdAt < q[j].createdAt
  }

  // The queue is, in order of stamps: the head, and every row that can still be delivered.
  ghost predicate Shows(v: View, clock: Time, q: seq<Item>) {
    && Ascending(q)
    && (forall id :: id in v.live ==> v.live[id].id == id)
    && (forall it :: it in q ==> it.id in v.live && v.live[it.id] == it && (it == q[0] || it.expiresAt > clock))
    && (forall id :: id in v.live && v.live[id].expiresAt > clock ==> v.live[id] in q)
    && v.head == if q == [] then None else Some(q[0].id)
  }

  // The tables determine the queue.
  lemma {:induction false} SameItems(q: seq<Item>, p: seq<Item>)
    requires Ascending(q) && Ascending(p) && |q| == |p|
    requires forall it :: it in q <==> it in p
    ensures q == p
  {
    if q != [] {
      var x, y := q[|q| - 1], p[|p| - 1];
      assert x in p && y in q;
      assert x == y;
      var q', p' := q[..|q| - 1], p[..|p| - 1];
      forall it ensures it in q' <==> it in p' {
        assert it in q <==> it in q' || it == x;
        assert it in p <==> it in p' || it == y;
        assert it in q' ==> it.createdAt < x.createdAt;
        assert it in p' ==> it.createdAt < y.createdAt;
      }
      SameItems(q', p');
      assert q == q' + [x] && p == p' + [y];
    }
  }

  lemma QueueIsUnique(v: View, clock: Time, q: seq<Item>, p: seq<Item>)
    requires Shows(v, clock, q) && Shows(v, clock, p)
    ensures q == p
  {
    forall it ensures it in q <==> it in p {
      assert |q| > 0 ==> q[0] in q;
      assert |p| > 0 ==> p[0] in p;
    }
    DistinctCount(q);
    DistinctCount(p);
    assert Elems(q) == Elems(p);
    SameItems(q, p);
  }

  // ---- Keep, Age and Without on ascending queues

  lemma {:induction false} KeepMembers(q: seq<Item>, now: Time)
    requires Ascending(q)
    ensures Ascending(Keep(q, now))
    ensures forall it :: it in Keep(q, now) <==> it in q && it.expiresAt > now
  {
    if q != [] {
      var front, x := q[..|q| - 1], q[|q| - 1];
      KeepMembers(front, now);
      assert forall it :: it in q <==> it in front || it == x;
      assert forall it :: it in front ==> it.createdAt < x.createdAt;
    }
  }

  lemma {:induction false} WithoutMembers(q: seq<Item>, id: Uuid)
    requires Ascending(q)
    ensures Ascending(Without(q, id))
    ensures forall it :: it in Without(q, id) <==> it in q && it.id != id
  {
    if q != [] {
      var front, x := q[..|q| - 1], q[|q| - 1];
      WithoutMembers(front, id);
      assert forall it :: it in q <==> it in front || it == x;
      assert forall it :: it in front ==> it.createdAt < x.createdAt;
    }
  }

  lemma {:induction false} WithoutKeepsFront(q: seq<Item>, id: Uuid)
    requires q != [] && q[0].id != id
    ensures Without(q, id) != [] && Without(q, id)[0] == q[0]
  {
    if |q| > 1 {
      WithoutKeepsFront(q[..|q| - 1], id);
    }
  }

  lemma AgeMembers(q: seq<Item>, now: Time)
    requires Ascending(q)
    ensures Ascending(Age(q, now))
    ensures forall it :: it in Age(q, now) <==> it in q && (it == q[0] || it.expiresAt > now)
    ensures q != [] ==> Age(q, now) != [] && Age(q, now)[0] == q[0]
  {
    if q != [] {
      KeepMembers(q[1..], now);
      assert forall it :: it in q <==> it == q[0] || it in q[1..];
    }
  }

  // ---- The queue when the view changes

  lemma ViewIsNamed(db: Db, k: SegKey)
    ensures forall id :: id in ViewOf(db, k).live ==> ViewOf(db, k).live[id].id == id
  {
  }

  lemma AgeShows(v: View, clock: Time, now: Time, q: seq<Item>)
    requires Shows(v, clock, q) && clock <= now
    ensures Shows(v, now, Age(q, now))
  {
    AgeMembers(q, now);
  }

  lemma EnqueueShows(v: View, clock: Time, q: seq<Item>, it: Item)
    requires Shows(v, clock, q) && it.id !in v.live && forall x :: x in q ==> x.createdAt < it.createdAt
    ensures Shows(View(v.live[it.id := it], if v.head.None? then Some(it.id) else v.head), clock,
                  if q == [] || it.expiresAt > clock then q + [it] else q)
  {
    assert forall x :: x in q + [it] <==> x in q || x == it;
    if q != [] {
      assert q[0] in q && (q + [it])[0] == q[0];
    }
  }

  lemma RetryShows(v: View, clock: Time, q: seq<Item>)
    requires Shows(v, clock, q) && q != []
    ensures var it := q[0].(attempts := q[0].attempts + 1);
            Shows(View(v.live[it.id := it], v.head), clock, [it] + q[1..])
  {
  }

  // Only rows that have expired may be left behind by a drop.
  lemma ClearShows(v: View, clock: Time)
    requires v.head.None? && forall id :: id in v.live ==> v.live[id].id == id && v.live[id].expiresAt <= clock
    ensures Shows(v, clock, [])
  {
  }

  lemma RemoveShows(v: View, now: Time, q: seq<Item>, id: Uuid)
    requires Shows(v, now, q) && v.head != Some(id)
    ensures Shows(View(v.live - {id}, v.head), now, Without(q, id))
  {
    WithoutMembers(q, id);
    if q != [] {
      WithoutKeepsFront(q, id);
    }
  }

  // next is the successor the database found among the rows not yet expired.
  ghost predicate IsFirst(live: map<Uuid, Item>, now: Time, next: Option<Uuid>) {
    if next.None? then forall id :: id in live ==> live[id].expiresAt <= now
    else
      && next.value in live && live[next.value].expiresAt > now
      && forall id :: id in live && live[id].expiresAt > now ==> live[next.value].createdAt <= live[id].createdAt
  }

  lemma PopShows(v: View, clock: Time, now: Time, q: seq<Item>, next: Option<Uuid>)
    requires Shows(v, clock, q) && clock <= now && q != [] && IsFirst(v.live - {q[0].id}, now, next)
    ensures Shows(View(v.live - {q[0].id}, next), now, Keep(q[1..], now))
  {
    PopMembers(v, clock, now, q);
    FirstIsFront(v.live - {q[0].id}, now, Keep(q[1..], now), next);
  }

  lemma PopMembers(v: View, clock: Time, now: Time, q: seq<Item>)
    requires Shows(v, clock, q) && clock <= now && q != []
    ensures var rest, q' := v.live - {q[0].id}, Keep(q[1..], now);
            && Ascending(q')
            && (forall it :: it in q' ==> it.id in rest && rest[it.id] == it && it.expiresAt > now)
            && (forall id :: id in rest && rest[id].expiresAt > now ==> rest[id] in q')
  {
    var rest, q' := v.live - {q[0].id}, Keep(q[1..], now);
    KeepMembers(q[1..], now);
    hide Keep;
    forall it | it in q' ensures it.id in rest && rest[it.id] == it {
      assert it in q && it.createdAt > q[0].createdAt;
    }
    hide Ascending;
    forall id | id in rest && rest[id].expiresAt > now ensures rest[id] in q' {
      assert rest[id] in q && rest[id] != q[0];
    }
  }

  lemma FirstIsFront(live: map<Uuid, Item>, now: Time, q: seq<Item>, next: Option<Uuid>)
    requires Ascending(q) && IsFirst(live, now, next) && forall id :: id in live ==> live[id].id == id
    requires forall it :: it in q ==> it.id in live && live[it.id] == it && it.expiresAt > now
    requires forall id :: id in live && live[id].expiresAt > now ==> live[id] in q
    ensures next == if q == [] then None else Some(q[0].id)
  {
  }

  lemma {:induction false} KeepAll(q: seq<Item>, now: Time)
    requires forall it :: it in q ==> it.expiresAt > now
    ensures Keep(q, now) == q
  {
    if q != [] {
      assert forall it :: it in q[..|q| - 1] ==> it in q;
      KeepAll(q[..|q| - 1], now);
      assert q == q[..|q| - 1] + [q[|q| - 1]];
    }
  }

  // A reading older than the clock takes nobody out of the queue, so nothing is lost by taking the
  // clock instead.
  lemma OlderReadingKeeps(v: View, clock: Time, now: Time, q: seq<Item>)
    requires Shows(v, clock, q) && now < clock
    ensures Age(q, now) == Age(q, clock) && (q != [] ==> Keep(q[1..], now) == Keep(q[1..], clock))
  {
    if q != [] {
      forall it | it in q[1..] ensures it.expiresAt > clock {
        assert it in q && it.createdAt > q[0].createdAt;
      }
      KeepAll(q[1..], now);
      KeepAll(q[1..], clock);
    }
  }

  // ---- One step of the tables is one step of the queue

  // Stamps grow strictly within the segment.
  ghost predicate Strict(w: World, st: Step, k: SegKey) {
    st.Append? && k.device in st.targets && k.segment == SegmentOf(st.ev) && k in w.newest ==> w.newest[k] < st.ev.createdAt
  }

  // An ack of the head, by an older reading than an ack before it, hands the segment to a row that
  // had expired by then and has left the queue.
  ghost predicate HandsToExpired(w: World, st: Step, k: SegKey) {
    && st.Ack? && AckHits(w.db, st.id, st.device, st.segment) && w.db.Head(k) == Some(st.id)
    && st.next.Some? && st.next.value in w.db.rows && w.db.rows[st.next.value].expiresAt <= w.clock
  }

  lemma AppendEnqueues(cfg: Config, w: World, ev: DomainEvent, targets: set<DeviceId>, k: SegKey, q: seq<Item>)
    requires cfg.Positive() && Enabled(cfg, w, Append(ev, targets)) && Sound(cfg, w)
    requires Strict(w, Append(ev, targets), k)
    requires Shows(ViewOf(w.db, k), w.clock, q)
    ensures Shows(ViewOf(AppendDb(w.db, ev, targets), k), w.clock, QueueStep(cfg, w.clock, k, q, Append(ev, targets)))
  {
    var id, v := Derived(ev.id, k.device), ViewOf(w.db, k);
    var it := ItemOf(id, FreshRow(ev, k.device));
    var hit := k.device in targets && k.segment == SegmentOf(ev);
    ViewAfterAppend(cfg, w, ev, targets, k);
    if hit {
      forall x | x in q ensures x.createdAt < ev.createdAt {
        OldRowsAreOlder(cfg, w, ev, targets, k, x.id);
      }
      hide ViewOf, AppendDb, Enabled, Sound;
      EnqueueShows(v, w.clock, q, it);
    }
  }

  lemma OldRowsAreOlder(cfg: Config, w: World, ev: DomainEvent, targets: set<DeviceId>, k: SegKey, id: Uuid)
    requires Sound(cfg, w) && Strict(w, Append(ev, targets), k) && k.device in targets
    requires k.segment == SegmentOf(ev)
    requires w.db.LiveIn(k, id)
    ensures w.db.rows[id].createdAt < ev.createdAt
  {
  }

  lemma LiveAfterAppend(w: World, ev: DomainEvent, targets: set<DeviceId>, k: SegKey, x: Uuid)
    requires FreshFor(w.db, ev, targets)
    ensures var db', id := AppendDb(w.db, ev, targets), Derived(ev.id, k.device);
            var hit := k.device in targets && k.segment == SegmentOf(ev);
            && (db'.LiveIn(k, x) <==> w.db.LiveIn(k, x) || (hit && x == id))
            && (w.db.LiveIn(k, x) ==> db'.rows[x] == w.db.rows[x])
            && (hit ==> !w.db.LiveIn(k, id) && db'.rows[id] == FreshRow(ev, k.device))
  {
  }

  lemma LiveViewAfterAppend(w: World, ev: DomainEvent, targets: set<DeviceId>, k: SegKey)
    requires FreshFor(w.db, ev, targets)
    ensures var id, live := Derived(ev.id, k.device), ViewOf(w.db, k).live;
            ViewOf(AppendDb(w.db, ev, targets), k).live ==
            if k.device in targets && k.segment == SegmentOf(ev) then live[id := ItemOf(id, FreshRow(ev, k.device))] else live
  {
    var live, live' := ViewOf(w.db, k).live, ViewOf(AppendDb(w.db, ev, targets), k).live;
    hide AppendDb, FreshFor, FreshRow;
    forall x
      ensures x in live' <==> x in live || (k.device in targets && k.segment == SegmentOf(ev) && x == Derived(ev.id, k.device))
      ensures x in live ==> live'[x] == live[x]
    {
      LiveAfterAppend(w, ev, targets, k, x);
    }
    LiveAfterAppend(w, ev, targets, k, Derived(ev.id, k.device));
  }

  lemma ViewAfterAppend(cfg: Config, w: World, ev: DomainEvent, targets: set<DeviceId>, k: SegKey)
    requires cfg.Positive() && Enabled(cfg, w, Append(ev, targets)) && RowsOk(cfg, w)
    ensures var id, v, v' := Derived(ev.id, k.device), ViewOf(w.db, k), ViewOf(AppendDb(w.db, ev, targets), k);
            if k.device in targets && k.segment == SegmentOf(ev) then
              && id !in v.live
              && v' == View(v.live[id := ItemOf(id, FreshRow(ev, k.device))], if v.head.None? then Some(id) else v.head)
            else v' == v
  {
    assert FreshFor(w.db, ev, targets);
    AppendPointers(w.db, ev, targets, k);
    LiveViewAfterAppend(w, ev, targets, k);
  }

  lemma FrontIsHead(v: View, clock: Time, q: seq<Item>)
    requires Shows(v, clock, q)
    ensures v.head == if q == [] then None else Some(q[0].id)
    ensures q != [] ==> q[0].id in v.live && v.live[q[0].id] == q[0]
  {
    assert q != [] ==> q[0] in q;
  }

  lemma ClaimPeeksOrClears(cfg: Config, w: World, now: Time, batch: seq<SegKey>, k: SegKey, q: seq<Item>)
    requires cfg.Positive() && Enabled(cfg, w, Claim(now, batch)) && Sound(cfg, w)
    requires Shows(ViewOf(w.db, k), w.clock, q) && forall j :: j in batch ==> HasHead(w.db, j)
    ensures Shows(ViewOf(ClaimDb(w.db, batch, now, cfg), k), w.clock, QueueStep(cfg, w.clock, k, q, Claim(now, batch)))
  {
    hide Enabled, Sound, ViewOf, ClaimDb, HasHead, HeadRow, Shows;
    ViewAfterClaim(cfg, w, now, batch, k);
    FrontIsHead(ViewOf(w.db, k), w.clock, q);
    if k in batch && q != [] {
      var v' := ViewOf(ClaimDb(w.db, batch, now, cfg), k);
      if Spent(HeadRow(w.db, k), now, cfg.maxAttempts) {
        ViewIsNamed(ClaimDb(w.db, batch, now, cfg), k);
        ClearShows(v', w.clock);
      } else {
        RetryShows(ViewOf(w.db, k), w.clock, q);
      }
    }
  }

  lemma ViewAfterClaim(cfg: Config, w: World, now: Time, batch: seq<SegKey>, k: SegKey)
    requires cfg.Positive() && Enabled(cfg, w, Claim(now, batch)) && Sound(cfg, w)
    requires forall j :: j in batch ==> HasHead(w.db, j)
    ensures var v, v' := ViewOf(w.db, k), ViewOf(ClaimDb(w.db, batch, now, cfg), k);
            if k !in batch then v' == v
            else
              && v.head.Some? && v.head.value in v.live && v.head.value in w.db.rows
              && var h := HeadRow(w.db, k);
                 && v.live[v.head.value] == ItemOf(v.head.value, h)
                 && if Spent(h, now, cfg.maxAttempts) then v'.head.None? && forall id :: id in v'.live ==> v'.live[id].expiresAt <= w.clock
                    else v' == View(v.live[v.head.value := ItemOf(v.head.value, h).(attempts := h.attempts + 1)], v.head)
  {
    SoundParts(cfg, w, k);
    hide Enabled, Sound, Inv, ClaimDb, ViewOf, HeadOwned, HeadCurrent;
    if k in batch {
      HeadInView(w.db, k);
    }
    hide HasHead, HeadRow;
    if k !in batch {
      ViewUnclaimed(w.db, now, batch, cfg, k);
    } else if Spent(HeadRow(w.db, k), now, cfg.maxAttempts) {
      ViewAfterSpent(w.db, now, batch, cfg, k, w.clock);
    } else {
      ViewAfterLease(w.db, now, batch, cfg, k);
    }
  }

  lemma HeadInView(db: Db, k: SegKey)
    requires HasHead(db, k) && HeadOwned(db, k)
    ensures var v, e := ViewOf(db, k), db.segs[k].head.value;
            v.head == Some(e) && e in v.live && v.live[e] == ItemOf(e, HeadRow(db, k))
  {
  }

  lemma ViewUnclaimed(db: Db, now: Time, batch: seq<SegKey>, cfg: Config, k: SegKey)
    requires (forall j :: j in batch ==> HasHead(db, j)) && k !in batch
    ensures ViewOf(ClaimDb(db, batch, now, cfg), k) == ViewOf(db, k)
  {
    forall id | id in db.rows && db.rows[id].Key() == k ensures ClaimRow(db, batch, now, cfg, id) == db.rows[id] {
    }
    hide HasHead, Leased, Spent, HeadRow, InTail;
    assert ViewOf(ClaimDb(db, batch, now, cfg), k).live == ViewOf(db, k).live;
  }

  lemma ViewAfterSpent(db: Db, now: Time, batch: seq<SegKey>, cfg: Config, k: SegKey, clock: Time)
    requires (forall j :: j in batch ==> HasHead(db, j)) && k in batch && HeadCurrent(db, k, clock)
    requires Spent(HeadRow(db, k), now, cfg.maxAttempts)
    ensures var v' := ViewOf(ClaimDb(db, batch, now, cfg), k);
            v'.head.None? && forall id :: id in v'.live ==> v'.live[id].expiresAt <= clock
  {
    var v' := ViewOf(ClaimDb(db, batch, now, cfg), k);
    forall id | id in v'.live ensures v'.live[id].expiresAt <= clock {
      assert db.LiveIn(k, id);
    }
  }

  lemma ViewAfterLease(db: Db, now: Time, batch: seq<SegKey>, cfg: Config, k: SegKey)
    requires (forall j :: j in batch ==> HasHead(db, j)) && k in batch && HeadOwned(db, k)
    requires !Spent(HeadRow(db, k), now, cfg.maxAttempts)
    ensures var v, v', h := ViewOf(db, k), ViewOf(ClaimDb(db, batch, now, cfg), k), HeadRow(db, k);
            && v.head.Some? && v' == View(v.live[v.head.value := ItemOf(v.head.value, h).(attempts := h.attempts + 1)], v.head)
  {
    var v, v' := ViewOf(db, k), ViewOf(ClaimDb(db, batch, now, cfg), k);
    forall id ensures id in v'.live <==> id in v.live {
    }
    assert v'.live == v.live[v.head.value := ItemOf(v.head.value, HeadRow(db, k)).(attempts := HeadRow(db, k).attempts + 1)];
  }

  // The only event of the segment a claim can return is the front of its queue.
  lemma ClaimReturnsFront(cfg: Config, w: World, now: Time, batch: seq<SegKey>, k: SegKey, q: seq<Item>, e: OutboxEvent)
    requires cfg.Positive() && Enabled(cfg, w, Claim(now, batch)) && Sound(cfg, w)
    requires Shows(ViewOf(w.db, k), w.clock, q) && forall j :: j in batch ==> HasHead(w.db, j)
    requires e in ClaimEvents(w.db, batch, now, cfg) && e.key == k
    ensures q != [] && e.id == q[0].id && e.createdAt == q[0].createdAt && e.attempts == q[0].attempts + 1
  {
    ChosenAreDue(cfg, w, now, batch);
    ClaimEventsFrom(w.db, batch, now, cfg);
    assert q != [] ==> q[0] in q;
  }

  lemma DropClears(cfg: Config, w: World, ticket: Ticket, k: SegKey, q: seq<Item>)
    requires cfg.Positive() && Sound(cfg, w) && ticket in w.tickets && Shows(ViewOf(w.db, k), w.clock, q)
    ensures Shows(ViewOf(DropDb(w.db, ticket.key, ticket.createdAt), k), w.clock, QueueStep(cfg, w.clock, k, q, Drop(ticket)))
  {
    hide Sound, DropDb, Shows, ViewOf;
    if ticket.key == k {
      ViewOfDropped(cfg, w, ticket);
      ClearShows(ViewOf(DropDb(w.db, ticket.key, ticket.createdAt), k), w.clock);
    } else {
      ViewOfOthers(w.db, ticket.key, ticket.createdAt, k);
    }
  }

  lemma ViewOfDropped(cfg: Config, w: World, ticket: Ticket)
    requires Sound(cfg, w) && ticket in w.tickets
    ensures var v' := ViewOf(DropDb(w.db, ticket.key, ticket.createdAt), ticket.key);
            v'.head.None? && forall id :: id in v'.live ==> v'.live[id].id == id && v'.live[id].expiresAt <= w.clock
  {
    SoundParts(cfg, w, ticket.key);
    hide Sound, Inv, RowsOk, BornOk, LogStamped;
    DropKeepsInv(w.db, ticket.key, ticket.createdAt, w.clock);
    var db' := DropDb(w.db, ticket.key, ticket.createdAt);
    forall id | id in ViewOf(db', ticket.key).live ensures ViewOf(db', ticket.key).live[id].expiresAt <= w.clock {
      assert db'.LiveIn(ticket.key, id);
    }
  }

  lemma ViewOfOthers(db: Db, j: SegKey, from: Time, k: SegKey)
    requires j != k
    ensures ViewOf(DropDb(db, j, from), k) == ViewOf(db, k)
  {
    assert ViewOf(DropDb(db, j, from), k).live == ViewOf(db, k).live;
  }

  lemma PurgeLeavesQueue(cfg: Config, w: World, st: Step, k: SegKey)
    requires cfg.Positive() && Enabled(cfg, w, st) && st.Purge?
    ensures ViewOf(DeleteDb(w.db, st.victims), k) == ViewOf(w.db, k)
  {
  }

  lemma LiveAfterAck(db: Db, now: Time, id: Uuid, device: DeviceId, segment: SegmentId, next: Option<Uuid>, k: SegKey)
    requires id in db.rows
    ensures ViewOf(AckDb(db, now, id, device, segment, next), k).live ==
            ViewOf(db, k).live - if AckHits(db, id, device, segment) then {id} else {}
  {
    var live, live' := ViewOf(db, k).live, ViewOf(AckDb(db, now, id, device, segment, next), k).live;
    if AckHits(db, id, device, segment) {
      assert AckDb(db, now, id, device, segment, next).rows == db.rows[id := db.rows[id].(status := Acked, ackedAt := Some(now))];
      hide AckDb, AckHits;
      assert live'.Keys == live.Keys - {id};
    }
  }

  lemma ViewAfterAck(w: World, now: Time, id: Uuid, device: DeviceId, segment: SegmentId, next: Option<Uuid>, k: SegKey)
    requires Pointed(w.db, k)
    ensures var v, v' := ViewOf(w.db, k), ViewOf(AckDb(w.db, now, id, device, segment, next), k);
            if id in w.db.rows && w.db.rows[id].Key() == k && AckHits(w.db, id, device, segment) then
              v' == View(v.live - {id}, if v.head == Some(id) then next else v.head)
            else v' == v
  {
    if id in w.db.rows {
      LiveAfterAck(w.db, now, id, device, segment, next, k);
      if w.db.rows[id].Key() != k {
        assert ViewOf(w.db, k).live - {id} == ViewOf(w.db, k).live;
      }
    }
  }

  lemma AckDequeuesExactly(cfg: Config, w: World, st: Step, k: SegKey, q: seq<Item>)
    requires cfg.Positive() && Enabled(cfg, w, st) && Sound(cfg, w) && st.Ack?
    requires Shows(ViewOf(w.db, k), w.clock, q)
    ensures Shows(ViewOf(AckDb(w.db, st.now, st.id, st.device, st.segment, st.next), k), Latest(w, st.now),
                  QueueStep(cfg, w.clock, k, q, st))
            <==> !HandsToExpired(w, st, k)
  {
    var Ack(now, id, device, segment, next) := st;
    var v, t := ViewOf(w.db, k), Latest(w, now);
    AckStands(cfg, w, st, k, q);
    hide Enabled, Sound, Pointed, ViewOf, AckDb, AckHits, Shows, Age, Keep;
    ViewAfterAck(w, now, id, device, segment, next, k);
    AgeShows(v, w.clock, t, q);
    if now < w.clock {
      OlderReadingKeeps(v, w.clock, now, q);
    }
    if device != k.device || (segment != "" && segment != k.segment) {
    } else if q != [] && q[0].id == id {
      HeadIsHanded(cfg, w, st, k, q);
    } else {
      RemoveShows(v, t, Age(q, t), id);
      if id !in v.live {
        assert v.live - {id} == v.live;
      }
    }
  }

  function Latest(w: World, now: Time): Time {
    if w.clock <= now then now else w.clock
  }

  lemma HeadIsHanded(cfg: Config, w: World, st: Step, k: SegKey, q: seq<Item>)
    requires cfg.Positive() && Enabled(cfg, w, st) && Sound(cfg, w) && st.Ack?
    requires Shows(ViewOf(w.db, k), w.clock, q) && q != [] && q[0].id == st.id
    requires AckHits(w.db, st.id, st.device, st.segment)
    ensures Shows(View(ViewOf(w.db, k).live - {st.id}, st.next), Latest(w, st.now), Keep(q[1..], Latest(w, st.now)))
            <==> !HandsToExpired(w, st, k)
  {
    var v, t := ViewOf(w.db, k), Latest(w, st.now);
    AckStands(cfg, w, st, k, q);
    SuccessorIsFirst(w, st.now, st.id, st.next, k);
    HandedExpiry(w, st, k);
    hide Enabled, Sound, AckHits, ViewOf;
    if HandsToExpired(w, st, k) {
      PopMembers(v, w.clock, t, q);
      assert Keep(q[1..], t) != [] ==> Keep(q[1..], t)[0] in Keep(q[1..], t);
    } else {
      hide Shows, Keep;
      PopShows(v, w.clock, t, q, st.next);
    }
  }

  // A successor that has not expired by the clock is the first at the clock too.
  lemma HandedExpiry(w: World, st: Step, k: SegKey)
    requires st.Ack? && AckHits(w.db, st.id, st.device, st.segment) && w.db.Head(k) == Some(st.id)
    requires IsFirst(ViewOf(w.db, k).live - {st.id}, st.now, st.next)
    ensures st.next.Some? ==> st.next.value in w.db.rows && st.next.value in ViewOf(w.db, k).live
    ensures st.next.Some? ==> ViewOf(w.db, k).live[st.next.value].expiresAt == w.db.rows[st.next.value].expiresAt
    ensures !HandsToExpired(w, st, k) ==> IsFirst(ViewOf(w.db, k).live - {st.id}, Latest(w, st.now), st.next)
    ensures HandsToExpired(w, st, k) ==> st.now < w.clock
  {
  }

  // What an ack meets in a segment, told by its view and its queue.
  lemma AckStands(cfg: Config, w: World, st: Step, k: SegKey, q: seq<Item>)
    requires cfg.Positive() && Enabled(cfg, w, st) && Sound(cfg, w) && st.Ack?
    requires Shows(ViewOf(w.db, k), w.clock, q)
    ensures Pointed(w.db, k)
    ensures st.id in w.db.rows ==> MayFollow(w.db, w.db.rows[st.id].Key(), st.now, st.id, st.next)
    ensures ViewOf(w.db, k).head == if q == [] then None else Some(q[0].id)
    ensures q != [] ==> q[0].id in ViewOf(w.db, k).live
    ensures st.id in ViewOf(w.db, k).live ==> st.id in w.db.rows && w.db.rows[st.id].Key() == k
    ensures st.id in w.db.rows && w.db.rows[st.id].Key() == k ==>
              (AckHits(w.db, st.id, st.device, st.segment) <==>
               st.device == k.device && (st.segment == "" || st.segment == k.segment) && !w.db.rows[st.id].status.Acked?)
    ensures st.id in ViewOf(w.db, k).live ==> !w.db.rows[st.id].status.Acked?
  {
    assert q != [] ==> q[0] in q;
  }

  lemma SuccessorIsFirst(w: World, now: Time, id: Uuid, next: Option<Uuid>, k: SegKey)
    requires id in w.db.rows && w.db.rows[id].Key() == k && MayFollow(w.db, k, now, id, next)
    ensures IsFirst(ViewOf(w.db, k).live - {id}, now, next)
  {
  }

  // Every step of a run, with stamps that grow strictly in the segment, is one step of the queue,
  // exactly unless it hands the segment to an expired row.
  lemma StepIsQueueStepExactly(cfg: Config, w: World, st: Step, k: SegKey, q: seq<Item>)
    requires cfg.Positive() && Enabled(cfg, w, st) && Sound(cfg, w) && Strict(w, st, k)
    requires Shows(ViewOf(w.db, k), w.clock, q)
    ensures Shows(ViewOf(Next(cfg, w, st).db, k), Next(cfg, w, st).clock, QueueStep(cfg, w.clock, k, q, st))
            <==> !HandsToExpired(w, st, k)
  {
    hide Shows, ViewOf, QueueStep, Sound;
    match st
    case Append(ev, targets) =>
      AppendEnqueues(cfg, w, ev, targets, k, q);
    case Claim(now, batch) =>
      NextAfterClaim(cfg, w, st);
      ClaimPeeksOrClears(cfg, w, now, batch, k, q);
    case Ack(now, id, device, segment, next) =>
      AckDequeuesExactly(cfg, w, st, k, q);
    case Scan(now, batch) =>
      QueueIgnores(cfg, w.clock, k, q, st);
    case Drop(ticket) =>
      DropClears(cfg, w, ticket, k, q);
    case Purge(now, retention, status, limit, victims) =>
      PurgeLeavesQueue(cfg, w, st, k);
      QueueIgnores(cfg, w.clock, k, q, st);
  }

  lemma QueueIgnores(cfg: Config, clock: Time, k: SegKey, q: seq<Item>, st: Step)
    requires st.Scan? || st.Purge?
    ensures QueueStep(cfg, clock, k, q, st) == q
  {
  }

  // The queue machine run beside the tables.
  ghost function QueueAt(cfg: Config, steps: seq<Step>, ws: seq<World>, k: SegKey, n: nat): seq<Item>
    requires n <= |steps| && |ws| == |steps| + 1
  {
    if n == 0 then [] else QueueStep(cfg, ws[n - 1].clock, k, QueueAt(cfg, steps, ws, k, n - 1), steps[n - 1])
  }

  ghost predicate StrictRun(steps: seq<Step>, ws: seq<World>, k: SegKey, n: nat)
    requires n <= |steps| && |ws| == |steps| + 1
  {
    forall m :: 0 <= m < n ==> Strict(ws[m], steps[m], k)
  }

  lemma QueueStartsEmpty(cfg: Config, steps: seq<Step>, ws: seq<World>, k: SegKey)
    requires cfg.Positive() && Run(cfg, steps, ws)
    ensures Shows(ViewOf(ws[0].db, k), ws[0].clock, [])
  {
  }

  // Over any such run, the tables show the queue the machine arrived at, all along, if and only if
  // no ack hands the segment to an expired row.
  lemma {:induction false} SegmentIsAQueueExactly(cfg: Config, steps: seq<Step>, ws: seq<World>, k: SegKey, n: nat)
    requires cfg.Positive() && Run(cfg, steps, ws) && n <= |steps| && StrictRun(steps, ws, k, n)
    ensures (forall m :: 0 <= m <= n ==> Shows(ViewOf(ws[m].db, k), ws[m].clock, QueueAt(cfg, steps, ws, k, m)))
            <==> forall m :: 0 <= m < n ==> !HandsToExpired(ws[m], steps[m], k)
  {
    hide Shows, ViewOf, QueueStep, Strict, HandsToExpired, Enabled, Next, Sound, StepAt;
    if n == 0 {
      QueueStartsEmpty(cfg, steps, ws, k);
    } else {
      SegmentIsAQueueExactly(cfg, steps, ws, k, n - 1);
      RunStep(cfg, steps, ws, n - 1);
      if Shows(ViewOf(ws[n - 1].db, k), ws[n - 1].clock, QueueAt(cfg, steps, ws, k, n - 1)) {
        StepIsQueueStepExactly(cfg, ws[n - 1], steps[n - 1], k, QueueAt(cfg, steps, ws, k, n - 1));
      }
    }
  }

  // After any run without such an ack the tables show exactly the queue the machine arrived at.
  lemma SegmentIsAQueue(cfg: Config, steps: seq<Step>, ws: seq<World>, k: SegKey, n: nat)
    requires cfg.Positive() && Run(cfg, steps, ws) && n <= |steps| && StrictRun(steps, ws, k, n)
    requires forall m :: 0 <= m < n ==> !HandsToExpired(ws[m], steps[m], k)
    ensures Shows(ViewOf(ws[n].db, k), ws[n].clock, QueueAt(cfg, steps, ws, k, n))
  {
    hide Shows, ViewOf, QueueAt, HandsToExpired, Run;
    SegmentIsAQueueExactly(cfg, steps, ws, k, n);
  }

  // Acks in the order of their readings hand no segment to an expired row.
  lemma AcksInOrderHandToNoneExpired(cfg: Config, steps: seq<Step>, ws: seq<World>, k: SegKey, n: nat)
    requires cfg.Positive() && Run(cfg, steps, ws) && n <= |steps| && AcksInOrder(steps, ws, n)
    ensures forall m :: 0 <= m < n ==> !HandsToExpired(ws[m], steps[m], k)
  {
    hide Next, Sound;
    forall m | 0 <= m < n ensures !HandsToExpired(ws[m], steps[m], k) {
      RunStep(cfg, steps, ws, m);
      HandedLater(cfg, ws[m], steps[m], k);
    }
  }

  lemma HandedLater(cfg: Config, w: World, st: Step, k: SegKey)
    requires cfg.Positive() && Enabled(cfg, w, st) && (st.Ack? ==> w.clock <= st.now)
    ensures !HandsToExpired(w, st, k)
  {
  }

  lemma ClaimTakesFront(cfg: Config, w: World, st: Step, q: seq<Item>, e: OutboxEvent)
    requires cfg.Positive() && Enabled(cfg, w, st) && Sound(cfg, w) && Shows(ViewOf(w.db, e.key), w.clock, q)
    requires |w.log| <= |Next(cfg, w, st).log| && e in Next(cfg, w, st).log[|w.log|..]
    ensures st.Claim? && q != [] && e.id == q[0].id && e.createdAt == q[0].createdAt && e.attempts == q[0].attempts + 1
  {
    hide Enabled, Sound, Shows, ViewOf, Next;
    StepGrowsLog(cfg, w, st);
    if st.Claim? {
      assert Next(cfg, w, st).log[|w.log|..] == ClaimEvents(w.db, st.batch, st.now, cfg);
      ClaimReturnsFront(cfg, w, st.now, st.batch, e.key, q, e);
    }
  }

  // Whatever a step of the run delivers is what stands at the front of its segment's queue.
  lemma DeliveriesArePeeks(cfg: Config, steps: seq<Step>, ws: seq<World>, n: nat, e: OutboxEvent)
    requires cfg.Positive() && Run(cfg, steps, ws) && n < |steps| && StrictRun(steps, ws, e.key, n)
    requires forall m :: 0 <= m < n ==> !HandsToExpired(ws[m], steps[m], e.key)
    requires |ws[n].log| <= |ws[n + 1].log| && e in ws[n + 1].log[|ws[n].log|..]
    ensures var q := QueueAt(cfg, steps, ws, e.key, n);
            steps[n].Claim? && q != [] && e.id == q[0].id && e.createdAt == q[0].createdAt && e.attempts == q[0].attempts + 1
  {
    hide *;
    RunLength(cfg, steps, ws);
    RunStep(cfg, steps, ws, n);
    SegmentIsAQueue(cfg, steps, ws, e.key, n);
    ClaimTakesFront(cfg, ws[n], steps[n], QueueAt(cfg, steps, ws, e.key, n), e);
  }
}
