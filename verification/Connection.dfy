/**
 One connection's `sentEvents` cache beside the outbox tables: every worker keeps running
 between any two of its steps.
 */
module Connection {
  import opened OutboxTypes
  import opened OutboxSteps
  import opened OutboxRuns
  import opened OutboxHistory
  import opened Selection
  import opened Wrappers

  // ---- What a pull does to the cache

  function PurgeSent(sent: map<Uuid, Time>, now: Time): map<Uuid, Time> {
    map id | id in sent && sent[id] > now :: sent[id]
  }

  predicate Suppressed(sent: map<Uuid, Time>, now: Time, e: OutboxEvent) {
    e.id in sent && sent[e.id] > now
  }

  // The listed events that go out, judged by the cache as the pull found it.
  function EmittedOf(sent: map<Uuid, Time>, now: Time, events: seq<OutboxEvent>): seq<OutboxEvent> {
    if events == [] then []
    else
      var e := events[|events| - 1];
      EmittedOf(sent, now, events[..|events| - 1]) + if Suppressed(sent, now, e) then [] else [e]
  }

  function Remember(sent: map<Uuid, Time>, events: seq<OutboxEvent>): map<Uuid, Time> {
    if events == [] then sent
    else
      var e := events[|events| - 1];
      var before := Remember(sent, events[..|events| - 1]);
      if e.inflightUntil.Some? then before[e.id := e.inflightUntil.value] else before
  }

  lemma {:induction false} EmittedExactly(sent: map<Uuid, Time>, now: Time, events: seq<OutboxEvent>)
    ensures forall e :: e in EmittedOf(sent, now, events) <==> e in events && !Suppressed(sent, now, e)
    ensures OneEach(events) ==> OneEach(EmittedOf(sent, now, events))
  {
    if events != [] {
      var front, e := events[..|events| - 1], events[|events| - 1];
      EmittedExactly(sent, now, front);
      assert forall x :: x in events <==> x in front || x == e;
      if OneEach(events) {
        assert forall x :: x in front ==> x.id != e.id;
        assert OneEach(front);
      }
    }
  }

  ghost predicate OneEach(events: seq<OutboxEvent>) {
    forall i, j :: 0 <= i < j < |events| ==> events[i].id != events[j].id
  }

  ghost predicate NoLeaseOf(events: seq<OutboxEvent>, id: Uuid) {
    forall e :: e in events && e.inflightUntil.Some? ==> e.id != id
  }

  lemma {:induction false} RememberExactly(sent: map<Uuid, Time>, events: seq<OutboxEvent>)
    requires OneEach(events)
    ensures forall e :: e in events && e.inflightUntil.Some? ==>
              e.id in Remember(sent, events) && Remember(sent, events)[e.id] == e.inflightUntil.value
    ensures forall id :: NoLeaseOf(events, id) ==>
              (id in Remember(sent, events) <==> id in sent) && (id in sent ==> Remember(sent, events)[id] == sent[id])
  {
    if events != [] {
      var front, e := events[..|events| - 1], events[|events| - 1];
      assert forall x :: x in events <==> x in front || x == e;
      assert forall x :: x in front ==> x.id != e.id;
      RememberExactly(sent, front);
    }
  }

  // The events not held back by a lease sent before that is still running go out, once each, and
  // oldest first if they were listed so.
  ghost predicate SendsTheRest(sent: map<Uuid, Time>, now: Time, events: seq<OutboxEvent>, packets: seq<OutboxEvent>) {
    && (forall e :: e in packets <==> e in events && !(e.id in sent && now < sent[e.id]))
    && OneEach(packets) && (Ascending(events) ==> Ascending(packets))
  }

  // The leases of what went out are kept in mind, beside what was.
  ghost predicate KeepsInMind(sent: map<Uuid, Time>, sent': map<Uuid, Time>, packets: seq<OutboxEvent>) {
    && (forall e :: e in packets && e.inflightUntil.Some? ==> e.id in sent' && sent'[e.id] == e.inflightUntil.value)
    && (forall id :: NoLeaseOf(packets, id) ==> (id in sent' <==> id in sent) && (id in sent ==> sent'[id] == sent[id]))
  }

  ghost predicate Ascending(events: seq<OutboxEvent>) {
    forall i, j :: 0 <= i < j < |events| ==> events[i].createdAt <= events[j].createdAt
  }

  lemma {:induction false} EmittedInOrder(sent: map<Uuid, Time>, now: Time, events: seq<OutboxEvent>)
    requires Ascending(events)
    ensures Ascending(EmittedOf(sent, now, events))
  {
    if events != [] {
      var front, e := events[..|events| - 1], events[|events| - 1];
      var before := EmittedOf(sent, now, front);
      EmittedInOrder(sent, now, front);
      EmittedExactly(sent, now, front);
      hide Suppressed;
      forall i | 0 <= i < |before| ensures before[i].createdAt <= e.createdAt {
        assert before[i] in front;
      }
    }
  }

  lemma EmitInPlainTerms(sent: map<Uuid, Time>, now: Time, events: seq<OutboxEvent>)
    requires OneEach(events)
    ensures SendsTheRest(sent, now, events, EmittedOf(sent, now, events))
  {
    EmittedExactly(sent, now, events);
    if Ascending(events) {
      EmittedInOrder(sent, now, events);
    }
    hide EmittedOf, OneEach, Ascending;
  }

  lemma RememberInPlainTerms(sent: map<Uuid, Time>, packets: seq<OutboxEvent>)
    requires OneEach(packets)
    ensures KeepsInMind(sent, Remember(sent, packets), packets)
  {
    RememberExactly(sent, packets);
    hide Remember, OneEach, NoLeaseOf;
  }

  // ---- The connection and the workers

  // The cache, the reading the current pull took, and (for the observer) all it ever sent out.
  datatype Conn = Conn(sent: map<Uuid, Time>, now: Time, out: seq<OutboxEvent>)

  datatype PeerStep =
    | Worker(st: Step)
    | Begin(now: Time)
    | List(at: Time, device: DeviceId, limit: nat, ids: seq<Uuid>)

  datatype Peer = Peer(w: World, c: Conn)

  // The connection's own readings do not go back, and it lists no earlier than it began.
  ghost predicate PeerEnabled(cfg: Config, p: Peer, st: PeerStep)
    requires cfg.Positive()
  {
    match st
    case Worker(s) => Enabled(cfg, p.w, s)
    case Begin(now) => p.c.now <= now
    case List(at, device, limit, ids) =>
      p.c.now <= at && IsSelection(InFlightAt(p.w.db, device, at), RowStamps(p.w.db), limit, ids)
  }

  lemma ListedAreStored(cfg: Config, p: Peer, st: PeerStep)
    requires cfg.Positive() && PeerEnabled(cfg, p, st) && st.List?
    ensures forall id :: id in st.ids ==> id in InFlightAt(p.w.db, st.device, st.at)
    ensures Distinct(st.ids)
  {
  }

  ghost function PeerNext(cfg: Config, p: Peer, st: PeerStep): Peer
    requires cfg.Positive() && PeerEnabled(cfg, p, st)
  {
    match st
    case Worker(s) => p.(w := Next(cfg, p.w, s))
    case Begin(now) => p.(c := p.c.(sent := PurgeSent(p.c.sent, now), now := now))
    case List(at, device, limit, ids) =>
      ListedAreStored(cfg, p, st);
      var emitted := EmittedBy(p, ids);
      p.(c := p.c.(sent := Remember(p.c.sent, emitted), out := p.c.out + emitted))
  }

  // ---- The invariant

  // What was sent out was a lease of its row, and while it lasts the cache holds it back.
  ghost predicate SentOnce(cfg: Config, p: Peer, e: OutboxEvent) {
    && ClaimOk(cfg, p.w, e)
    && e.inflightUntil.Some?
    && (e.inflightUntil.value <= p.c.now || (e.id in p.c.sent && e.inflightUntil.value <= p.c.sent[e.id]))
  }

  ghost predicate Emitted(out: seq<OutboxEvent>, id: Uuid, until: Time) {
    exists i :: 0 <= i < |out| && out[i].id == id && out[i].inflightUntil == Some(until)
  }

  ghost predicate Rising(out: seq<OutboxEvent>) {
    forall i, j :: 0 <= i < j < |out| && out[i].id == out[j].id ==> out[i].attempts < out[j].attempts
  }

  ghost predicate PeerOk(cfg: Config, p: Peer) {
    && Sound(cfg, p.w)
    && (forall i :: 0 <= i < |p.c.out| ==> SentOnce(cfg, p, p.c.out[i]))
    && (forall id :: id in p.c.sent ==> Emitted(p.c.out, id, p.c.sent[id]))
    && Rising(p.c.out)
  }

  lemma WorkerKeepsPeer(cfg: Config, p: Peer, st: Step)
    requires cfg.Positive() && PeerOk(cfg, p) && Enabled(cfg, p.w, st)
    ensures PeerOk(cfg, p.(w := Next(cfg, p.w, st)))
  {
    hide Enabled, Sound, Next, ClaimOk;
    StepKeepsSound(cfg, p.w, st);
    forall i | 0 <= i < |p.c.out| ensures SentOnce(cfg, p.(w := Next(cfg, p.w, st)), p.c.out[i]) {
      StepKeepsOldClaim(cfg, p.w, st, p.c.out[i]);
    }
  }

  lemma BeginKeepsPeer(cfg: Config, p: Peer, now: Time)
    requires cfg.Positive() && PeerOk(cfg, p) && p.c.now <= now
    ensures PeerOk(cfg, p.(c := p.c.(sent := PurgeSent(p.c.sent, now), now := now)))
  {
    hide Sound, ClaimOk;
    var p' := p.(c := p.c.(sent := PurgeSent(p.c.sent, now), now := now));
    forall i | 0 <= i < |p.c.out| ensures SentOnce(cfg, p', p.c.out[i]) {
      assert SentOnce(cfg, p, p.c.out[i]);
    }
  }

  // A listed row is a lease in force; if it was sent out under this lease, the cache suppresses it.
  lemma ListedEvent(cfg: Config, p: Peer, st: PeerStep, id: Uuid)
    requires cfg.Positive() && PeerOk(cfg, p) && PeerEnabled(cfg, p, st) && st.List? && id in st.ids
    ensures id in p.w.db.rows
    ensures var e := EventOf(id, p.w.db.rows[id]);
            && ClaimOk(cfg, p.w, e) && e.inflightUntil.Some? && e.inflightUntil.value > p.c.now
            && forall i :: 0 <= i < |p.c.out| && p.c.out[i].id == id ==>
                 && p.c.out[i].attempts <= e.attempts
                 && (p.c.out[i].attempts == e.attempts ==> Suppressed(p.c.sent, p.c.now, e))
  {
    ListedAreStored(cfg, p, st);
    assert RowsOk(cfg, p.w);
    var e := EventOf(id, p.w.db.rows[id]);
    forall i | 0 <= i < |p.c.out| && p.c.out[i].id == id
      ensures p.c.out[i].attempts <= e.attempts
      ensures (p.c.out[i].attempts == e.attempts ==> Suppressed(p.c.sent, p.c.now, e))
    {
      assert SentOnce(cfg, p, p.c.out[i]);
    }
  }

  lemma ListKeepsRising(cfg: Config, p: Peer, st: PeerStep, emitted: seq<OutboxEvent>)
    requires cfg.Positive() && PeerOk(cfg, p) && PeerEnabled(cfg, p, st) && st.List?
    requires OneEach(emitted)
    requires forall e :: e in emitted ==> e.id in st.ids && e.id in p.w.db.rows && e == EventOf(e.id, p.w.db.rows[e.id])
                                          && !Suppressed(p.c.sent, p.c.now, e)
    ensures Rising(p.c.out + emitted)
  {
    var out := p.c.out + emitted;
    assert Rising(p.c.out);
    forall i, j | 0 <= i < j < |out| && out[i].id == out[j].id ensures out[i].attempts < out[j].attempts {
      if |p.c.out| <= j {
        assert out[j] == emitted[j - |p.c.out|] && out[j] in emitted;
        if i < |p.c.out| {
          hide PeerEnabled, PeerOk;
          ListedEvent(cfg, p, st, out[j].id);
        }
      }
    }
  }

  lemma EventsAreOneEach(db: Db, ids: seq<Uuid>)
    requires Distinct(ids) && forall id :: id in ids ==> id in db.rows
    ensures OneEach(EventsOf(db, ids))
    ensures forall e :: e in EventsOf(db, ids) ==> e.id in ids && e == EventOf(e.id, db.rows[e.id])
    ensures forall id :: id in ids ==> EventOf(id, db.rows[id]) in EventsOf(db, ids)
  {
    forall id | id in ids ensures EventOf(id, db.rows[id]) in EventsOf(db, ids) {
      var i :| 0 <= i < |ids| && ids[i] == id;
      assert EventsOf(db, ids)[i] == EventOf(id, db.rows[id]);
    }
  }

  lemma ListKeepsSent(cfg: Config, p: Peer, emitted: seq<OutboxEvent>)
    requires PeerOk(cfg, p) && OneEach(emitted)
    requires forall e :: e in emitted ==> ClaimOk(cfg, p.w, e) && e.inflightUntil.Some? && !Suppressed(p.c.sent, p.c.now, e)
                                          && e.inflightUntil.value > p.c.now
    ensures var p' := p.(c := p.c.(sent := Remember(p.c.sent, emitted), out := p.c.out + emitted));
            forall i :: 0 <= i < |p'.c.out| ==> SentOnce(cfg, p', p'.c.out[i])
  {
    var p' := p.(c := p.c.(sent := Remember(p.c.sent, emitted), out := p.c.out + emitted));
    RememberExactly(p.c.sent, emitted);
    hide Remember, ClaimOk, Sound, OneEach, Rising, Emitted;
    forall i | 0 <= i < |p'.c.out| ensures SentOnce(cfg, p', p'.c.out[i]) {
      if i < |p.c.out| {
        assert SentOnce(cfg, p, p.c.out[i]);
      } else {
        assert p'.c.out[i] == emitted[i - |p.c.out|];
      }
    }
  }

  lemma ListKeepsOrigins(sent: map<Uuid, Time>, out: seq<OutboxEvent>, emitted: seq<OutboxEvent>)
    requires OneEach(emitted) && forall e :: e in emitted ==> e.inflightUntil.Some?
    requires forall id :: id in sent ==> Emitted(out, id, sent[id])
    ensures forall id :: id in Remember(sent, emitted) ==> Emitted(out + emitted, id, Remember(sent, emitted)[id])
  {
    var sent' := Remember(sent, emitted);
    RememberExactly(sent, emitted);
    hide Remember, OneEach;
    forall id | id in sent' ensures Emitted(out + emitted, id, sent'[id]) {
      if e :| e in emitted && e.id == id {
        var j :| 0 <= j < |emitted| && emitted[j] == e;
        assert (out + emitted)[|out| + j] == e;
      } else {
        var i :| 0 <= i < |out| && out[i].id == id && out[i].inflightUntil == Some(sent[id]);
        assert (out + emitted)[i] == out[i];
      }
    }
  }

  function EmittedBy(p: Peer, ids: seq<Uuid>): seq<OutboxEvent>
    requires forall id :: id in ids ==> id in p.w.db.rows
  {
    EmittedOf(p.c.sent, p.c.now, EventsOf(p.w.db, ids))
  }

  lemma EmittedAreLeases(cfg: Config, p: Peer, st: PeerStep)
    requires cfg.Positive() && PeerOk(cfg, p) && PeerEnabled(cfg, p, st) && st.List?
    ensures forall id :: id in st.ids ==> id in p.w.db.rows
    ensures OneEach(EmittedBy(p, st.ids))
    ensures forall e :: e in EmittedBy(p, st.ids) ==>
              && e.id in st.ids && e == EventOf(e.id, p.w.db.rows[e.id]) && !Suppressed(p.c.sent, p.c.now, e)
              && ClaimOk(cfg, p.w, e) && e.inflightUntil.Some? && e.inflightUntil.value > p.c.now
  {
    ListedAreStored(cfg, p, st);
    EventsAreOneEach(p.w.db, st.ids);
    EmittedExactly(p.c.sent, p.c.now, EventsOf(p.w.db, st.ids));
    hide PeerOk, PeerEnabled, ClaimOk, Suppressed, EmittedOf, EventsOf, OneEach;
    forall e | e in EmittedBy(p, st.ids) ensures ClaimOk(cfg, p.w, e) && e.inflightUntil.Some? && e.inflightUntil.value > p.c.now {
      ListedEvent(cfg, p, st, e.id);
    }
  }

  lemma AfterList(cfg: Config, p: Peer, st: PeerStep)
    requires cfg.Positive() && PeerEnabled(cfg, p, st) && st.List?
    ensures forall id :: id in st.ids ==> id in p.w.db.rows
    ensures var emitted := EmittedBy(p, st.ids);
            PeerNext(cfg, p, st) == p.(c := p.c.(sent := Remember(p.c.sent, emitted), out := p.c.out + emitted))
  {
  }

  lemma ListKeepsPeer(cfg: Config, p: Peer, st: PeerStep)
    requires cfg.Positive() && PeerOk(cfg, p) && PeerEnabled(cfg, p, st) && st.List?
    ensures PeerOk(cfg, PeerNext(cfg, p, st))
  {
    EmittedAreLeases(cfg, p, st);
    AfterList(cfg, p, st);
    hide PeerEnabled, PeerNext, Sound, SentOnce, Emitted, Rising, EmittedBy, Suppressed, ClaimOk, OneEach, Remember;
    ListKeepsRising(cfg, p, st, EmittedBy(p, st.ids));
    ListKeepsSent(cfg, p, EmittedBy(p, st.ids));
    ListKeepsOrigins(p.c.sent, p.c.out, EmittedBy(p, st.ids));
  }

  lemma PeerStepKeeps(cfg: Config, p: Peer, st: PeerStep)
    requires cfg.Positive() && PeerOk(cfg, p) && PeerEnabled(cfg, p, st)
    ensures PeerOk(cfg, PeerNext(cfg, p, st))
  {
    hide PeerOk;
    match st
    case Worker(s) => WorkerKeepsPeer(cfg, p, s);
    case Begin(now) => BeginKeepsPeer(cfg, p, now);
    case List(at, device, limit, ids) => ListKeepsPeer(cfg, p, st);
  }

  // ---- Runs of the connection among the workers

  ghost predicate PeerStepAt(cfg: Config, steps: seq<PeerStep>, ps: seq<Peer>, i: nat)
    requires cfg.Positive() && i < |steps| && |ps| == |steps| + 1
  {
    PeerEnabled(cfg, ps[i], steps[i]) && ps[i + 1] == PeerNext(cfg, ps[i], steps[i])
  }

  ghost predicate PeerRun(cfg: Config, steps: seq<PeerStep>, ps: seq<Peer>)
    requires cfg.Positive()
  {
    && |ps| == |steps| + 1
    && Initial(ps[0].w) && ps[0].c.sent == map[] && ps[0].c.out == []
    && forall i :: 0 <= i < |steps| ==> PeerStepAt(cfg, steps, ps, i)
  }

  lemma {:induction false} PeerRunKeeps(cfg: Config, steps: seq<PeerStep>, ps: seq<Peer>, n: nat)
    requires cfg.Positive() && PeerRun(cfg, steps, ps) && n < |ps|
    ensures PeerOk(cfg, ps[n])
  {
    hide PeerEnabled, PeerNext;
    if n > 0 {
      PeerRunKeeps(cfg, steps, ps, n - 1);
      assert PeerStepAt(cfg, steps, ps, n - 1);
      hide PeerOk;
      PeerStepKeeps(cfg, ps[n - 1], steps[n - 1]);
    }
  }

  // One connection sends an event out at most once per claim.
  lemma SentOncePerClaim(cfg: Config, steps: seq<PeerStep>, ps: seq<Peer>, n: nat, i: nat, j: nat)
    requires cfg.Positive() && PeerRun(cfg, steps, ps) && n < |ps|
    requires i < j < |ps[n].c.out| && ps[n].c.out[i].id == ps[n].c.out[j].id
    ensures 1 <= ps[n].c.out[i].attempts < ps[n].c.out[j].attempts <= cfg.maxAttempts
  {
    PeerRunKeeps(cfg, steps, ps, n);
    assert SentOnce(cfg, ps[n], ps[n].c.out[i]) && SentOnce(cfg, ps[n], ps[n].c.out[j]);
  }

  function Times(out: seq<OutboxEvent>, id: Uuid): nat {
    if out == [] then 0
    else Times(out[..|out| - 1], id) + if out[|out| - 1].id == id then 1 else 0
  }

  lemma {:induction false} TimesAtMost(out: seq<OutboxEvent>, id: Uuid, limit: nat)
    requires Rising(out) && forall i :: 0 <= i < |out| && out[i].id == id ==> 1 <= out[i].attempts <= limit
    ensures Times(out, id) <= limit
  {
    if out != [] {
      var front, e := out[..|out| - 1], out[|out| - 1];
      assert Rising(front);
      if e.id == id {
        TimesAtMost(front, id, e.attempts - 1);
      } else {
        TimesAtMost(front, id, limit);
      }
    }
  }

  // And at most maxAttempts times ever.
  lemma SentAtMostMaxAttempts(cfg: Config, steps: seq<PeerStep>, ps: seq<Peer>, n: nat, id: Uuid)
    requires cfg.Positive() && PeerRun(cfg, steps, ps) && n < |ps|
    ensures Times(ps[n].c.out, id) <= cfg.maxAttempts
  {
    PeerRunKeeps(cfg, steps, ps, n);
    forall i | 0 <= i < |ps[n].c.out| ensures 1 <= ps[n].c.out[i].attempts <= cfg.maxAttempts {
      assert SentOnce(cfg, ps[n], ps[n].c.out[i]);
    }
    TimesAtMost(ps[n].c.out, id, cfg.maxAttempts);
  }

  // A cache entry later than the row's latest claim is that claim's lease: any entry still in the
  // future is, since no claim has been made in the future.
  lemma FutureEntryIsCurrentLease(cfg: Config, steps: seq<PeerStep>, ps: seq<Peer>, n: nat, id: Uuid)
    requires cfg.Positive() && PeerRun(cfg, steps, ps) && n < |ps|
    requires id in ps[n].c.sent && id in ps[n].w.db.rows && ps[n].w.db.rows[id].status.InFlight?
    ensures ps[n].w.db.rows[id].lastSentAt.Some?
    ensures ps[n].c.sent[id] > ps[n].w.db.rows[id].lastSentAt.value ==>
              ps[n].w.db.rows[id].inflightUntil == Some(ps[n].c.sent[id])
  {
    PeerRunKeeps(cfg, steps, ps, n);
    var p := ps[n];
    assert Emitted(p.c.out, id, p.c.sent[id]);
    var i :| 0 <= i < |p.c.out| && p.c.out[i].id == id && p.c.out[i].inflightUntil == Some(p.c.sent[id]);
    assert SentOnce(cfg, p, p.c.out[i]) && RowsOk(cfg, p.w);
  }

  lemma SuppressedExactly(cfg: Config, p: Peer, e: OutboxEvent)
    requires PeerOk(cfg, p)
    ensures Suppressed(p.c.sent, p.c.now, e) <==> SentUntilLater(p.c, e.id)
  {
    if Suppressed(p.c.sent, p.c.now, e) {
      assert Emitted(p.c.out, e.id, p.c.sent[e.id]);
    }
    if i :| 0 <= i < |p.c.out| && p.c.out[i].id == e.id && p.c.out[i].inflightUntil.Some? && p.c.out[i].inflightUntil.value > p.c.now {
      assert SentOnce(cfg, p, p.c.out[i]);
    }
  }

  // This connection has sent a copy whose lease ends after the pull's own reading.
  ghost predicate SentUntilLater(c: Conn, id: Uuid) {
    exists i :: 0 <= i < |c.out| && c.out[i].id == id && c.out[i].inflightUntil.Some? && c.out[i].inflightUntil.value > c.now
  }

  // A pull sends out exactly the listed events of which it has sent no copy leased beyond its own
  // reading, however much later the list was read.
  lemma PullWithholdsExactly(cfg: Config, steps: seq<PeerStep>, ps: seq<Peer>, n: nat, e: OutboxEvent)
    requires cfg.Positive() && PeerRun(cfg, steps, ps) && n < |steps| && steps[n].List?
    ensures ps[n].c.out <= ps[n + 1].c.out
    ensures e in ps[n + 1].c.out[|ps[n].c.out|..] <==>
            e.id in steps[n].ids && e.id in ps[n].w.db.rows && e == EventOf(e.id, ps[n].w.db.rows[e.id]) && !SentUntilLater(ps[n].c, e.id)
  {
    PeerRunKeeps(cfg, steps, ps, n);
    assert PeerStepAt(cfg, steps, ps, n);
    var p, st := ps[n], steps[n];
    ListedAreStored(cfg, p, st);
    EventsAreOneEach(p.w.db, st.ids);
    EmittedExactly(p.c.sent, p.c.now, EventsOf(p.w.db, st.ids));
    SuppressedExactly(cfg, p, e);
    hide PeerOk, SentUntilLater, Suppressed;
    AfterList(cfg, p, st);
    assert ps[n + 1].c.out[|p.c.out|..] == EmittedBy(p, st.ids);
  }

  // A pull whose readings agree, with room for every row in flight and no claim made after its
  // reading, sends out exactly the events in flight that it has not yet sent in their lease.
  lemma PullSendsTheUnsent(cfg: Config, steps: seq<PeerStep>, ps: seq<Peer>, n: nat, id: Uuid)
    requires cfg.Positive() && PeerRun(cfg, steps, ps) && n < |steps| && steps[n].List?
    requires steps[n].at == ps[n].c.now && |InFlightAt(ps[n].w.db, steps[n].device, steps[n].at)| <= steps[n].limit
    requires id in InFlightAt(ps[n].w.db, steps[n].device, steps[n].at)
    requires ps[n].w.db.rows[id].lastSentAt.Some? ==> ps[n].w.db.rows[id].lastSentAt.value <= ps[n].c.now
    ensures var e := EventOf(id, ps[n].w.db.rows[id]);
            && ps[n].c.out <= ps[n + 1].c.out
            && (e in ps[n + 1].c.out[|ps[n].c.out|..] <==>
                !exists i :: 0 <= i < |ps[n].c.out| && ps[n].c.out[i].id == id && ps[n].c.out[i].attempts == e.attempts)
  {
    PeerRunKeeps(cfg, steps, ps, n);
    assert PeerStepAt(cfg, steps, ps, n);
    UnsentIsUnsuppressed(cfg, ps[n], steps[n], id);
    PullOutput(cfg, ps[n], steps[n], id);
  }

  lemma ListedAll(cfg: Config, p: Peer, st: PeerStep, id: Uuid)
    requires cfg.Positive() && PeerEnabled(cfg, p, st) && st.List?
    requires |InFlightAt(p.w.db, st.device, st.at)| <= st.limit && id in InFlightAt(p.w.db, st.device, st.at)
    ensures id in st.ids
  {
    var pool := InFlightAt(p.w.db, st.device, st.at);
    DistinctCount(st.ids);
    if id !in Elems(st.ids) {
      assert Elems(st.ids) <= pool - {id};
      SubsetCount(Elems(st.ids), pool - {id});
    }
  }

  lemma {:induction false} SubsetCount(a: set<Uuid>, b: set<Uuid>)
    requires a <= b
    ensures |a| <= |b|
  {
    assert |b - a| == |b| - |a|;
  }

  lemma UnsentIsUnsuppressed(cfg: Config, p: Peer, st: PeerStep, id: Uuid)
    requires cfg.Positive() && PeerOk(cfg, p) && PeerEnabled(cfg, p, st) && st.List?
    requires |InFlightAt(p.w.db, st.device, st.at)| <= st.limit && id in InFlightAt(p.w.db, st.device, st.at)
    requires p.w.db.rows[id].lastSentAt.Some? ==> p.w.db.rows[id].lastSentAt.value <= p.c.now
    ensures var e := EventOf(id, p.w.db.rows[id]);
            Suppressed(p.c.sent, p.c.now, e) <==>
            exists i :: 0 <= i < |p.c.out| && p.c.out[i].id == id && p.c.out[i].attempts == e.attempts
  {
    ListedAll(cfg, p, st, id);
    ListedEvent(cfg, p, st, id);
    var e := EventOf(id, p.w.db.rows[id]);
    if Suppressed(p.c.sent, p.c.now, e) {
      assert Emitted(p.c.out, id, p.c.sent[id]);
      var i :| 0 <= i < |p.c.out| && p.c.out[i].id == id && p.c.out[i].inflightUntil == Some(p.c.sent[id]);
      assert SentOnce(cfg, p, p.c.out[i]);
    }
  }

  lemma PullOutput(cfg: Config, p: Peer, st: PeerStep, id: Uuid)
    requires cfg.Positive() && PeerEnabled(cfg, p, st) && st.List?
    requires |InFlightAt(p.w.db, st.device, st.at)| <= st.limit && id in InFlightAt(p.w.db, st.device, st.at)
    ensures var e, out' := EventOf(id, p.w.db.rows[id]), PeerNext(cfg, p, st).c.out;
            p.c.out <= out' && (e in out'[|p.c.out|..] <==> !Suppressed(p.c.sent, p.c.now, e))
  {
    ListedAll(cfg, p, st, id);
    ListedAreStored(cfg, p, st);
    EventsAreOneEach(p.w.db, st.ids);
    EmittedExactly(p.c.sent, p.c.now, EventsOf(p.w.db, st.ids));
    assert PeerNext(cfg, p, st).c.out[|p.c.out|..] == EmittedOf(p.c.sent, p.c.now, EventsOf(p.w.db, st.ids));
  }
}
