/** Acknowledgements converge: repeating or reordering them ends in the same tables. */
module OutboxAcks {
  import opened OutboxTypes
  import opened OutboxSteps
  import opened OutboxInvariant
  import opened Wrappers

  ghost predicate DistinctStamps(db: Db, k: SegKey) {
    forall x, y :: db.LiveIn(k, x) && db.LiveIn(k, y) && db.rows[x].createdAt == db.rows[y].createdAt ==> x == y
  }

  // In the segment of the row, if there is one.
  ghost predicate DistinctFor(db: Db, id: Uuid) {
    id in db.rows ==> DistinctStamps(db, db.rows[id].Key())
  }

  // What an ack was given and what the database answered it.
  datatype Ack = Ack(id: Uuid, device: DeviceId, segment: SegmentId)

  function Apply(db: Db, now: Time, a: Ack, next: Option<Uuid>): Db {
    AckDb(db, now, a.id, a.device, a.segment, next)
  }

  ghost predicate Answers(db: Db, now: Time, a: Ack, next: Option<Uuid>) {
    a.id in db.rows ==> MayFollow(db, db.rows[a.id].Key(), now, a.id, next)
  }

  // An ack of an unknown id, for another device, for another segment, or of a row already acked changes nothing.
  lemma MissesChangeNothing(db: Db, now: Time, a: Ack, next: Option<Uuid>)
    ensures (a.id !in db.rows || db.rows[a.id].device != a.device
             || (a.segment != "" && db.rows[a.id].segment != a.segment) || db.rows[a.id].status.Acked?)
            <==> Apply(db, now, a, next) == db
  {
  }

  // The same ack again, at any time and with any answer, changes nothing more.
  lemma AckIsIdempotent(db: Db, now: Time, later: Time, a: Ack, next: Option<Uuid>, again: Option<Uuid>)
    ensures Apply(Apply(db, now, a, next), later, a, again) == Apply(db, now, a, next)
  {
  }

  lemma AnswerIsUnique(db: Db, db': Db, k: SegKey, now: Time, a: Uuid, b: Uuid, x: Option<Uuid>, y: Option<Uuid>)
    requires MayFollow(db, k, now, a, x) && MayFollow(db', k, now, b, y)
    requires Successors(db, k, now, a) == Successors(db', k, now, b)
    requires forall id :: id in Successors(db, k, now, a) ==> db.rows[id] == db'.rows[id]
    requires DistinctStamps(db, k)
    ensures x == y
  {
  }

  function Settle(rows: map<Uuid, Row>, id: Uuid, now: Time): map<Uuid, Row>
    requires id in rows
  {
    rows[id := rows[id].(status := Acked, ackedAt := Some(now))]
  }

  lemma SettleCommutes(rows: map<Uuid, Row>, a: Uuid, b: Uuid, now: Time)
    requires a != b && a in rows && b in rows
    ensures a in Settle(rows, b, now) && b in Settle(rows, a, now)
    ensures Settle(Settle(rows, a, now), b, now) == Settle(Settle(rows, b, now), a, now)
    ensures Settle(rows, a, now)[b] == rows[b] && Settle(rows, b, now)[a] == rows[a]
  {
  }

  lemma SetHeadCommutes(segs: map<SegKey, Seg>, j: SegKey, k: SegKey, x: Seg, y: Seg)
    requires j != k
    ensures segs[j := x][k := y] == segs[k := y][j := x]
  {
  }

  // Only the acked row changes, and its segment's pointers only if it was the head. It is no
  // successor afterwards, and every other row is as much one as before.
  lemma AckEffect(db: Db, now: Time, a: Ack, next: Option<Uuid>)
    requires AllPointed(db) && AckHits(db, a.id, a.device, a.segment) && Answers(db, now, a, next)
    ensures var db', k := Apply(db, now, a, next), db.rows[a.id].Key();
            && AllPointed(db')
            && db'.rows == Settle(db.rows, a.id, now)
            && db'.segs == if db.Head(k) == Some(a.id) then db.segs[k := Seg(next, None)] else db.segs
    ensures forall k, x :: Successors(Apply(db, now, a, next), k, now, x) == Successors(db, k, now, x) - {a.id}
    ensures forall k :: DistinctStamps(db, k) ==> DistinctStamps(Apply(db, now, a, next), k)
    ensures forall b: Ack :: b.id != a.id ==>
              AckHits(Apply(db, now, a, next), b.id, b.device, b.segment) == AckHits(db, b.id, b.device, b.segment)
  {
    assert Pointed(db, db.rows[a.id].Key());
    AckKeepsAll(db, now, a.id, a.device, a.segment, next);
  }

  // The successor when a and b are both acked, with a the head: found before b was, or after.
  lemma SameHeadEitherWay(db: Db, now: Time, a: Ack, b: Ack,
                          a1: Option<Uuid>, b2: Option<Uuid>, b1: Option<Uuid>, a2: Option<Uuid>)
    requires AllPointed(db) && a.id != b.id && AckHits(db, a.id, a.device, a.segment)
    requires AckHits(db, b.id, b.device, b.segment)
    requires db.rows[a.id].Key() == db.rows[b.id].Key() && DistinctStamps(db, db.rows[a.id].Key())
    requires Answers(db, now, a, a1) && Answers(Apply(db, now, a, a1), now, b, b2)
    requires Answers(db, now, b, b1) && Answers(Apply(db, now, b, b1), now, a, a2)
    ensures a2 == if a1 == Some(b.id) then b2 else a1
  {
    var k := db.rows[a.id].Key();
    var da, dc := Apply(db, now, a, a1), Apply(db, now, b, b1);
    AckEffect(db, now, a, a1);
    AckEffect(db, now, b, b1);
    hide AllPointed, Apply, AckHits;
    assert Successors(da, k, now, b.id) == Successors(dc, k, now, a.id);
    if a1 == Some(b.id) {
      AnswerIsUnique(da, dc, k, now, b.id, a.id, b2, a2);
    } else {
      SameAnswerWithout(db, dc, k, now, a.id, b.id, a1, a2);
    }
  }

  // Taking a row that was not the answer out of the running leaves the answer.
  lemma SameAnswerWithout(db: Db, db': Db, k: SegKey, now: Time, a: Uuid, b: Uuid, x: Option<Uuid>, y: Option<Uuid>)
    requires MayFollow(db, k, now, a, x) && MayFollow(db', k, now, a, y) && x != Some(b) && DistinctStamps(db, k)
    requires Successors(db', k, now, a) == Successors(db, k, now, a) - {b}
    requires forall id :: id in Successors(db', k, now, a) ==> db.rows[id] == db'.rows[id]
    ensures x == y
  {
  }

  lemma AcksOfOneSegmentCommute(db: Db, now: Time, a: Ack, b: Ack,
                                a1: Option<Uuid>, b2: Option<Uuid>, b1: Option<Uuid>, a2: Option<Uuid>)
    requires AllPointed(db) && a.id != b.id && AckHits(db, a.id, a.device, a.segment)
    requires AckHits(db, b.id, b.device, b.segment)
    requires db.rows[a.id].Key() == db.rows[b.id].Key() && DistinctStamps(db, db.rows[a.id].Key())
    requires db.Head(db.rows[a.id].Key()) != Some(b.id)
    requires Answers(db, now, a, a1) && Answers(Apply(db, now, a, a1), now, b, b2)
    requires Answers(db, now, b, b1) && Answers(Apply(db, now, b, b1), now, a, a2)
    ensures Apply(Apply(db, now, a, a1), now, b, b2) == Apply(Apply(db, now, b, b1), now, a, a2)
  {
    var da, dc := Apply(db, now, a, a1), Apply(db, now, b, b1);
    SettleCommutes(db.rows, a.id, b.id, now);
    hide AllPointed, Apply, AckHits, Answers, DistinctStamps, Successors, Settle;
    AckEffect(db, now, a, a1);
    AckEffect(db, now, b, b1);
    AckEffect(da, now, b, b2);
    AckEffect(dc, now, a, a2);
    SameHeadEitherWay(db, now, a, b, a1, b2, b1, a2);
  }

  lemma SameAnswerElsewhere(db: Db, now: Time, a: Ack, b: Ack, a1: Option<Uuid>, b1: Option<Uuid>, b2: Option<Uuid>)
    requires AllPointed(db) && AckHits(db, a.id, a.device, a.segment) && AckHits(db, b.id, b.device, b.segment)
    requires db.rows[a.id].Key() != db.rows[b.id].Key() && DistinctStamps(db, db.rows[b.id].Key())
    requires Answers(db, now, a, a1) && Answers(Apply(db, now, a, a1), now, b, b2) && Answers(db, now, b, b1)
    ensures b1 == b2
  {
    var k := db.rows[b.id].Key();
    AckEffect(db, now, a, a1);
    assert Successors(Apply(db, now, a, a1), k, now, b.id) == Successors(db, k, now, b.id);
    hide AllPointed, Apply, AckHits;
    AnswerIsUnique(db, Apply(db, now, a, a1), k, now, b.id, b.id, b1, b2);
  }

  lemma AcksOfTwoSegmentsCommute(db: Db, now: Time, a: Ack, b: Ack,
                                 a1: Option<Uuid>, b2: Option<Uuid>, b1: Option<Uuid>, a2: Option<Uuid>)
    requires AllPointed(db) && AckHits(db, a.id, a.device, a.segment) && AckHits(db, b.id, b.device, b.segment)
    requires db.rows[a.id].Key() != db.rows[b.id].Key()
    requires DistinctStamps(db, db.rows[a.id].Key()) && DistinctStamps(db, db.rows[b.id].Key())
    requires Answers(db, now, a, a1) && Answers(Apply(db, now, a, a1), now, b, b2)
    requires Answers(db, now, b, b1) && Answers(Apply(db, now, b, b1), now, a, a2)
    ensures Apply(Apply(db, now, a, a1), now, b, b2) == Apply(Apply(db, now, b, b1), now, a, a2)
  {
    var da, dc := Apply(db, now, a, a1), Apply(db, now, b, b1);
    SettleCommutes(db.rows, a.id, b.id, now);
    SetHeadCommutes(db.segs, db.rows[a.id].Key(), db.rows[b.id].Key(), Seg(a1, None), Seg(b1, None));
    SameAnswerElsewhere(db, now, a, b, a1, b1, b2);
    SameAnswerElsewhere(db, now, b, a, b1, a1, a2);
    hide AllPointed, Apply, AckHits, Answers, DistinctStamps, Successors, Settle;
    AckEffect(db, now, a, a1);
    AckEffect(db, now, b, b1);
    AckEffect(da, now, b, b2);
    AckEffect(dc, now, a, a2);
  }

  // Two acks that reach the same row, or one ack answered twice.
  lemma SameRowSameEffect(db: Db, now: Time, a: Ack, b: Ack, x: Option<Uuid>, y: Option<Uuid>)
    requires AllPointed(db) && a.id == b.id && Answers(db, now, a, x) && Answers(db, now, b, y)
    requires AckHits(db, a.id, a.device, a.segment) && AckHits(db, b.id, b.device, b.segment)
    requires DistinctStamps(db, db.rows[a.id].Key())
    ensures Apply(db, now, a, x) == Apply(db, now, b, y)
  {
  }

  lemma OneMissCommutes(db: Db, now: Time, a: Ack, b: Ack, b2: Option<Uuid>, b1: Option<Uuid>, a2: Option<Uuid>)
    requires AllPointed(db) && DistinctFor(db, b.id) && !AckHits(db, a.id, a.device, a.segment)
    requires Answers(db, now, b, b2) && Answers(db, now, b, b1)
    ensures Apply(db, now, b, b2) == Apply(Apply(db, now, b, b1), now, a, a2)
  {
    if AckHits(db, b.id, b.device, b.segment) {
      SameRowSameEffect(db, now, b, b, b2, b1);
    }
  }

  // Two acks at one instant, in either order, leave the same rows, heads and in-flight pointers.
  lemma AcksCommute(db: Db, now: Time, a: Ack, b: Ack,
                    a1: Option<Uuid>, b2: Option<Uuid>, b1: Option<Uuid>, a2: Option<Uuid>)
    requires AllPointed(db) && DistinctFor(db, a.id) && DistinctFor(db, b.id)
    requires Answers(db, now, a, a1) && Answers(Apply(db, now, a, a1), now, b, b2)
    requires Answers(db, now, b, b1) && Answers(Apply(db, now, b, b1), now, a, a2)
    ensures Apply(Apply(db, now, a, a1), now, b, b2) == Apply(Apply(db, now, b, b1), now, a, a2)
  {
    if !AckHits(db, a.id, a.device, a.segment) {
      OneMissCommutes(db, now, a, b, b2, b1, a2);
    } else if !AckHits(db, b.id, b.device, b.segment) {
      OneMissCommutes(db, now, b, a, a2, a1, b2);
    } else if a.id == b.id {
      SameRowSameEffect(db, now, a, b, a1, b1);
    } else if db.rows[a.id].Key() != db.rows[b.id].Key() {
      AcksOfTwoSegmentsCommute(db, now, a, b, a1, b2, b1, a2);
    } else if db.Head(db.rows[a.id].Key()) != Some(b.id) {
      AcksOfOneSegmentCommute(db, now, a, b, a1, b2, b1, a2);
    } else {
      AcksOfOneSegmentCommute(db, now, b, a, b1, a2, a1, b2);
    }
  }
}
