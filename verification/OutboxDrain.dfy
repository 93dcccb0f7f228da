/** Dispatching again and again at one instant drains the heads that were due, each exactly once. */
module OutboxDrain {
  import opened OutboxTypes
  import opened OutboxSteps
  import opened OutboxInvariant
  import opened OutboxPromises
  import opened Selection
  import opened Wrappers

  // A claimed head is no longer due at the same instant, and no other head is affected.
  lemma ClaimShrinksDue(db: Db, batch: seq<SegKey>, now: Time, cfg: Config)
    requires AllPointed(db) && cfg.Positive() && Elems(batch) <= DueHeads(db, now)
    ensures forall k :: k in batch ==> HasHead(db, k)
    ensures DueHeads(ClaimDb(db, batch, now, cfg), now) == DueHeads(db, now) - Elems(batch)
    ensures forall k :: k in DueHeads(db, now) - Elems(batch) ==>
              HasHead(ClaimDb(db, batch, now, cfg), k) && HeadRow(ClaimDb(db, batch, now, cfg), k) == HeadRow(db, k)
  {
    forall k | k in batch ensures HasHead(db, k) && HeadDue(db, k, now) {
      assert k in Elems(batch);
    }
    var db' := ClaimDb(db, batch, now, cfg);
    forall k
      ensures k in DueHeads(db', now) <==> k in DueHeads(db, now) && k !in batch
      ensures k in DueHeads(db, now) && k !in batch ==> HasHead(db', k) && HeadRow(db', k) == HeadRow(db, k)
    {
      assert Pointed(db, k);
    }
  }

  // dbs are the tables between calls of ClaimPending, all made at the instant now.
  ghost predicate Dispatches(cfg: Config, now: Time, dbs: seq<Db>, batches: seq<seq<SegKey>>)
    requires cfg.Positive()
  {
    && |dbs| == |batches| + 1
    && forall i :: 0 <= i < |batches| ==> DispatchAt(cfg, now, dbs, batches, i)
  }

  ghost predicate DispatchAt(cfg: Config, now: Time, dbs: seq<Db>, batches: seq<seq<SegKey>>, i: nat)
    requires cfg.Positive() && i < |batches| && |dbs| == |batches| + 1
  {
    && DueHeads(dbs[i], now) <= HeadStamps(dbs[i]).Keys
    && IsSelection(DueHeads(dbs[i], now), HeadStamps(dbs[i]), cfg.batchSize, batches[i])
    && (forall k :: k in batches[i] ==> HasHead(dbs[i], k))
    && dbs[i + 1] == ClaimDb(dbs[i], batches[i], now, cfg)
  }

  lemma SelectionBySameStamps<K(!new)>(pool: set<K>, a: map<K, int>, b: map<K, int>, limit: nat, out: seq<K>)
    requires pool <= a.Keys && pool <= b.Keys && forall k :: k in pool ==> a[k] == b[k]
    requires IsSelection(pool, a, limit, out)
    ensures IsSelection(pool, b, limit, out)
  {
  }

  function Limits(cfg: Config, n: nat): (ls: seq<nat>)
    requires cfg.Positive()
    ensures |ls| == n
    ensures Total(ls) == n * cfg.batchSize
  {
    if n == 0 then [] else [cfg.batchSize] + Limits(cfg, n - 1)
  }

  lemma LimitsTail(cfg: Config, n: nat)
    requires cfg.Positive() && n > 0
    ensures Limits(cfg, n)[0] == cfg.batchSize && Limits(cfg, n)[1..] == Limits(cfg, n - 1)
  {
  }

  // stamp orders the due heads the way the tables do.
  ghost predicate Orders(stamp: map<SegKey, Time>, db: Db, now: Time) {
    forall k :: k in DueHeads(db, now) ==> k in stamp && stamp[k] == HeadRow(db, k).createdAt
  }

  lemma FirstRound(cfg: Config, now: Time, dbs: seq<Db>, batches: seq<seq<SegKey>>, stamp: map<SegKey, Time>)
    requires cfg.Positive() && Dispatches(cfg, now, dbs, batches) && batches != [] && AllPointed(dbs[0])
    requires Orders(stamp, dbs[0], now)
    ensures AllPointed(dbs[1]) && Orders(stamp, dbs[1], now)
    ensures DueHeads(dbs[0], now) <= stamp.Keys && IsSelection(DueHeads(dbs[0], now), stamp, cfg.batchSize, batches[0])
    ensures DueHeads(dbs[1], now) == DueHeads(dbs[0], now) - Elems(batches[0])
  {
    assert DispatchAt(cfg, now, dbs, batches, 0);
    ClaimShrinksDue(dbs[0], batches[0], now, cfg);
    ClaimKeepsAll(dbs[0], batches[0], now, cfg);
    hide ClaimDb, AllPointed, IsSelection;
    SelectionBySameStamps(DueHeads(dbs[0], now), HeadStamps(dbs[0]), stamp, cfg.batchSize, batches[0]);
  }

  lemma LaterRounds(cfg: Config, now: Time, dbs: seq<Db>, batches: seq<seq<SegKey>>)
    requires cfg.Positive() && Dispatches(cfg, now, dbs, batches) && batches != []
    ensures Dispatches(cfg, now, dbs[1..], batches[1..])
  {
    forall i | 0 <= i < |batches| - 1 ensures DispatchAt(cfg, now, dbs[1..], batches[1..], i) {
      assert DispatchAt(cfg, now, dbs, batches, i + 1);
    }
  }

  lemma {:induction false} DispatchesAreRounds(cfg: Config, now: Time, dbs: seq<Db>, batches: seq<seq<SegKey>>,
      stamp: map<SegKey, Time>)
    requires cfg.Positive() && Dispatches(cfg, now, dbs, batches) && AllPointed(dbs[0]) && Orders(stamp, dbs[0], now)
    ensures DueHeads(dbs[0], now) <= stamp.Keys
    ensures Rounds(DueHeads(dbs[0], now), stamp, Limits(cfg, |batches|), batches)
    ensures DueHeads(dbs[|batches|], now) == DueHeads(dbs[0], now) - Elems(Flatten(batches))
    decreases |batches|
  {
    if batches != [] {
      FirstRound(cfg, now, dbs, batches, stamp);
      LaterRounds(cfg, now, dbs, batches);
      LimitsTail(cfg, |batches|);
      ElemsJoin(batches[0], Flatten(batches[1..]));
      hide Orders, AllPointed, DueHeads, IsSelection, Dispatches, DispatchAt, Limits, Elems;
      DispatchesAreRounds(cfg, now, dbs[1..], batches[1..], stamp);
    }
  }

  // n dispatches at one instant claim the n * batchSize oldest due heads, oldest first and none
  // twice, and leave due exactly the rest.
  lemma DispatchesTakeOldestFirst(cfg: Config, now: Time, dbs: seq<Db>, batches: seq<seq<SegKey>>)
    requires cfg.Positive() && Dispatches(cfg, now, dbs, batches) && AllPointed(dbs[0])
    ensures DueHeads(dbs[0], now) <= HeadStamps(dbs[0]).Keys
    ensures IsSelection(DueHeads(dbs[0], now), HeadStamps(dbs[0]), |batches| * cfg.batchSize, Flatten(batches))
    ensures DueHeads(dbs[|batches|], now) == DueHeads(dbs[0], now) - Elems(Flatten(batches))
    ensures |DueHeads(dbs[|batches|], now)| == |DueHeads(dbs[0], now)| - Min(|batches| * cfg.batchSize, |DueHeads(dbs[0], now)|)
  {
    DueAreStamped(dbs[0], now);
    var due, stamp := DueHeads(dbs[0], now), HeadStamps(dbs[0]);
    DispatchesAreRounds(cfg, now, dbs, batches, stamp);
    RoundsAreOneSelection(due, stamp, Limits(cfg, |batches|), batches);
    DistinctCount(Flatten(batches));
  }

  // A dispatch finds nothing left exactly when the earlier ones had room for every due head.
  lemma DrainedAfterEnoughDispatches(cfg: Config, now: Time, dbs: seq<Db>, batches: seq<seq<SegKey>>)
    requires cfg.Positive() && Dispatches(cfg, now, dbs, batches) && AllPointed(dbs[0])
    ensures DueHeads(dbs[|batches|], now) == {} <==> |batches| * cfg.batchSize >= |DueHeads(dbs[0], now)|
    ensures DueHeads(dbs[|batches|], now) == {} ==> Elems(Flatten(batches)) == DueHeads(dbs[0], now)
  {
    DispatchesTakeOldestFirst(cfg, now, dbs, batches);
    var due, left := DueHeads(dbs[0], now), DueHeads(dbs[|batches|], now);
    assert left == {} <==> |left| == 0;
  }

  // Dispatches with room for every segment leave no head that is expired, due, or past its lease.
  lemma OnlyWaitingHeadsRemain(cfg: Config, now: Time, dbs: seq<Db>, batches: seq<seq<SegKey>>)
    requires cfg.Positive() && Dispatches(cfg, now, dbs, batches) && AllPointed(dbs[0])
    requires |batches| * cfg.batchSize >= |dbs[0].segs|
    ensures var db := dbs[|batches|];
            forall k, e :: k in db.segs && db.segs[k].head == Some(e) && e in db.rows ==>
              && now < db.rows[e].expiresAt
              && (db.rows[e].status == Pending ==> now < db.rows[e].sendAfter)
              && (db.rows[e].status == InFlight && db.rows[e].inflightUntil.Some? ==> now < db.rows[e].inflightUntil.value)
  {
    hide AllPointed;
    var due, segs, last := DueHeads(dbs[0], now), dbs[0].segs.Keys, dbs[|batches|];
    assert due <= segs && |segs| == |due| + |segs - due|;
    DrainedAfterEnoughDispatches(cfg, now, dbs, batches);
    assert DueHeads(last, now) == {};
    hide DueHeads, Dispatches;
    forall k, e | k in last.segs && last.segs[k].head == Some(e) && e in last.rows ensures Waits(last.rows[e], now) {
      DueIsNotWaiting(last, k, e, now);
    }
  }
}
