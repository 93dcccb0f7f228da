/** The outbox service over the store and the bus, and the pull that connections make through it. */
module OutboxService {
  import opened OutboxTypes
  import opened OutboxSteps
  import opened OutboxInvariant
  import opened OutboxPromises
  import opened OutboxRuns
  import opened OutboxStore
  import opened Connection
  import opened EventBus
  import opened Selection
  import opened Wakeups
  import opened Wrappers

  const MILLISECOND := 1_000_000
  const SECOND := 1000 * MILLISECOND
  const MINUTE := 60 * SECOND
  const HOUR := 60 * MINUTE

  datatype Settings = Settings(
    pollInterval: int,
    batchSizeSegments: int,
    ackTimeout: int,
    maxAttempts: int,
    janitorInterval: int,
    deleteBatchSize: int,
    ackRetention: int,
    dropRetention: int)
  {
    function Claiming(): Config {
      Config(batchSizeSegments, ackTimeout, maxAttempts)
    }
  }

  datatype Outcome = Handled | InvalidEventId | InvalidDeviceId

  class Service {
    const cfg: Settings
    const store: Store
    const bus: Bus

    ghost predicate Valid()
      reads this, store, bus
    {
      AllPointed(store.Tables()) && bus.Valid() && cfg.Claiming().Positive()
      && cfg.deleteBatchSize > 0 && cfg.ackRetention > 0 && cfg.dropRetention > 0
    }

    // Each setting that is positive is kept in its place and each other one replaced, in nanoseconds
    // where it is a time, so that a service always runs with positive parameters.
    constructor (given: Settings, store: Store, bus: Bus)
      requires AllPointed(store.Tables()) && bus.Valid()
      ensures Valid() && this.store == store && this.bus == bus
      ensures cfg.pollInterval == if given.pollInterval > 0 then given.pollInterval else 300_000_000
      ensures cfg.batchSizeSegments == if given.batchSizeSegments > 0 then given.batchSizeSegments else 32
      ensures cfg.ackTimeout == if given.ackTimeout > 0 then given.ackTimeout else 15_000_000_000
      ensures cfg.maxAttempts == if given.maxAttempts > 0 then given.maxAttempts else 5
      ensures cfg.janitorInterval == if given.janitorInterval > 0 then given.janitorInterval else 120_000_000_000
      ensures cfg.deleteBatchSize == if given.deleteBatchSize > 0 then given.deleteBatchSize else 500
      ensures cfg.ackRetention == if given.ackRetention > 0 then given.ackRetention else 86_400_000_000_000
      ensures cfg.dropRetention == if given.dropRetention > 0 then given.dropRetention else 86_400_000_000_000
    {
      cfg := Settings(
        if given.pollInterval <= 0 then 300 * MILLISECOND else given.pollInterval,
        if given.batchSizeSegments <= 0 then 32 else given.batchSizeSegments,
        if given.ackTimeout <= 0 then 15 * SECOND else given.ackTimeout,
        if given.maxAttempts <= 0 then 5 else given.maxAttempts,
        if given.janitorInterval <= 0 then 2 * MINUTE else given.janitorInterval,
        if given.deleteBatchSize <= 0 then 500 else given.deleteBatchSize,
        if given.ackRetention <= 0 then 24 * HOUR else given.ackRetention,
        if given.dropRetention <= 0 then 24 * HOUR else given.dropRetention);
      this.store, this.bus := store, bus;
    }

    // One claim, then one notification for every event it returned.
    method DispatchOnce(now: Time) returns (count: nat, ghost batch: seq<SegKey>, ghost events: seq<OutboxEvent>)
      requires Valid()
      modifies store, bus
      ensures Valid() && (old(WellFormed(store.Tables())) ==> WellFormed(store.Tables()))
      ensures DueHeads(old(store.Tables()), now) <= HeadStamps(old(store.Tables())).Keys
      ensures IsSelection(DueHeads(old(store.Tables()), now), HeadStamps(old(store.Tables())), cfg.batchSizeSegments, batch)
      ensures forall k :: k in batch ==> HasHead(old(store.Tables()), k)
      ensures store.Tables() == ClaimDb(old(store.Tables()), batch, now, cfg.Claiming())
      ensures events == ClaimEvents(old(store.Tables()), batch, now, cfg.Claiming()) && count == |events|
      ensures var c := Config(cfg.batchSizeSegments, cfg.ackTimeout, cfg.maxAttempts);
              && ClaimsAsPromised(old(store.Tables()), store.Tables(), batch, now, c)
              && (|batch| < c.batchSize || c.batchSize >= |old(store.segs)| ==>
                    AllTakenUp(old(store.Tables()), store.Tables(), now, c))
              && TellsOfLeases(store.Tables(), batch, events)
      ensures GrewByNotifications(old(bus.log), bus.log, events)
      ensures LeasesAreAnnounced(old(store.Tables()), store.Tables(), bus.log)
      ensures forall s: System :: s.w.db == old(store.Tables()) && s.bus == old(bus.log) ==>
                IsDispatch(cfg.Claiming(), s, now, batch, store.Tables(), bus.log)
    {
      hide ClaimDb, ClaimEvents, IsSelection, AllPointed, WellFormed, DueHeads, HeadStamps, HasHead;
      hide ClaimsAsPromised, TellsOfLeases, AllTakenUp, LeasesAreAnnounced, IsDispatch;
      ghost var before, log := store.Tables(), bus.log;
      var claimed;
      claimed, batch := store.ClaimPending(now, cfg.Claiming());
      events := claimed;
      ghost var tables := store.Tables();
      for i := 0 to |claimed|
        invariant bus.Valid() && store.Tables() == tables
        invariant GrewByNotifications(log, bus.log, claimed[..i])
      {
        bus.NotifyKey(claimed[i].key.device);
      }
      assert claimed[..|claimed|] == claimed;
      count := |claimed|;
      DispatchAnnounces(before, tables, batch, now, cfg.Claiming(), events, log, bus.log);
      forall s: System | s.w.db == before && s.bus == log
        ensures IsDispatch(cfg.Claiming(), s, now, batch, tables, bus.log)
      {
        ChosenIsEnabled(cfg.Claiming(), s.w, now, batch);
        DispatchIsMoves(cfg.Claiming(), s, now, batch, bus.log);
      }
    }

    method ListInflight(device: DeviceId, now: Time, limit: int)
        returns (r: Outcome, events: seq<OutboxEvent>, ghost ids: seq<Uuid>)
      requires Valid()
      ensures device == "" ==> r == InvalidDeviceId && events == []
      ensures device != "" ==>
                && r == Handled
                && IsSelection(InFlightAt(store.Tables(), device, now), RowStamps(store.Tables()),
                               if limit <= 0 then cfg.batchSizeSegments else limit, ids)
                && (forall id :: id in ids ==> id in store.rows)
                && events == EventsOf(store.Tables(), ids)
                && ListsAsPromised(store.Tables(), device, now, if limit > 0 then limit else cfg.batchSizeSegments, events)
    {
      hide ListsAsPromised;
      if device == "" {
        return InvalidDeviceId, [], [];
      }
      r := Handled;
      events, ids := store.ListInflight(device, now, if limit <= 0 then cfg.batchSizeSegments else limit);
    }

    // An ack wakes the device's loops even when it changed nothing.
    method Acknowledge(now: Time, id: Uuid, device: DeviceId, segment: SegmentId)
        returns (r: Outcome, ghost next: Option<Uuid>)
      requires Valid()
      modifies store, bus
      ensures Valid() && (old(WellFormed(store.Tables())) ==> WellFormed(store.Tables()))
      ensures r == if id.Nil? then InvalidEventId else if device == "" then InvalidDeviceId else Handled
      ensures !r.Handled? ==> store.Tables() == old(store.Tables()) && bus.log == old(bus.log)
      ensures r.Handled? ==>
                && (id in old(store.rows) ==> MayFollow(old(store.Tables()), old(store.rows[id].Key()), now, id, next))
                && store.Tables() == AckDb(old(store.Tables()), now, id, device, segment, next)
                && AcksAsPromised(old(store.Tables()), store.Tables(), now, id, device, segment)
                && bus.log == old(bus.log) + [Notified(device)]
    {
      hide AcksAsPromised;
      next := None;
      if id.Nil? {
        return InvalidEventId, next;
      }
      if device == "" {
        return InvalidDeviceId, next;
      }
      next := store.AcknowledgeOutbox(now, id, device, segment);
      bus.NotifyKey(device);
      r := Handled;
    }

    // One round of the janitor, run by itself.
    method SweepOnce(now: Time) returns (ghost batch: seq<SegKey>, ghost acked: seq<Uuid>, ghost dropped: seq<Uuid>)
      requires Valid()
      modifies store
      ensures Valid() && (old(WellFormed(store.Tables())) ==> WellFormed(store.Tables()))
      ensures ExpiredHeads(old(store.Tables()), now) <= HeadStamps(old(store.Tables())).Keys
      ensures IsSelection(ExpiredHeads(old(store.Tables()), now), HeadStamps(old(store.Tables())), cfg.batchSizeSegments, batch)
      ensures forall k :: k in batch ==> HasHead(old(store.Tables()), k)
      ensures var swept := DropAll(old(store.Tables()), batch);
              var thinned := DeleteDb(swept, acked);
              && IsSelection(Purgeable(swept, Acked, now - cfg.ackRetention), RowStamps(swept), cfg.deleteBatchSize, acked)
              && IsSelection(Purgeable(thinned, Dropped, now - cfg.dropRetention), RowStamps(thinned), cfg.deleteBatchSize, dropped)
              && store.Tables() == DeleteDb(thinned, dropped)
              && DropsAsPromised(old(store.Tables()), swept, batch, now, cfg.batchSizeSegments)
              && (|batch| < cfg.batchSizeSegments || cfg.batchSizeSegments >= |old(store.segs)| ==>
                    NoExpiredHeads(old(store.Tables()), swept, now))
              && PurgesAsPromised(swept, thinned, Acked, now - cfg.ackRetention, cfg.deleteBatchSize, acked)
              && PurgesAsPromised(thinned, store.Tables(), Dropped, now - cfg.dropRetention, cfg.deleteBatchSize, dropped)
    {
      hide DropsAsPromised, NoExpiredHeads, PurgesAsPromised;
      hide AllPointed, WellFormed, IsSelection, DropAll, DeleteDb, ExpiredHeads, HeadStamps, HasHead, Purgeable, RowStamps;
      var count;
      count, batch := store.DropExpiredHeads(now, cfg.batchSizeSegments);
      count, acked := store.DeleteTerminal(Acked, now - cfg.ackRetention, cfg.deleteBatchSize);
      count, dropped := store.DeleteTerminal(Dropped, now - cfg.dropRetention, cfg.deleteBatchSize);
    }
  }

  const PULL_LIMIT := 128

  class ClientConnection {
    var sent: map<Uuid, Time>

    constructor ()
      ensures sent == map[]
    {
      sent := map[];
    }

    method Purge(now: Time)
      modifies this
      ensures sent == PurgeSent(old(sent), now)
      ensures forall id :: id in sent <==> id in old(sent) && now < old(sent)[id]
      ensures forall id :: id in sent ==> sent[id] == old(sent)[id]
    {
      var ids := sent.Keys;
      while ids != {}
        invariant sent.Keys <= old(sent).Keys && ids <= sent.Keys
        invariant forall id :: id in old(sent) && id !in ids ==> (id in sent <==> old(sent)[id] > now)
        invariant forall id :: id in sent ==> sent[id] == old(sent)[id]
        decreases ids
      {
        var id :| id in ids;
        if sent[id] <= now {
          sent := sent - {id};
        }
        ids := ids - {id};
      }
    }

    // The loop over the listed events: what it sends out, and what it then remembers.
    method Emit(now: Time, events: seq<OutboxEvent>) returns (packets: seq<OutboxEvent>)
      requires OneEach(events)
      modifies this
      ensures packets == EmittedOf(old(sent), now, events)
      ensures sent == Remember(old(sent), packets)
      ensures SendsTheRest(old(sent), now, events, packets) && KeepsInMind(old(sent), sent, packets)
    {
      packets := [];
      for i := 0 to |events|
        invariant packets == EmittedOf(old(sent), now, events[..i])
        invariant sent == Remember(old(sent), packets)
      {
        var e := events[i];
        assert events[..i + 1][..i] == events[..i];
        NotRememberedBefore(old(sent), now, events[..i], e);
        if !Suppressed(sent, now, e) {
          packets := packets + [e];
          assert packets[..|packets| - 1] == EmittedOf(old(sent), now, events[..i]);
          if e.inflightUntil.Some? {
            sent := sent[e.id := e.inflightUntil.value];
          }
        }
      }
      assert events[..|events|] == events;
      EmitInPlainTerms(old(sent), now, events);
      RememberInPlainTerms(old(sent), packets);
      hide SendsTheRest, KeepsInMind, Remember, EmittedOf, OneEach;
    }
  }

  lemma ChosenIsEnabled(cfg: Config, w: World, now: Time, batch: seq<SegKey>)
    requires cfg.Positive() && DueHeads(w.db, now) <= HeadStamps(w.db).Keys
    requires IsSelection(DueHeads(w.db, now), HeadStamps(w.db), cfg.batchSize, batch)
    ensures Enabled(cfg, w, Claim(now, batch))
  {
  }

  lemma PurgedBeforeSending(sent: map<Uuid, Time>, now: Time, events: seq<OutboxEvent>, packets: seq<OutboxEvent>)
    requires SendsTheRest(PurgeSent(sent, now), now, events, packets)
    ensures SendsTheRest(sent, now, events, packets)
  {
    hide OneEach, Ascending;
  }

  lemma {:induction false} RememberLeaves(sent: map<Uuid, Time>, events: seq<OutboxEvent>, id: Uuid)
    requires forall e :: e in events ==> e.id != id
    ensures id in Remember(sent, events) <==> id in sent
    ensures id in sent ==> Remember(sent, events)[id] == sent[id]
  {
    if events != [] {
      RememberLeaves(sent, events[..|events| - 1], id);
    }
  }

  // An event is judged in the loop as it would have been before it.
  lemma NotRememberedBefore(sent: map<Uuid, Time>, now: Time, earlier: seq<OutboxEvent>, e: OutboxEvent)
    requires forall x :: x in earlier ==> x.id != e.id
    ensures Suppressed(Remember(sent, EmittedOf(sent, now, earlier)), now, e) == Suppressed(sent, now, e)
  {
    EmittedExactly(sent, now, earlier);
    RememberLeaves(sent, EmittedOf(sent, now, earlier), e.id);
  }

  // One pull: purge the cache, list, and if nothing is in flight dispatch and list again.
  // Nobody else runs between its parts here; Connection interleaves them.
  method PullOutboxPackets(conn: ClientConnection, service: Service, device: DeviceId, now: Time,
      listedAt: Time, dispatchedAt: Time, relistedAt: Time)
    returns (packets: seq<OutboxEvent>, ghost listed: seq<Uuid>, ghost batch: seq<SegKey>, ghost claimed: seq<OutboxEvent>)
    requires service.Valid()
    modifies conn, service.store, service.bus
    ensures service.Valid() && (old(WellFormed(service.store.Tables())) ==> WellFormed(service.store.Tables()))
    ensures device == "" || InFlightAt(old(service.store.Tables()), device, listedAt) != {} ==>
              service.store.Tables() == old(service.store.Tables()) && service.bus.log == old(service.bus.log)
    ensures device == "" ==> packets == [] && conn.sent == old(conn.sent)
    ensures device != "" && InFlightAt(old(service.store.Tables()), device, listedAt) == {} ==>
              var before, cfg := old(service.store.Tables()), service.cfg.Claiming();
              && DueHeads(before, dispatchedAt) <= HeadStamps(before).Keys
              && IsSelection(DueHeads(before, dispatchedAt), HeadStamps(before), cfg.batchSize, batch)
              && (forall k :: k in batch ==> HasHead(before, k))
              && service.store.Tables() == ClaimDb(before, batch, dispatchedAt, cfg)
              && claimed == ClaimEvents(before, batch, dispatchedAt, cfg)
              && GrewByNotifications(old(service.bus.log), service.bus.log, claimed)
              && ClaimsAsPromised(before, service.store.Tables(), batch, dispatchedAt, cfg)
              && TellsOfLeases(service.store.Tables(), batch, claimed)
              && LeasesAreAnnounced(before, service.store.Tables(), service.bus.log)
    ensures device != "" ==>
              var at := if InFlightAt(old(service.store.Tables()), device, listedAt) != {} then listedAt else relistedAt;
              && IsSelection(InFlightAt(service.store.Tables(), device, at), RowStamps(service.store.Tables()), PULL_LIMIT, listed)
              && (forall id :: id in listed ==> id in service.store.rows)
              && packets == EmittedOf(PurgeSent(old(conn.sent), now), now, EventsOf(service.store.Tables(), listed))
              && conn.sent == Remember(PurgeSent(old(conn.sent), now), packets)
              && ListsAsPromised(service.store.Tables(), device, at, 128, EventsOf(service.store.Tables(), listed))
              && SendsTheRest(old(conn.sent), now, EventsOf(service.store.Tables(), listed), packets)
              && KeepsInMind(PurgeSent(old(conn.sent), now), conn.sent, packets)
  {
    hide ListsAsPromised, SendsTheRest, KeepsInMind, ClaimsAsPromised, TellsOfLeases, AllTakenUp;
    hide LeasesAreAnnounced, IsDispatch, GrewByNotifications, ClaimDb, ClaimEvents, Remember, EmittedOf, WellFormed;
    listed, batch, claimed := [], [], [];
    if device == "" {
      return [], [], [], [];
    }
    conn.Purge(now);
    var r, events, ids := service.ListInflight(device, listedAt, PULL_LIMIT);
    listed := ids;
    if |events| == 0 {
      assert ids == [] && InFlightAt(old(service.store.Tables()), device, listedAt) == {};
      var count;
      count, batch, claimed := service.DispatchOnce(dispatchedAt);
      r, events, listed := service.ListInflight(device, relistedAt, PULL_LIMIT);
    }
    EventsAreOneEach(service.store.Tables(), listed);
    packets := conn.Emit(now, events);
    PurgedBeforeSending(old(conn.sent), now, events, packets);
  }
}
