/**
 Dispatchers, the bus and one push loop, interleaved at will: a claim, each notification it
 owes, and the loop's table reads, waits and receives are all separate moves. Signals coalesce
 in a one-slot channel, a pull may fail, and still no wake-up is lost.
 */
module Wakeups {
  import opened OutboxTypes
  import opened OutboxSteps
  import opened OutboxInvariant
  import opened OutboxPromises
  import opened OutboxRuns
  import opened EventBus
  import opened Wrappers

  // The push loop: about to pull; listed nothing and dispatching before it lists again; done
  // reading; or waiting for a signal.
  datatype Pc = Top | Dispatching | Done | Waiting

  /**
   The tables, the bus log, and the loop of one device's connection with its subscription. owed
   are the positions in the claim log whose notification is still to be sent; read is how long
   the claim log was when the loop's last pull read the table for the last time, or failed.
   */
  datatype System = System(w: World, bus: seq<Op>, device: DeviceId, sub: nat, pc: Pc, owed: set<nat>, read: nat)

  datatype Move =
    | Work(st: Step)
    | Notify(index: nat)
    | OtherBusUse(op: Op)
    | FirstList(at: Time)
    | SecondList
    | PullFails
    | PacketsWritten
    | NothingToWrite
    | Wake
    | TimerFires

  // Others come and go on the bus, but do not use this subscription.
  ghost predicate Can(cfg: Config, s: System, m: Move)
    requires cfg.Positive()
  {
    match m
    case Work(st) => Enabled(cfg, s.w, st)
    case Notify(i) => i in s.owed && i < |s.w.log|
    case OtherBusUse(op) => op.Notified? || op.id != s.sub
    case FirstList(at) => s.pc.Top?
    case SecondList => s.pc.Dispatching?
    case PullFails => s.pc.Top? || s.pc.Dispatching?
    case PacketsWritten => s.pc.Done?
    case NothingToWrite => s.pc.Done?
    case Wake => s.pc.Waiting? && Outstanding(s.bus, s.sub)
    case TimerFires => s.pc.Waiting?
  }

  predicate IsNew(w: World, n: nat) {
    |w.log| <= n
  }

  ghost function Moved(cfg: Config, s: System, m: Move): System
    requires cfg.Positive() && Can(cfg, s, m)
  {
    match m
    case Work(st) =>
      var w' := Next(cfg, s.w, st);
      s.(w := w', owed := s.owed + set n: nat | n < |w'.log| && IsNew(s.w, n))
    case Notify(i) => s.(bus := s.bus + [Notified(s.w.log[i].key.device)], owed := s.owed - {i})
    case OtherBusUse(op) => s.(bus := s.bus + [op])
    case FirstList(at) =>
      s.(read := |s.w.log|, pc := if InFlightAt(s.w.db, s.device, at) == {} then Dispatching else Done)
    case SecondList => s.(read := |s.w.log|, pc := Done)
    case PullFails => s.(read := |s.w.log|, pc := Waiting)
    case PacketsWritten => s.(pc := Top)
    case NothingToWrite => s.(pc := Waiting)
    case Wake => s.(bus := s.bus + [Received(s.sub)], pc := Top)
    case TimerFires => s.(pc := Top)
  }

  // The claim at position i is this device's, came after the last read, and has been notified.
  ghost predicate Announced(s: System, i: nat) {
    s.read <= i < |s.w.log| && s.w.log[i].key.device == s.device && i !in s.owed
  }

  ghost predicate NoneLost(s: System) {
    && KeyOf(s.bus, s.sub) == Some(s.device)
    && s.read <= |s.w.log|
    && (!s.pc.Top? ==> forall i :: Announced(s, i) ==> Outstanding(s.bus, s.sub))
  }

  lemma MoveLosesNone(cfg: Config, s: System, m: Move)
    requires cfg.Positive() && Can(cfg, s, m) && NoneLost(s)
    ensures NoneLost(Moved(cfg, s, m))
  {
    var s' := Moved(cfg, s, m);
    match m
    case Work(st) =>
      StepGrowsLog(cfg, s.w, st);
      forall i | Announced(s', i) ensures Announced(s, i) {
      }
    case Notify(i) =>
      OneMore(s.bus, Notified(s.w.log[i].key.device));
      forall j | Announced(s', j) && j != i ensures Announced(s, j) {
      }
    case OtherBusUse(op) =>
      OneMore(s.bus, op);
      forall i | Announced(s', i) ensures Announced(s, i) {
      }
    case Wake =>
      OneMore(s.bus, Received(s.sub));
    case _ =>
      assert !s'.pc.Top? && !s.pc.Top? && s'.read == s.read ==> forall i :: Announced(s', i) ==> Announced(s, i);
  }

  // ---- Runs

  ghost predicate MoveAt(cfg: Config, moves: seq<Move>, ss: seq<System>, i: nat)
    requires cfg.Positive() && i < |moves| && |ss| == |moves| + 1
  {
    Can(cfg, ss[i], moves[i]) && ss[i + 1] == Moved(cfg, ss[i], moves[i])
  }

  // The loop subscribes before its first pull, whatever the tables and the bus are by then.
  ghost predicate SystemRun(cfg: Config, moves: seq<Move>, ss: seq<System>)
    requires cfg.Positive()
  {
    && |ss| == |moves| + 1
    && ss[0].pc.Top? && KeyOf(ss[0].bus, ss[0].sub) == Some(ss[0].device) && ss[0].read == 0
    && forall i :: 0 <= i < |moves| ==> MoveAt(cfg, moves, ss, i)
  }

  lemma {:induction false} RunLosesNone(cfg: Config, moves: seq<Move>, ss: seq<System>, n: nat)
    requires cfg.Positive() && SystemRun(cfg, moves, ss) && n < |ss|
    ensures NoneLost(ss[n])
  {
    hide Can, Moved;
    if n > 0 {
      RunLosesNone(cfg, moves, ss, n - 1);
      assert MoveAt(cfg, moves, ss, n - 1);
      hide NoneLost;
      MoveLosesNone(cfg, ss[n - 1], moves[n - 1]);
    }
  }

  // A wait does not block once an event claimed after the last pull has been notified.
  lemma NoLostWakeup(cfg: Config, moves: seq<Move>, ss: seq<System>, n: nat, i: nat)
    requires cfg.Positive() && SystemRun(cfg, moves, ss) && n < |ss|
    requires ss[n].pc.Waiting? && ss[n].read <= i < |ss[n].w.log| && ss[n].w.log[i].key.device == ss[n].device
    requires i !in ss[n].owed
    ensures Can(cfg, ss[n], Wake)
  {
    RunLosesNone(cfg, moves, ss, n);
    assert Announced(ss[n], i);
  }

  // Said of the blocked loop: whatever it has not read of its device's claims, somebody is still
  // about to announce.
  lemma BlockedMeansUnannounced(cfg: Config, moves: seq<Move>, ss: seq<System>, n: nat, i: nat)
    requires cfg.Positive() && SystemRun(cfg, moves, ss) && n < |ss|
    requires ss[n].pc.Waiting? && !Outstanding(ss[n].bus, ss[n].sub)
    requires i < |ss[n].w.log| && ss[n].w.log[i].key.device == ss[n].device
    ensures i < ss[n].read || Can(cfg, ss[n], Notify(i))
  {
    RunLosesNone(cfg, moves, ss, n);
    assert Announced(ss[n], i) || i < ss[n].read || i in ss[n].owed;
  }

  // ---- One dispatch among the moves

  // A step of the workers, and then a notification for each position it added to the claim log, in order.
  ghost predicate StepThenNotify(cfg: Config, s: System, st: Step, moves: seq<Move>, ss: seq<System>)
    requires cfg.Positive()
  {
    && |ss| == |moves| + 1 && moves != [] && ss[0] == s
    && (forall i :: 0 <= i < |moves| ==> MoveAt(cfg, moves, ss, i))
    && moves[0] == Work(st)
    && |moves| == 1 + |ss[1].w.log| - |s.w.log|
    && forall i :: 1 <= i < |moves| ==> moves[i] == Notify(|s.w.log| + i - 1)
  }

  // Such moves, from s on, of a claim that ends in these tables and this bus log.
  ghost predicate IsDispatch(cfg: Config, s: System, now: Time, batch: seq<SegKey>, db: Db, log: seq<Op>)
    requires cfg.Positive()
  {
    exists moves: seq<Move>, ss: seq<System> ::
      StepThenNotify(cfg, s, Claim(now, batch), moves, ss) && ss[|moves|].w.db == db && ss[|moves|].bus == log
  }

  // The log grew by one notification for each event, in order, each under the event's device.
  ghost predicate GrewByNotifications(log: seq<Op>, log': seq<Op>, events: seq<OutboxEvent>) {
    && |log'| == |log| + |events| && log <= log'
    && forall i :: 0 <= i < |events| ==> log'[|log| + i] == Notified(events[i].key.device)
  }

  lemma OneFewer(log: seq<Op>, log': seq<Op>, events: seq<OutboxEvent>) returns (front: seq<Op>)
    requires GrewByNotifications(log, log', events) && events != []
    ensures log' == front + [Notified(events[|events| - 1].key.device)]
    ensures GrewByNotifications(log, front, events[..|events| - 1])
  {
    front := log'[..|log'| - 1];
    assert log'[|log| + (|events| - 1)] == Notified(events[|events| - 1].key.device);
  }

  lemma {:induction false} NotifyEach(cfg: Config, s: System, first: nat, n: nat, log: seq<Op>)
      returns (ss: seq<System>)
    requires cfg.Positive() && first + n <= |s.w.log| && forall i :: first <= i < first + n ==> i in s.owed
    requires GrewByNotifications(s.bus, log, s.w.log[first..first + n])
    ensures |ss| == n + 1 && ss[0] == s
    ensures forall i :: 0 <= i < n ==> Can(cfg, ss[i], Notify(first + i)) && ss[i + 1] == Moved(cfg, ss[i], Notify(first + i))
    ensures ss[n] == s.(bus := log, owed := ss[n].owed)
    ensures forall i :: i in ss[n].owed <==> i in s.owed && !(first <= i < first + n)
  {
    if n == 0 {
      assert log == s.bus;
      return [s];
    }
    var events := s.w.log[first..first + n];
    assert events[..n - 1] == s.w.log[first..first + n - 1];
    var front := OneFewer(s.bus, log, events);
    ss := NotifyEach(cfg, s, first, n - 1, front);
    ss := ss + [Moved(cfg, ss[n - 1], Notify(first + n - 1))];
  }

  // Claiming and then notifying each event's device is a claim with its notifications in any system.
  lemma DispatchIsMoves(cfg: Config, s: System, now: Time, batch: seq<SegKey>, log: seq<Op>)
    requires cfg.Positive() && Enabled(cfg, s.w, Claim(now, batch))
    requires forall k :: k in batch ==> HasHead(s.w.db, k)
    requires GrewByNotifications(s.bus, log, ClaimEvents(s.w.db, batch, now, cfg))
    ensures IsDispatch(cfg, s, now, batch, ClaimDb(s.w.db, batch, now, cfg), log)
  {
    var es := ClaimEvents(s.w.db, batch, now, cfg);
    var claimed := AfterClaim(cfg, s, now, batch);
    assert claimed.w.log[|s.w.log|..|s.w.log| + |es|] == es;
    hide Can, Enabled, Moved, ClaimDb, ClaimEvents, GrewByNotifications, MoveAt;
    ClaimedIsAnnounced(cfg, s, Claim(now, batch), claimed, |es|, log);
  }

  lemma ClaimedIsAnnounced(cfg: Config, s: System, st: Step, s': System, n: nat, log: seq<Op>)
    requires cfg.Positive() && Can(cfg, s, Work(st)) && s' == Moved(cfg, s, Work(st)) && |s'.w.log| == |s.w.log| + n
    requires forall i :: |s.w.log| <= i < |s'.w.log| ==> i in s'.owed
    requires GrewByNotifications(s'.bus, log, s'.w.log[|s.w.log|..|s.w.log| + n])
    ensures exists moves: seq<Move>, ss: seq<System> ::
              StepThenNotify(cfg, s, st, moves, ss) && ss[|moves|].w.db == s'.w.db && ss[|moves|].bus == log
  {
    hide Can, Moved, GrewByNotifications;
    var rest := NotifyEach(cfg, s', |s.w.log|, n, log);
    WorkThenRest(cfg, s, st, s', rest, n);
    hide *;
  }

  lemma AfterClaim(cfg: Config, s: System, now: Time, batch: seq<SegKey>) returns (s': System)
    requires cfg.Positive() && Enabled(cfg, s.w, Claim(now, batch)) && forall k :: k in batch ==> HasHead(s.w.db, k)
    ensures Can(cfg, s, Work(Claim(now, batch))) && s' == Moved(cfg, s, Work(Claim(now, batch)))
    ensures s'.w.db == ClaimDb(s.w.db, batch, now, cfg) && s'.w.log == s.w.log + ClaimEvents(s.w.db, batch, now, cfg)
    ensures s'.bus == s.bus && forall i :: |s.w.log| <= i < |s'.w.log| ==> i in s'.owed
  {
    NextAfterClaim(cfg, s.w, Claim(now, batch));
    hide Enabled, Next, ClaimDb, ClaimEvents;
    s' := Moved(cfg, s, Work(Claim(now, batch)));
  }

  lemma WorkThenRest(cfg: Config, s: System, st: Step, s': System, rest: seq<System>, n: nat)
    requires cfg.Positive() && Can(cfg, s, Work(st)) && s' == Moved(cfg, s, Work(st)) && |s'.w.log| == |s.w.log| + n
    requires |rest| == n + 1 && rest[0] == s'
    requires forall i :: 0 <= i < n ==>
               Can(cfg, rest[i], Notify(|s.w.log| + i)) && rest[i + 1] == Moved(cfg, rest[i], Notify(|s.w.log| + i))
    ensures exists moves: seq<Move>, ss: seq<System> :: StepThenNotify(cfg, s, st, moves, ss) && ss[|moves|] == rest[n]
  {
    hide Can, Moved;
    var ss := [s] + rest;
    var moves := [Work(st)] + seq(n, (i: nat) => Notify(|s.w.log| + i));
    forall i | 0 <= i < |moves| ensures MoveAt(cfg, moves, ss, i) {
      if i > 0 {
        assert ss[i] == rest[i - 1] && ss[i + 1] == rest[i - 1 + 1] && moves[i] == Notify(|s.w.log| + (i - 1));
      }
    }
    assert StepThenNotify(cfg, s, st, moves, ss);
  }

  lemma {:induction false} NotificationsKeepKeys(log: seq<Op>, log': seq<Op>, id: nat)
    requires log <= log' && forall i :: |log| <= i < |log'| ==> log'[i].Notified?
    ensures KeyOf(log', id) == KeyOf(log, id)
  {
    if |log| < |log'| {
      NotificationsKeepKeys(log, log'[..|log'| - 1], id);
    } else {
      assert log == log';
    }
  }

  // Whoever listens to a device named by one of the events has a wake-up outstanding afterwards.
  lemma NotifiedAreOutstanding(log: seq<Op>, log': seq<Op>, events: seq<OutboxEvent>, i: nat, id: nat)
    requires GrewByNotifications(log, log', events) && i < |events| && KeyOf(log', id) == Some(events[i].key.device)
    ensures Outstanding(log', id)
  {
    var n := |log| + i;
    forall j | |log| <= j < |log'| ensures log'[j].Notified? {
      assert log'[|log| + (j - |log|)] == Notified(events[j - |log|].key.device);
    }
    NotificationsKeepKeys(log'[..n], log', id);
    NotificationWaits(log'[..n], log'[n + 1..], id, events[i].key.device);
    assert log' == log'[..n] + [Notified(events[i].key.device)] + log'[n + 1..];
  }

  // Every row a call put in flight has woken, or will at their next wait, all who listen to its device.
  ghost predicate LeasesAreAnnounced(before: Db, after: Db, log: seq<Op>) {
    forall e, id: nat ::
      (e in before.rows && e in after.rows && after.rows[e].status == InFlight && after.rows[e] != before.rows[e]
       && KeyOf(log, id) == Some(after.rows[e].device)) ==> Outstanding(log, id)
  }

  lemma DispatchAnnounces(before: Db, after: Db, batch: seq<SegKey>, now: Time, cfg: Config, events: seq<OutboxEvent>,
      log: seq<Op>, log': seq<Op>)
    requires AllPointed(before) && ClaimsAsPromised(before, after, batch, now, cfg)
    requires TellsOfLeases(after, batch, events)
    requires GrewByNotifications(log, log', events)
    ensures LeasesAreAnnounced(before, after, log')
  {
    forall e, id: nat | e in before.rows && e in after.rows && after.rows[e].status == InFlight
                        && after.rows[e] != before.rows[e] && KeyOf(log', id) == Some(after.rows[e].device)
      ensures Outstanding(log', id)
    {
      var k := LeasedByClaim(before, after, batch, now, cfg, e);
      var i := EventFor(after, batch, events, k);
      hide *;
      NotifiedAreOutstanding(log, log', events, i, id);
    }
    hide ClaimsAsPromised, TellsOfLeases, AllPointed, GrewByNotifications;
  }

  lemma EventFor(after: Db, batch: seq<SegKey>, events: seq<OutboxEvent>, k: SegKey) returns (i: nat)
    requires TellsOfLeases(after, batch, events) && k in batch && k in after.segs && after.segs[k].head.Some?
    ensures i < |events| && events[i].key == k
  {
    i :| 0 <= i < |events| && events[i].key == k;
  }
}
