/**
 Usage counters at six granularities, against the plain log of what was recorded.
 */
module Usage {
  import opened Calendar
  import opened Keys
  import opened Sums

  const MAX_BIGINT := 0x7FFF_FFFF_FFFF_FFFF

  datatype Field = Requests | BytesIn | BytesOut

  datatype Amount = Amount(requests: int, bytesIn: int, bytesOut: int)
  {
    function Plus(other: Amount): Amount {
      Amount(requests + other.requests, bytesIn + other.bytesIn, bytesOut + other.bytesOut)
    }

    predicate Zero() {
      requests == 0 && bytesIn == 0 && bytesOut == 0
    }

    // What the table's CHECK constraint and its BIGINT columns hold.
    predicate Storable() {
      0 <= requests <= MAX_BIGINT && 0 <= bytesIn <= MAX_BIGINT && 0 <= bytesOut <= MAX_BIGINT
    }

    function Get(field: Field): int {
      match field
      case Requests => requests
      case BytesIn => bytesIn
      case BytesOut => bytesOut
    }
  }

  const NOTHING := Amount(0, 0, 0)

  datatype CounterKey = CounterKey(user: PublicKey, kind: Kind, bucket: Instant)

  type Counters = map<CounterKey, Amount>

  datatype Record = Record(user: PublicKey, at: Instant, amount: Amount)
  {
    function KeyFor(kind: Kind): CounterKey {
      CounterKey(user, kind, Truncate(kind, at))
    }

    predicate Hits(key: CounterKey) {
      KeyFor(key.kind) == key
    }
  }

  function Value(counters: Counters, key: CounterKey): Amount {
    if key in counters then counters[key] else NOTHING
  }

  const KINDS := [Minute, Hour, Day, Week, Month, AllTime]

  function KeysHit(r: Record, kinds: seq<Kind>): set<CounterKey> {
    set kind | kind in kinds :: r.KeyFor(kind)
  }

  // One record counted in at the given granularities.
  function Counted(counters: Counters, r: Record, kinds: seq<Kind>): Counters {
    map key | key in counters.Keys + KeysHit(r, kinds) ::
      if key in KeysHit(r, kinds) then Value(counters, key).Plus(r.amount) else counters[key]
  }

  // A table of profiles that only grows, and the counters that refer to it.
  datatype Ledger = Ledger(profiles: set<PublicKey>, counters: Counters)

  predicate Accepted(l: Ledger, r: Record) {
    && r.user in l.profiles
    && r.amount.Storable()
    && forall kind :: kind in KINDS ==> Fits(l.counters, r, kind)
  }

  predicate Fits(counters: Counters, r: Record, kind: Kind) {
    Value(counters, r.KeyFor(kind)).Plus(r.amount).Storable()
  }

  datatype UsageStats =
    UsageStats(minute: Amount, hour: Amount, day: Amount, week: Amount, month: Amount, allTime: Amount)
  {
    function Get(kind: Kind): Amount {
      match kind
      case Minute => minute
      case Hour => hour
      case Day => day
      case Week => week
      case Month => month
      case AllTime => allTime
    }
  }

  class UsageStore {
    var profiles: set<PublicKey>
    var counters: Counters

    ghost function View(): Ledger
      reads this
    {
      Ledger(profiles, counters)
    }

    constructor ()
      ensures View() == Ledger({}, map[])
    {
      profiles := {};
      counters := map[];
    }

    method AddProfile(user: PublicKey)
      modifies this
      ensures View() == Ledger(old(profiles) + {user}, old(counters))
    {
      profiles := profiles + {user};
    }

    // One statement adds to six counters or, when one of them would not fit, to none.
    method RecordUserUsage(user: PublicKey, now: Instant, amount: Amount) returns (ok: bool)
      modifies this
      ensures ok == (amount.Zero() || Accepted(old(View()), Record(user, now, amount)))
      ensures View() == AfterUse(old(View()), Record(user, now, amount))
      ensures profiles == old(profiles) && (amount == Amount(0, 0, 0) || !ok ==> counters == old(counters))
      ensures amount != Amount(0, 0, 0) ==>
                && (ok <==>
                      && user in old(profiles) && InBigint(amount.requests) && InBigint(amount.bytesIn) && InBigint(amount.bytesOut)
                      && forall kind :: SumsFit(old(counters), CounterKey(user, kind, Truncate(kind, now)), amount))
                && (ok ==> forall key: CounterKey :: if key.user == user && key.bucket == Truncate(key.kind, now)
                                         then SummedUp(old(counters), counters, key, amount)
                                         else SameCounter(old(counters), counters, key))
    {
      OneUse(View(), Record(user, now, amount));
      hide Truncate, KeysHit, Amount.Storable, SumsFit, SummedUp, SameCounter, InBigint, Accepted, AfterUse;
      if amount.Zero() {
        return true;
      }
      var r := Record(user, now, amount);
      if user !in profiles || !amount.Storable() {
        RefusedOutright(View(), r);
        return false;
      }
      var next := counters;
      CountedNothing(counters, r);
      for i := 0 to |KINDS|
        invariant View() == old(View())
        invariant next == Counted(counters, r, KINDS[..i])
        invariant forall j :: 0 <= j < i ==> Fits(counters, r, KINDS[j])
      {
        var key := r.KeyFor(KINDS[i]);
        CountedOneMore(counters, r, i);
        var sum := if key in next then next[key].Plus(amount) else amount;
        if !sum.Storable() {
          DoesNotFit(View(), r, KINDS[i]);
          return false;
        }
        next := next[key := sum];
      }
      assert KINDS[..|KINDS|] == KINDS;
      AllFit(View(), r);
      counters := next;
      return true;
    }

    method GetUserUsageStats(user: PublicKey, now: Instant) returns (stats: UsageStats)
      ensures forall kind :: stats.Get(kind) == Value(counters, CounterKey(user, kind, Truncate(kind, now)))
      ensures IsRead(counters, user, Minute, now / 60_000_000 * 60_000_000, stats.minute)
      ensures IsRead(counters, user, Hour, now / 3_600_000_000 * 3_600_000_000, stats.hour)
      ensures IsRead(counters, user, Day, now / 86_400_000_000 * 86_400_000_000, stats.day)
      ensures IsRead(counters, user, Week,
                     (now - 345_600_000_000) / 604_800_000_000 * 604_800_000_000 + 345_600_000_000, stats.week)
      ensures forall year, month | 1 <= month <= 12 && InCivilMonth(now, year, month) ::
                IsRead(counters, user, Month, CivilDay(year, month) * 86_400_000_000, stats.month)
      ensures IsRead(counters, user, AllTime, 0, stats.allTime)
    {
      hide Truncate, IsRead, Value, InCivilMonth;
      stats := UsageStats(NOTHING, NOTHING, NOTHING, NOTHING, NOTHING, NOTHING);
      for i := 0 to |KINDS|
        invariant forall j :: 0 <= j < i ==>
          stats.Get(KINDS[j]) == Value(counters, CounterKey(user, KINDS[j], Truncate(KINDS[j], now)))
      {
        var kind := KINDS[i];
        var stat := Value(counters, CounterKey(user, kind, Truncate(kind, now)));
        match kind {
          case Minute => stats := stats.(minute := stat);
          case Hour => stats := stats.(hour := stat);
          case Day => stats := stats.(day := stat);
          case Week => stats := stats.(week := stat);
          case Month => stats := stats.(month := stat);
          case AllTime => stats := stats.(allTime := stat);
        }
      }
      forall kind ensures stats.Get(kind) == Value(counters, CounterKey(user, kind, Truncate(kind, now))) {
        EveryKind(kind);
      }
      forall kind, bucket ensures IsRead(counters, user, kind, bucket, Value(counters, CounterKey(user, kind, bucket))) {
        ValueIsRead(counters, user, kind, bucket);
      }
      SmallBucketsInMicroseconds(now);
      forall year, month | 1 <= month <= 12 && InCivilMonth(now, year, month)
        ensures Truncate(Month, now) == CivilDay(year, month) * 86_400_000_000
      {
        MonthBucketIsCivil(now, year, month);
      }
    }
  }

  // What the row of a bucket holds, or zeros where there is none.
  predicate IsRead(counters: Counters, user: PublicKey, kind: Kind, bucket: Instant, a: Amount) {
    var key := CounterKey(user, kind, bucket);
    && a.requests == Stored(counters, key, Requests)
    && a.bytesIn == Stored(counters, key, BytesIn)
    && a.bytesOut == Stored(counters, key, BytesOut)
  }

  lemma ValueIsRead(counters: Counters, user: PublicKey, kind: Kind, bucket: Instant)
    ensures IsRead(counters, user, kind, bucket, Value(counters, CounterKey(user, kind, bucket)))
  {
  }

  lemma EveryKind(kind: Kind)
    ensures exists j :: 0 <= j < |KINDS| && KINDS[j] == kind
  {
    match kind {
      case Minute => assert KINDS[0] == kind;
      case Hour => assert KINDS[1] == kind;
      case Day => assert KINDS[2] == kind;
      case Week => assert KINDS[3] == kind;
      case Month => assert KINDS[4] == kind;
      case AllTime => assert KINDS[5] == kind;
    }
  }

  lemma RefusedOutright(l: Ledger, r: Record)
    requires r.user !in l.profiles || !r.amount.Storable()
    ensures !Accepted(l, r) && AfterUse(l, r) == l
  {
  }

  lemma AllFit(l: Ledger, r: Record)
    requires r.user in l.profiles && r.amount.Storable() && !r.amount.Zero()
    requires forall j :: 0 <= j < |KINDS| ==> Fits(l.counters, r, KINDS[j])
    ensures Accepted(l, r) && AfterUse(l, r) == Ledger(l.profiles, Counted(l.counters, r, KINDS))
  {
    hide Fits, Amount.Storable, Amount.Zero, Counted;
  }

  // ---- One use in plain sums

  predicate InBigint(n: int) {
    0 <= n < 0x8000_0000_0000_0000
  }

  function Stored(counters: Counters, key: CounterKey, field: Field): int {
    if key !in counters then 0
    else match field
      case Requests => counters[key].requests
      case BytesIn => counters[key].bytesIn
      case BytesOut => counters[key].bytesOut
  }

  // The row of a counter takes the amounts on top of what it holds, nothing if there is no row.
  predicate SumsFit(counters: Counters, key: CounterKey, a: Amount) {
    && InBigint(Stored(counters, key, Requests) + a.requests)
    && InBigint(Stored(counters, key, BytesIn) + a.bytesIn)
    && InBigint(Stored(counters, key, BytesOut) + a.bytesOut)
  }

  predicate SummedUp(before: Counters, after: Counters, key: CounterKey, a: Amount) {
    && key in after
    && after[key].requests == Stored(before, key, Requests) + a.requests
    && after[key].bytesIn == Stored(before, key, BytesIn) + a.bytesIn
    && after[key].bytesOut == Stored(before, key, BytesOut) + a.bytesOut
  }

  predicate SameCounter(before: Counters, after: Counters, key: CounterKey) {
    (key in after <==> key in before) && (key in after ==> after[key] == before[key])
  }

  lemma FitsInPlainSums(counters: Counters, r: Record, kind: Kind)
    ensures Fits(counters, r, kind) <==> SumsFit(counters, CounterKey(r.user, kind, Truncate(kind, r.at)), r.amount)
  {
    hide Truncate;
  }

  lemma AcceptedInPlainSums(l: Ledger, r: Record)
    ensures Accepted(l, r) <==>
            && r.user in l.profiles && InBigint(r.amount.requests) && InBigint(r.amount.bytesIn) && InBigint(r.amount.bytesOut)
            && forall kind :: SumsFit(l.counters, CounterKey(r.user, kind, Truncate(kind, r.at)), r.amount)
  {
    forall kind
      ensures kind in KINDS
      ensures Fits(l.counters, r, kind) <==> SumsFit(l.counters, CounterKey(r.user, kind, Truncate(kind, r.at)), r.amount)
    {
      EveryKind(kind);
      FitsInPlainSums(l.counters, r, kind);
    }
    hide Truncate, Fits, SumsFit;
  }

  // A use adds its amounts to the six counters of its user and instant and leaves the others alone,
  // if it is accepted, and is accepted exactly when all the sums fit.
  lemma OneUse(l: Ledger, r: Record)
    ensures r.amount.Zero() <==> r.amount == Amount(0, 0, 0)
    ensures AfterUse(l, r).profiles == l.profiles
    ensures r.amount == Amount(0, 0, 0) || !Accepted(l, r) ==> AfterUse(l, r).counters == l.counters
    ensures Accepted(l, r) <==>
            && r.user in l.profiles && InBigint(r.amount.requests) && InBigint(r.amount.bytesIn) && InBigint(r.amount.bytesOut)
            && forall kind :: SumsFit(l.counters, CounterKey(r.user, kind, Truncate(kind, r.at)), r.amount)
    ensures r.amount != Amount(0, 0, 0) && Accepted(l, r) ==>
              forall key: CounterKey :: if key.user == r.user && key.bucket == Truncate(key.kind, r.at)
                            then SummedUp(l.counters, AfterUse(l, r).counters, key, r.amount)
                            else SameCounter(l.counters, AfterUse(l, r).counters, key)
  {
    AcceptedInPlainSums(l, r);
    hide Accepted, SumsFit, InBigint;
    forall key: CounterKey
      ensures var after := Counted(l.counters, r, KINDS);
              if key.user == r.user && key.bucket == Truncate(key.kind, r.at) then SummedUp(l.counters, after, key, r.amount)
              else SameCounter(l.counters, after, key)
    {
      KeysHitByAll(r, key);
      hide Truncate, KeysHit;
    }
  }

  lemma DoesNotFit(l: Ledger, r: Record, kind: Kind)
    requires !Fits(l.counters, r, kind)
    ensures !Accepted(l, r)
  {
  }

  lemma CountedNothing(counters: Counters, r: Record)
    ensures Counted(counters, r, KINDS[..0]) == counters
  {
  }

  lemma CountedOneMore(counters: Counters, r: Record, i: nat)
    requires i < |KINDS|
    ensures var before := Counted(counters, r, KINDS[..i]);
            var key := r.KeyFor(KINDS[i]);
            && Value(before, key) == Value(counters, key)
            && Counted(counters, r, KINDS[..i + 1]) == before[key := Value(counters, key).Plus(r.amount)]
  {
    hide Truncate;
    assert KINDS[..i + 1] == KINDS[..i] + [KINDS[i]];
    assert forall j :: 0 <= j < i ==> KINDS[j] != KINDS[i];
    assert KeysHit(r, KINDS[..i + 1]) == KeysHit(r, KINDS[..i]) + {r.KeyFor(KINDS[i])};
  }

  // ---- Runs against the log

  datatype Event = NewProfile(user: PublicKey) | Use(record: Record)

  function AfterUse(l: Ledger, r: Record): Ledger {
    if r.amount.Zero() || !Accepted(l, r) then l else Ledger(l.profiles, Counted(l.counters, r, KINDS))
  }

  function After(events: seq<Event>): Ledger {
    if events == [] then Ledger({}, map[])
    else
      var l := After(events[..|events| - 1]);
      match events[|events| - 1]
      case NewProfile(user) => Ledger(l.profiles + {user}, l.counters)
      case Use(r) => AfterUse(l, r)
  }

  // The plain log: what was recorded, in order.
  function Log(events: seq<Event>): seq<Record> {
    if events == [] then []
    else
      var before := events[..|events| - 1];
      match events[|events| - 1]
      case NewProfile(_) => Log(before)
      case Use(r) => if r.amount.Zero() || !Accepted(After(before), r) then Log(before) else Log(before) + [r]
  }

  function Logged(log: seq<Record>, key: CounterKey): Amount {
    if log == [] then NOTHING
    else
      var r := log[|log| - 1];
      var before := Logged(log[..|log| - 1], key);
      if r.Hits(key) then before.Plus(r.amount) else before
  }

  ghost predicate Tallies(counters: Counters, log: seq<Record>) {
    && (forall key :: key in counters <==> exists r :: r in log && r.Hits(key))
    && (forall key :: Value(counters, key) == Logged(log, key))
  }

  lemma KeysHitByAll(r: Record, key: CounterKey)
    ensures key in KeysHit(r, KINDS) <==> r.Hits(key)
  {
  }

  lemma CountedTallies(counters: Counters, log: seq<Record>, r: Record)
    requires Tallies(counters, log)
    ensures Tallies(Counted(counters, r, KINDS), log + [r])
  {
    hide Truncate;
    var after, more := Counted(counters, r, KINDS), log + [r];
    assert more[..|more| - 1] == log;
    forall key
      ensures key in after <==> exists s :: s in more && s.Hits(key)
      ensures Value(after, key) == Logged(more, key)
    {
      KeysHitByAll(r, key);
      assert r in more;
      if key in counters {
        var s :| s in log && s.Hits(key);
        assert s in more;
      }
    }
  }

  // The counter of a bucket is the sum of the records that fall into it, and only those buckets
  // have one.
  lemma {:induction false} CountersAreLogSums(events: seq<Event>)
    ensures Tallies(After(events).counters, Log(events))
  {
    if events != [] {
      var before, last := events[..|events| - 1], events[|events| - 1];
      CountersAreLogSums(before);
      if last.Use? {
        CountedTallies(After(before).counters, Log(before), last.record);
      }
    }
  }

  // ---- Fine buckets against coarse ones

  // The user's fine counters inside a coarse bucket.
  function Parts(counters: Counters, user: PublicKey, fine: Kind, coarse: Kind, bucket: Instant,
      field: Field): map<CounterKey, int>
  {
    map key | key in counters && key.user == user && key.kind == fine && Truncate(coarse, key.bucket) == bucket ::
      counters[key].Get(field)
  }

  lemma PartsAfter(counters: Counters, r: Record, user: PublicKey, fine: Kind, coarse: Kind, bucket: Instant,
      field: Field)
    requires Nests(fine, coarse)
    ensures var before := Parts(counters, user, fine, coarse, bucket, field);
            var after := Parts(Counted(counters, r, KINDS), user, fine, coarse, bucket, field);
            var key := r.KeyFor(fine);
            after == if r.Hits(CounterKey(user, coarse, bucket))
                     then before[key := Value(counters, key).Get(field) + r.amount.Get(field)] else before
  {
    hide Truncate, Nests, KeysHit, Amount.Get;
    TruncationNests(fine, coarse, r.at);
    var after := Counted(counters, r, KINDS);
    var hit := r.KeyFor(fine);
    forall key: CounterKey | key.kind == fine
      ensures key in after <==> key in counters || key == hit
      ensures key in after ==> after[key] == if key == hit then Value(counters, key).Plus(r.amount) else counters[key]
    {
      KeysHitByAll(r, key);
    }
    PlusGets(Value(counters, hit), r.amount, field);
    assert r.Hits(CounterKey(user, coarse, bucket)) <==> hit.user == user && Truncate(coarse, hit.bucket) == bucket;
  }

  lemma NothingGets(field: Field)
    ensures NOTHING.Get(field) == 0
  {
  }

  lemma PlusGets(a: Amount, b: Amount, field: Field)
    ensures a.Plus(b).Get(field) == a.Get(field) + b.Get(field)
  {
  }

  lemma SumAfter<K>(m: map<K, int>, k: K, v: int)
    ensures Sum(m[k := v]) == Sum(m) + v - (if k in m then m[k] else 0)
  {
    SumSplit(m[k := v], k);
    assert m[k := v] - {k} == m - {k};
    if k in m {
      SumSplit(m, k);
    } else {
      assert m - {k} == m;
    }
  }

  // Fine buckets add up to the coarse bucket that holds them: minutes to hours, hours to days,
  // days to weeks and to months, and anything to all time.
  lemma {:induction false} BucketsAddUp(events: seq<Event>, user: PublicKey, fine: Kind, coarse: Kind,
      bucket: Instant, field: Field)
    requires Nests(fine, coarse)
    ensures Sum(Parts(After(events).counters, user, fine, coarse, bucket, field))
            == Value(After(events).counters, CounterKey(user, coarse, bucket)).Get(field)
  {
    if events == [] {
      assert Parts(map[], user, fine, coarse, bucket, field) == map[];
    } else {
      var before, last := events[..|events| - 1], events[|events| - 1];
      BucketsAddUp(before, user, fine, coarse, bucket, field);
      if last.Use? && !last.record.amount.Zero() && Accepted(After(before), last.record) {
        OneRecordAddsUp(After(before).counters, last.record, user, fine, coarse, bucket, field);
      }
    }
  }

  lemma OneRecordAddsUp(counters: Counters, r: Record, user: PublicKey, fine: Kind, coarse: Kind,
      bucket: Instant, field: Field)
    requires Nests(fine, coarse)
    requires Sum(Parts(counters, user, fine, coarse, bucket, field)) == Value(counters, CounterKey(user, coarse, bucket)).Get(field)
    ensures var after := Counted(counters, r, KINDS);
            Sum(Parts(after, user, fine, coarse, bucket, field)) == Value(after, CounterKey(user, coarse, bucket)).Get(field)
  {
    hide Truncate, Nests, KeysHit, Amount.Get;
    var whole, key := CounterKey(user, coarse, bucket), r.KeyFor(fine);
    var parts := Parts(counters, user, fine, coarse, bucket, field);
    PartsAfter(counters, r, user, fine, coarse, bucket, field);
    KeysHitByAll(r, whole);
    if r.Hits(whole) {
      TruncationNests(fine, coarse, r.at);
      SumAfter(parts, key, Value(counters, key).Get(field) + r.amount.Get(field));
      PlusGets(Value(counters, whole), r.amount, field);
      NothingGets(field);
    }
  }

  function Total(log: seq<Record>): Amount {
    if log == [] then NOTHING else Total(log[..|log| - 1]).Plus(log[|log| - 1].amount)
  }

  // The user's records of the period `now` lies in.
  function SamePeriod(log: seq<Record>, user: PublicKey, kind: Kind, now: Instant): seq<Record> {
    if log == [] then []
    else
      var r, before := log[|log| - 1], SamePeriod(log[..|log| - 1], user, kind, now);
      if r.user == user && Truncate(kind, r.at) == Truncate(kind, now) then before + [r] else before
  }

  lemma {:induction false} LoggedIsFiltered(log: seq<Record>, user: PublicKey, kind: Kind, now: Instant)
    ensures Logged(log, CounterKey(user, kind, Truncate(kind, now))) == Total(SamePeriod(log, user, kind, now))
  {
    if log != [] {
      hide Truncate;
      var before := SamePeriod(log[..|log| - 1], user, kind, now);
      LoggedIsFiltered(log[..|log| - 1], user, kind, now);
      assert (before + [log[|log| - 1]])[..|before|] == before;
    }
  }

  // Reading a counter is filtering the log; for all time that is everything the user recorded.
  lemma StatsFilterTheLog(events: seq<Event>, user: PublicKey, kind: Kind, now: Instant)
    ensures Value(After(events).counters, CounterKey(user, kind, Truncate(kind, now)))
            == Total(SamePeriod(Log(events), user, kind, now))
  {
    CountersAreLogSums(events);
    LoggedIsFiltered(Log(events), user, kind, now);
  }
}
