/**
 The budget tracker: power-ons in flight, and counters for power-ons and migrations that restart once
 an hour has passed since they last did. Times are integer nanoseconds read from a clock that does not
 run backwards.
 */
module BudgetTracker {
  import opened Options
  import opened Placement

  const HOUR := 3_600_000_000_000

  /* ------------------------- Counting events in a window of time ------------------------- */

  /** How many recorded times t have low <= t < high. */
  function CountIn(log: seq<int>, low: int, high: int): nat {
    if log == [] then 0
    else CountIn(log[..|log| - 1], low, high) + if low <= log[|log| - 1] < high then 1 else 0
  }

  /** Events in the hour that begins at t. */
  function InHour(log: seq<int>, t: int): nat {
    CountIn(log, t, t + HOUR)
  }

  lemma CountAppend(log: seq<int>, t: int, low: int, high: int)
    ensures CountIn(log + [t], low, high) == CountIn(log, low, high) + if low <= t < high then 1 else 0
  {
    assert (log + [t])[..|log + [t]| - 1] == log;
  }

  lemma {:induction false} CountSplit(log: seq<int>, low: int, mid: int, high: int)
    requires low <= mid <= high
    ensures CountIn(log, low, high) == CountIn(log, low, mid) + CountIn(log, mid, high)
  {
    if log != [] {
      CountSplit(log[..|log| - 1], low, mid, high);
    }
  }

  lemma {:induction false} CountMonotone(log: seq<int>, low: int, high: int, low': int, high': int)
    requires low' <= low && high <= high'
    ensures CountIn(log, low, high) <= CountIn(log, low', high')
  {
    if log != [] {
      CountMonotone(log[..|log| - 1], low, high, low', high');
    }
  }

  lemma {:induction false} CountNone(log: seq<int>, low: int, high: int)
    requires forall i | 0 <= i < |log| :: log[i] < low
    ensures CountIn(log, low, high) == 0
  {
    if log != [] {
      CountNone(log[..|log| - 1], low, high);
    }
  }

  /* ------------------------------- An hourly counter ------------------------------- */

  /** The counter, the start of its window, and (for the proofs) every event it ever counted. */
  datatype Meter = Meter(count: int, start: int)

  function Restarted(m: Meter, now: int): Meter {
    if now - m.start >= HOUR then Meter(0, now) else m
  }

  function Recorded(m: Meter, now: int): Meter {
    var r := Restarted(m, now);
    Meter(r.count + 1, r.start)
  }

  /** The counter is the number of events since the window started, nothing is in the future, the
      events of one hour before the window are at most `limit`, and so are those of the window. */
  ghost predicate Paced(m: Meter, log: seq<int>, now: int, limit: nat) {
    && m.start <= now && m.count <= limit
    && (forall i | 0 <= i < |log| :: log[i] <= now && log[i] < m.start + HOUR)
    && m.count == CountIn(log, m.start, m.start + HOUR)
    && CountIn(log, m.start - HOUR + 1, m.start) <= limit
    && (forall t :: InHour(log, t) <= 2 * limit)
  }

  lemma RestartKeepsPace(m: Meter, log: seq<int>, now: int, later: int, limit: nat)
    requires Paced(m, log, now, limit) && now <= later
    ensures Paced(Restarted(m, later), log, later, limit)
  {
    if later - m.start >= HOUR {
      CountNone(log, later, later + HOUR);
      // What falls in the hour before the new window fell in the old one.
      forall i | 0 <= i < |log| ensures log[i] < later {}
      CountMonotone(log, later - HOUR + 1, later, m.start, later);
      CountSplit(log, m.start, m.start + HOUR, later);
      CountNone(log, m.start + HOUR, later);
    }
  }

  /** Recording below the limit keeps the pace: at most two windows meet any one hour. */
  lemma RecordKeepsPace(m: Meter, log: seq<int>, now: int, later: int, limit: nat)
    requires Paced(m, log, now, limit) && now <= later && Restarted(m, later).count < limit
    ensures Paced(Recorded(m, later), log + [later], later, limit)
  {
    RestartKeepsPace(m, log, now, later, limit);
    var r := Restarted(m, later);
    CountAppend(log, later, r.start, r.start + HOUR);
    CountAppend(log, later, r.start - HOUR + 1, r.start);
    forall t ensures InHour(log + [later], t) <= 2 * limit {
      CountAppend(log, later, t, t + HOUR);
      assert InHour(log, t) <= 2 * limit;
      if t <= later < t + HOUR {
        HourAround(r, log, later, limit, t);
      }
    }
  }

  lemma HourAround(r: Meter, log: seq<int>, later: int, limit: nat, t: int)
    requires Paced(r, log, later, limit) && r.count < limit && t <= later < t + HOUR && later < r.start + HOUR
    ensures CountIn(log, t, t + HOUR) < 2 * limit
  {
    var end := r.start + HOUR;
    if t >= r.start {
      CountSplit(log, t, end, t + HOUR);
      CountNone(log, end, t + HOUR);
      CountMonotone(log, t, end, r.start, end);
    } else {
      CountSplit(log, t, r.start, t + HOUR);
      CountMonotone(log, t, r.start, r.start - HOUR + 1, r.start);
      CountMonotone(log, r.start, t + HOUR, r.start, end);
    }
  }

  /** One attempt of a client that asks before it records: it waits, asks, is told whether the other
      limit (what is in flight) allows it, and if both do records after a delay. */
  datatype Attempt = Attempt(wait: nat, otherwiseAllowed: bool, delay: nat)

  datatype Client = Client(meter: Meter, log: seq<int>, now: int)

  function Attempted(s: Client, a: Attempt, limit: nat): Client {
    var asked := s.now + a.wait;
    var m := Restarted(s.meter, asked);
    if a.otherwiseAllowed && m.count < limit
    then Client(Recorded(m, asked + a.delay), s.log + [asked + a.delay], asked + a.delay)
    else Client(m, s.log, asked)
  }

  function ClientRun(start: int, attempts: seq<Attempt>, limit: nat): Client {
    if attempts == [] then Client(Meter(0, start), [], start)
    else Attempted(ClientRun(start, attempts[..|attempts| - 1], limit), attempts[|attempts| - 1], limit)
  }

  /** Over every run of such a client, every hour sees at most twice the limit, and the current window
      at most the limit. */
  lemma {:induction false} EveryHourIsBounded(start: int, attempts: seq<Attempt>, limit: nat)
    ensures var s := ClientRun(start, attempts, limit);
      && Paced(s.meter, s.log, s.now, limit)
      && (forall t :: InHour(s.log, t) <= 2 * limit)
      && CountIn(s.log, s.meter.start, s.meter.start + HOUR) <= limit
  {
    if attempts != [] {
      EveryHourIsBounded(start, attempts[..|attempts| - 1], limit);
      AttemptKeepsPace(ClientRun(start, attempts[..|attempts| - 1], limit), attempts[|attempts| - 1], limit);
    }
  }

  lemma AttemptKeepsPace(s: Client, a: Attempt, limit: nat)
    requires Paced(s.meter, s.log, s.now, limit)
    ensures var r := Attempted(s, a, limit); Paced(r.meter, r.log, r.now, limit)
  {
    var asked := s.now + a.wait;
    RestartKeepsPace(s.meter, s.log, s.now, asked, limit);
    var m := Restarted(s.meter, asked);
    if a.otherwiseAllowed && m.count < limit {
      RecordKeepsPace(m, s.log, asked, asked + a.delay, limit);
      assert Attempted(s, a, limit).log == s.log + [asked + a.delay];
    } else {
      assert Attempted(s, a, limit).log == s.log;
    }
  }

  /* ------------------------- When every hour stays within the limit ------------------------- */

  /** Events in the hour that ends with `t`. */
  function Trailing(log: seq<int>, t: int): nat {
    CountIn(log, t - HOUR + 1, t + 1)
  }

  /** Every hour sees at most the limit. */
  ghost predicate HoursWithin(log: seq<int>, limit: nat) {
    forall t :: InHour(log, t) <= limit
  }

  /** One more event, no earlier than the others, leaves every hour within the limit exactly when the hour
      that ends with it had room for it: what an exact limiter would have to ask. */
  lemma RecordKeepsHoursIff(log: seq<int>, later: int, limit: nat)
    requires HoursWithin(log, limit) && forall i | 0 <= i < |log| :: log[i] <= later
    ensures HoursWithin(log + [later], limit) <==> Trailing(log, later) < limit
  {
    var next, from := log + [later], later - HOUR + 1;
    CountAppend(log, later, from, later + 1);
    assert InHour(next, from) == Trailing(log, later) + 1;
    if Trailing(log, later) < limit {
      forall t ensures InHour(next, t) <= limit {
        CountAppend(log, later, t, t + HOUR);
        assert InHour(log, t) <= limit;
        if t <= later < t + HOUR {
          NothingAfter(log, later + 1, t, t + HOUR);
          CountMonotone(log, t, later + 1, from, later + 1);
        }
      }
    }
  }

  lemma {:induction false} NothingAfter(log: seq<int>, end: int, low: int, high: int)
    requires low <= end <= high && forall i | 0 <= i < |log| :: log[i] < end
    ensures CountIn(log, low, high) == CountIn(log, low, end)
  {
    if log != [] {
      NothingAfter(log[..|log| - 1], end, low, high);
    }
  }

  ghost predicate InOrder(log: seq<int>) {
    forall i, j | 0 <= i < j < |log| :: log[i] <= log[j]
  }

  /** Each event found room in the hour that ended with it. */
  ghost predicate EachHadRoom(log: seq<int>, limit: nat) {
    forall k {:trigger log[..k]} | 0 <= k < |log| :: Trailing(log[..k], log[k]) < limit
  }

  /** Every hour of a run is within the limit exactly when every event, as it was recorded, had room in the
      hour that ended with it. */
  lemma {:induction false} HoursWithinIff(log: seq<int>, limit: nat)
    requires InOrder(log)
    ensures HoursWithin(log, limit) <==> EachHadRoom(log, limit)
  {
    if log != [] {
      var k := |log| - 1;
      assert log == log[..k] + [log[k]];
      HoursWithinIff(log[..k], limit);
      FewerBefore(log, k, limit);
      assert forall m | 0 <= m < k :: log[..k][..m] == log[..m] && log[..k][m] == log[m];
      if EachHadRoom(log, limit) {
        assert EachHadRoom(log[..k], limit);
      }
      if HoursWithin(log[..k], limit) {
        RecordKeepsHoursIff(log[..k], log[k], limit);
      }
      if HoursWithin(log[..k], limit) && Trailing(log[..k], log[k]) < limit {
        forall m {:trigger log[..m]} | 0 <= m < |log| ensures Trailing(log[..m], log[m]) < limit {
          if m < k {
            assert Trailing(log[..k][..m], log[..k][m]) < limit;
          }
        }
      }
    }
  }

  lemma FewerBefore(log: seq<int>, k: nat, limit: nat)
    requires |log| == k + 1
    ensures HoursWithin(log, limit) ==> HoursWithin(log[..k], limit)
  {
    forall t ensures InHour(log[..k], t) <= InHour(log, t) {}
    if HoursWithin(log, limit) {
      forall t ensures InHour(log[..k], t) <= limit {
        assert InHour(log, t) <= limit;
      }
    }
  }

  lemma {:induction false} ClientInOrder(start: int, attempts: seq<Attempt>, limit: nat)
    ensures var s := ClientRun(start, attempts, limit);
      InOrder(s.log) && forall i | 0 <= i < |s.log| :: s.log[i] <= s.now
  {
    if attempts != [] {
      ClientInOrder(start, attempts[..|attempts| - 1], limit);
    }
  }

  /** So for every run of a client that asks the tracker before it records: its window counter is enough to
      keep every hour within the limit exactly in the runs in which a trailing hour would have said the same. */
  lemma ClientHoursWithinIff(start: int, attempts: seq<Attempt>, limit: nat)
    ensures var log := ClientRun(start, attempts, limit).log;
      HoursWithin(log, limit) <==> EachHadRoom(log, limit)
  {
    ClientInOrder(start, attempts, limit);
    HoursWithinIff(ClientRun(start, attempts, limit).log, limit);
  }

  lemma NextAttempt(start: int, attempts: seq<Attempt>, a: Attempt, limit: nat)
    ensures ClientRun(start, attempts + [a], limit) == Attempted(ClientRun(start, attempts, limit), a, limit)
  {
    assert (attempts + [a])[..|attempts + [a]| - 1] == attempts;
  }

  /** It is not enough in all runs: with a limit of one, a power-on at the very end of a window and one at the
      start of the next are both recorded, a nanosecond apart. */
  lemma TwiceTheLimitHappens()
    ensures var attempts := [Attempt(HOUR - 1, true, 0), Attempt(1, true, 0)];
      var log := ClientRun(0, attempts, 1).log;
      log == [HOUR - 1, HOUR] && InHour(log, HOUR - 1) == 2 && !HoursWithin(log, 1)
  {
    var first, second := Attempt(HOUR - 1, true, 0), Attempt(1, true, 0);
    NextAttempt(0, [], first, 1);
    NextAttempt(0, [first], second, 1);
    assert [] + [first] == [first] && [first] + [second] == [first, second];
    var log := ClientRun(0, [first, second], 1).log;
    assert log == [HOUR - 1] + [HOUR];
    CountAppend([HOUR - 1], HOUR, HOUR - 1, HOUR - 1 + HOUR);
    CountAppend([], HOUR - 1, HOUR - 1, HOUR - 1 + HOUR);
    assert [HOUR - 1] == [] + [HOUR - 1];
    assert InHour(log, HOUR - 1) == 2;
  }

  /* ------------------------------------ The tracker ------------------------------------ */

  datatype Budgets = Budgets(maxConcurrentPowerOns: int, maxMigrationsPerHour: int, maxPowerOnsPerHour: int)

  datatype Limits = Limits(maxConcurrent: int, maxMigrations: int, maxPowerOns: int)

  const DEFAULTS := Limits(3, 10, 20)

  /** A positive override in the policy wins over the default. */
  function EffectiveLimits(policy: Option<Budgets>): (l: Limits)
    ensures l.maxConcurrent > 0 && l.maxMigrations > 0 && l.maxPowerOns > 0
  {
    match policy
    case None => DEFAULTS
    case Some(b) =>
      Limits(if b.maxConcurrentPowerOns > 0 then b.maxConcurrentPowerOns else DEFAULTS.maxConcurrent,
             if b.maxMigrationsPerHour > 0 then b.maxMigrationsPerHour else DEFAULTS.maxMigrations,
             if b.maxPowerOnsPerHour > 0 then b.maxPowerOnsPerHour else DEFAULTS.maxPowerOns)
  }

  /** Each limit is the policy's own where that is positive; the defaults are 3 power-ons in flight, 10
      migrations and 20 power-ons an hour. */
  lemma OverridesWin(policy: Option<Budgets>)
    ensures var l, any := EffectiveLimits(policy), policy.Some?;
      && l.maxConcurrent
         == (if any && policy.value.maxConcurrentPowerOns > 0 then policy.value.maxConcurrentPowerOns else 3)
      && l.maxMigrations
         == (if any && policy.value.maxMigrationsPerHour > 0 then policy.value.maxMigrationsPerHour else 10)
      && l.maxPowerOns
         == (if any && policy.value.maxPowerOnsPerHour > 0 then policy.value.maxPowerOnsPerHour else 20)
  {
  }

  class Tracker {
    var powerOnsInFlight: map<Name, int>
    var powerOns: Meter
    var migrations: Meter

    ghost var powerOnLog: seq<int>
    ghost var migrationLog: seq<int>
    ghost var lastSeen: int

    /** The clock has not run backwards. What the counters say about the logs is `Paced`. */
    ghost predicate Valid()
      reads this
    {
      powerOns.start <= lastSeen && migrations.start <= lastSeen
    }

    /** Power-ons have kept to a limit of `perHour` in every window so far. */
    ghost predicate PowerPaced(perHour: nat)
      reads this
    {
      Paced(powerOns, powerOnLog, lastSeen, perHour)
    }

    ghost predicate MigrationPaced(perHour: nat)
      reads this
    {
      Paced(migrations, migrationLog, lastSeen, perHour)
    }

    constructor (now: int)
      ensures Valid() && powerOnsInFlight == map[] && powerOnLog == [] && migrationLog == [] && lastSeen == now
      ensures forall limit: nat :: PowerPaced(limit) && MigrationPaced(limit)
    {
      powerOnsInFlight := map[];
      powerOns, migrations := Meter(0, now), Meter(0, now);
      powerOnLog, migrationLog, lastSeen := [], [], now;
    }

    method ResetHourlyIfNeeded(now: int)
      requires Valid() && lastSeen <= now
      modifies this`powerOns, this`migrations, this`lastSeen
      ensures Valid() && lastSeen == now
      ensures powerOns == Restarted(old(powerOns), now) && migrations == Restarted(old(migrations), now)
      ensures forall limit: nat | old(PowerPaced(limit)) :: PowerPaced(limit)
      ensures forall limit: nat | old(MigrationPaced(limit)) :: MigrationPaced(limit)
    {
      forall limit: nat | PowerPaced(limit) ensures Paced(Restarted(powerOns, now), powerOnLog, now, limit) {
        RestartKeepsPace(powerOns, powerOnLog, lastSeen, now, limit);
      }
      forall limit: nat | MigrationPaced(limit) ensures Paced(Restarted(migrations, now), migrationLog, now, limit) {
        RestartKeepsPace(migrations, migrationLog, lastSeen, now, limit);
      }
      if now - powerOns.start >= HOUR {
        powerOns := Meter(0, now);
      }
      if now - migrations.start >= HOUR {
        migrations := Meter(0, now);
      }
      lastSeen := now;
    }

    method GetCurrentState(now: int) returns (inFlight: nat, migrationsThisHour: int)
      requires Valid() && lastSeen <= now
      modifies this`powerOns, this`migrations, this`lastSeen
      ensures Valid() && lastSeen == now
      ensures inFlight == |powerOnsInFlight| && migrationsThisHour == Restarted(old(migrations), now).count
    {
      ResetHourlyIfNeeded(now);
      inFlight, migrationsThisHour := |powerOnsInFlight|, migrations.count;
    }

    /** True exactly when both the number in flight and this window's count are below their limits. */
    method CanPowerOn(policy: Option<Budgets>, now: int) returns (can: bool)
      requires Valid() && lastSeen <= now
      modifies this`powerOns, this`migrations, this`lastSeen
      ensures Valid() && lastSeen == now
      ensures forall limit: nat | old(PowerPaced(limit)) :: PowerPaced(limit)
      ensures powerOns == Restarted(old(powerOns), now)
      ensures can <==> |powerOnsInFlight| < EffectiveLimits(policy).maxConcurrent
                       && powerOns.count < EffectiveLimits(policy).maxPowerOns
    {
      ResetHourlyIfNeeded(now);
      var limits := EffectiveLimits(policy);
      can := |powerOnsInFlight| < limits.maxConcurrent && powerOns.count < limits.maxPowerOns;
    }

    /** Recording is not guarded: it counts even past the limits. It keeps a pace when the window's
        count was still below it. */
    method RecordPowerOn(node: Name, now: int)
      requires Valid() && lastSeen <= now
      modifies this
      ensures Valid() && lastSeen == now
      ensures powerOnsInFlight == old(powerOnsInFlight)[node := now] && powerOnLog == old(powerOnLog) + [now]
      ensures powerOns == Recorded(old(powerOns), now) && migrations == Restarted(old(migrations), now)
      ensures migrationLog == old(migrationLog)
      ensures forall limit: nat | old(PowerPaced(limit)) && Restarted(old(powerOns), now).count < limit ::
          PowerPaced(limit)
      ensures forall limit: nat | old(MigrationPaced(limit)) :: MigrationPaced(limit)
    {
      forall limit: nat | PowerPaced(limit) && Restarted(powerOns, now).count < limit
        ensures Paced(Recorded(powerOns, now), powerOnLog + [now], now, limit)
      {
        RecordKeepsPace(powerOns, powerOnLog, lastSeen, now, limit);
      }
      ResetHourlyIfNeeded(now);
      powerOnsInFlight := powerOnsInFlight[node := now];
      powerOns := Meter(powerOns.count + 1, powerOns.start);
      powerOnLog := powerOnLog + [now];
    }

    method CompletePowerOn(node: Name)
      requires Valid()
      modifies this`powerOnsInFlight
      ensures powerOnsInFlight == old(powerOnsInFlight) - {node}
    {
      powerOnsInFlight := powerOnsInFlight - {node};
    }

    method CanMigrate(policy: Option<Budgets>, now: int) returns (can: bool)
      requires Valid() && lastSeen <= now
      modifies this`powerOns, this`migrations, this`lastSeen
      ensures Valid() && lastSeen == now
      ensures forall limit: nat | old(MigrationPaced(limit)) :: MigrationPaced(limit)
      ensures migrations == Restarted(old(migrations), now)
      ensures can <==> migrations.count < EffectiveLimits(policy).maxMigrations
    {
      ResetHourlyIfNeeded(now);
      can := migrations.count < EffectiveLimits(policy).maxMigrations;
    }

    method RecordMigration(now: int)
      requires Valid() && lastSeen <= now
      modifies this`powerOns, this`migrations, this`lastSeen, this`migrationLog
      ensures Valid() && lastSeen == now && migrationLog == old(migrationLog) + [now]
      ensures migrations == Recorded(old(migrations), now) && powerOns == Restarted(old(powerOns), now)
      ensures forall limit: nat | old(MigrationPaced(limit)) && Restarted(old(migrations), now).count < limit ::
          MigrationPaced(limit)
      ensures forall limit: nat | old(PowerPaced(limit)) :: PowerPaced(limit)
    {
      forall limit: nat | MigrationPaced(limit) && Restarted(migrations, now).count < limit
        ensures Paced(Recorded(migrations, now), migrationLog + [now], now, limit)
      {
        RecordKeepsPace(migrations, migrationLog, lastSeen, now, limit);
      }
      ResetHourlyIfNeeded(now);
      migrations := Meter(migrations.count + 1, migrations.start);
      migrationLog := migrationLog + [now];
    }

    /** After a sync the nodes in flight are the booting ones; known start times are kept. */
    method SyncWithCluster(booting: set<Name>, now: int)
      requires Valid()
      modifies this`powerOnsInFlight
      ensures powerOnsInFlight
           == map n | n in booting :: if n in old(powerOnsInFlight) then old(powerOnsInFlight)[n] else now
    {
      var known := powerOnsInFlight;
      powerOnsInFlight := map n | n in booting :: if n in known then known[n] else now;
    }

    /** One client that asks before it records, at any later time: the pace is kept. */
    method AskThenRecord(policy: Option<Budgets>, node: Name, asked: int, recorded: int) returns (done: bool)
      requires Valid() && lastSeen <= asked <= recorded
      requires PowerPaced(EffectiveLimits(policy).maxPowerOns)
      modifies this
      ensures Valid() && PowerPaced(EffectiveLimits(policy).maxPowerOns)
      ensures done ==> |powerOnsInFlight| <= EffectiveLimits(policy).maxConcurrent
      ensures powerOnLog == if done then old(powerOnLog) + [recorded] else old(powerOnLog)
      ensures var limit := EffectiveLimits(policy).maxPowerOns;
        HoursWithin(old(powerOnLog), limit) ==>
          (HoursWithin(powerOnLog, limit) <==> !done || Trailing(old(powerOnLog), recorded) < limit)
    {
      done := CanPowerOn(policy, asked);
      if done {
        if HoursWithin(powerOnLog, EffectiveLimits(policy).maxPowerOns) {
          RecordKeepsHoursIff(powerOnLog, recorded, EffectiveLimits(policy).maxPowerOns);
        }
        RecordPowerOn(node, recorded);
      }
    }
  }
}
