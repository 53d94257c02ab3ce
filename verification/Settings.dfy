/** Configuration checks at start-up, and what they do and do not guarantee the worker and the
    limiter. */
module Settings {
  import opened Domain
  import opened Sql
  import opened Machine
  import opened Gate
  import opened Paging
  import RateLimiter

  const SECOND: Time := 1_000_000_000
  const DAY: Time := 24 * 60 * 60 * SECOND

  datatype Config = Config(
    cutoffDays: int, cancelInterval: Time, rps: real, burst: int, maxUploadSizeMB: int,
    appPort: Option<int>, databaseUrl: string, maxOpenConns: int, maxIdleConns: int)

  datatype Setting =
    | WorkerOrganicCutoffDays | WorkerCancelInterval | RateLimitRps | RateLimitBurst | MaxUploadSizeMB
    | AppPort | DatabaseUrl | DbMaxOpenConns | DbMaxIdleConns

  /** The first setting that is refused, if any. */
  function Validate(c: Config): Option<Setting> {
    if c.cutoffDays < 1 then Some(WorkerOrganicCutoffDays)
    else if c.cancelInterval < SECOND then Some(WorkerCancelInterval)
    else if c.rps < 1.0 then Some(RateLimitRps)
    else if c.burst < 1 then Some(RateLimitBurst)
    else if c.maxUploadSizeMB < 1 then Some(MaxUploadSizeMB)
    else if c.appPort.None? || c.appPort.value < 1 || c.appPort.value > 65535 then Some(AppPort)
    else if c.databaseUrl == "" then Some(DatabaseUrl)
    else if c.maxOpenConns < 1 then Some(DbMaxOpenConns)
    else if c.maxIdleConns < 0 then Some(DbMaxIdleConns)
    else None
  }

  /** Accepted are exactly the settings with at least one day, an interval of a second, one
      request per second, a burst of one, one megabyte, a port from 1 to 65535, a database, one
      open connection and no negative number of idle ones; a refusal names a setting at fault,
      and the numbers before it are in order. */
  lemma AcceptedIff(c: Config)
    ensures Validate(c).None? <==>
      && c.cutoffDays >= 1 && c.cancelInterval >= 1_000_000_000 && c.rps >= 1.0 && c.burst >= 1
      && c.maxUploadSizeMB >= 1 && c.appPort.Some? && 1 <= c.appPort.value <= 65535
      && c.databaseUrl != "" && c.maxOpenConns >= 1 && c.maxIdleConns >= 0
    ensures Validate(c) == Some(WorkerOrganicCutoffDays) <==> c.cutoffDays <= 0
    ensures Validate(c) == Some(WorkerCancelInterval) <==> c.cutoffDays >= 1 && c.cancelInterval <= 999_999_999
    ensures Validate(c) == Some(RateLimitRps) ==> c.rps < 1.0 && c.cancelInterval >= 1_000_000_000
    ensures Validate(c) == Some(RateLimitBurst) ==> c.burst <= 0 && c.rps >= 1.0
    ensures Validate(c) == Some(MaxUploadSizeMB) ==> c.maxUploadSizeMB <= 0 && c.burst >= 1
    ensures Validate(c) == Some(AppPort) ==>
              c.maxUploadSizeMB >= 1 && (c.appPort.Some? ==> !(1 <= c.appPort.value <= 65535))
    ensures Validate(c) == Some(DatabaseUrl) ==> c.databaseUrl == "" && c.appPort.Some?
    ensures Validate(c) == Some(DbMaxOpenConns) ==> c.maxOpenConns <= 0 && c.databaseUrl != ""
    ensures Validate(c) == Some(DbMaxIdleConns) ==> c.maxIdleConns < 0 && c.maxOpenConns >= 1
  {
  }

  // ---- the limiter ----

  /** The limiter's settings in tokens per nanosecond. */
  function LimiterConfig(c: Config): RateLimiter.Config
    requires 0 <= c.burst
  {
    RateLimiter.Config(c.rps / SECOND as real, c.burst)
  }

  /** Accepted settings satisfy the limiter's own requirements, but keep the promised limit and
      an invisible eviction exactly if the burst refills within half an hour and a nanosecond. */
  lemma AcceptedLimiter(c: Config)
    requires Validate(c).None?
    ensures RateLimiter.Valid(LimiterConfig(c))
    ensures (forall clock, es :: RateLimiter.Invisible(LimiterConfig(c), clock, es))
            <==> c.burst as real <= c.rps * 1800.000000001
  {
    var k := LimiterConfig(c);
    var t := (RateLimiter.EVICT_THRESHOLD + 1) as real;
    var s := SECOND as real;
    assert k.rate * s == c.rps;
    assert k.rate * t * s == c.rps * t;
    assert t == 1800.000000001 * s;
    assert c.rps * t == c.rps * 1800.000000001 * s;
    RateLimiter.EvictionInvisibleIff(k);
  }

  // ---- the worker ----

  /** The age from which the worker cancels: whole days, in nanoseconds, on 64 bits. */
  function Cutoff(c: Config): Time {
    Wrap(c.cutoffDays * DAY)
  }

  /** The instant a cycle at time `now` compares creation times with; negation wraps as well. */
  function CutoffTime(c: Config, now: Time): Time {
    now + Wrap(-Cutoff(c))
  }

  /** What a cycle at time `now` lists: exactly the pending organic pickups older than the
      configured days of 86400 seconds. */
  ghost predicate ExactlyOldOnes(c: Config, t: Tables, now: Time) {
    forall i | i in t.pickups ::
      i in ExpiredOrganic(t, CutoffTime(c, now)) <==>
        && t.pickups[i].kind == Organic && t.pickups[i].status == Pending
        && now - t.pickups[i].createdAt > c.cutoffDays * 86_400_000_000_000
  }

  const MAX_CUTOFF_DAYS: int := 106_751

  lemma CutoffWrapsIff(c: Config)
    requires c.cutoffDays >= 1
    ensures Wrap(-Cutoff(c)) == -(c.cutoffDays * DAY) <==> c.cutoffDays <= MAX_CUTOFF_DAYS
    ensures c.cutoffDays > MAX_CUTOFF_DAYS ==> -Wrap(-Cutoff(c)) < c.cutoffDays * DAY
  {
    var days := c.cutoffDays * DAY;
    if c.cutoffDays > MAX_CUTOFF_DAYS {
      assert days > MAX_INT64 + 1;
    }
  }

  ghost predicate HonoredIn(c: Config, now: Time, es: seq<Event>) {
    var w := Run(Init(now), es);
    ExactlyOldOnes(c, w.db, w.now)
  }

  /** In every reachable state a cycle lists exactly the pending organic pickups older than the
      configured days: that is so exactly up to 106751 days. From then on the number of nanoseconds does not fit 64
      bits, and validation has no upper bound. */
  lemma CutoffHonoredIff(c: Config)
    requires Validate(c).None?
    ensures (forall now, es :: HonoredIn(c, now, es)) <==> c.cutoffDays <= MAX_CUTOFF_DAYS
  {
    CutoffWrapsIff(c);
    if c.cutoffDays > MAX_CUTOFF_DAYS {
      var age := Max(0, 1 - Wrap(-Cutoff(c)));
      OnePickup(0, age);
      var w := Run(Init(0), OldPickup(age));
      assert 2 in ExpiredOrganic(w.db, CutoffTime(c, w.now));
      assert !HonoredIn(c, 0, OldPickup(age));
    } else {
      forall now, es ensures HonoredIn(c, now, es) {
      }
    }
  }

  /** One household, one organic pickup, and some time that passes. */
  function OldPickup(age: nat): seq<Event> {
    [AddHousehold("owner", "address")] + [Start(1, CreatePickup(0, Organic, false)), Step(1, true), Step(1, true)]
    + [Tick(age)]
  }

  lemma OnePickup(now: Time, age: nat)
    ensures var w := Run(Init(now), OldPickup(age));
      w.db.pickups == map[2 := NewPickup(2, 0, Organic, false, now)] && w.now == now + age
  {
    var first := [AddHousehold("owner", "address")];
    var create := [Start(1, CreatePickup(0, Organic, false)), Step(1, true), Step(1, true)];
    OneHousehold(now);
    var w1 := Run(Init(now), first);
    CreateThrough(w1, 1, 0, Organic);
    RunShort(Run(w1, create), Tick(age), Tick(0), Tick(0));
    RunConcat(Init(now), first, create);
    RunConcat(Init(now), first + create, [Tick(age)]);
    hide Run;
  }

  /** With 106752 days the cutoff time lies in the future, and the worker lists pickups created
      just now. */
  lemma TooManyDaysListFreshPickups(c: Config, t: Tables, now: Time, i: Id)
    requires c.cutoffDays == MAX_CUTOFF_DAYS + 1
    requires i in t.pickups && t.pickups[i].kind == Organic && t.pickups[i].status == Pending
    requires t.pickups[i].createdAt == now
    ensures i in ExpiredOrganic(t, CutoffTime(c, now))
  {
    assert Cutoff(c) < 0;
  }
}
