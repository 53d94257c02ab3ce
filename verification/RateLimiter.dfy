/** The per-IP token buckets in front of pickup creation, and the sweeper that forgets idle
    clients. Times are nanoseconds; `rate` is in tokens per nanosecond. */
module RateLimiter {
  import opened Domain

  type Ip = nat

  const EVICT_THRESHOLD: Time := 30 * 60 * 1_000_000_000

  datatype Config = Config(rate: real, burst: nat)

  /** What configuration validation guarantees of the two settings. */
  predicate Valid(c: Config) {
    c.rate > 0.0 && c.burst >= 1
  }

  // ---- one token bucket, the assumed behaviour of rate.Limiter ----

  datatype Bucket = Bucket(tokens: real, last: Time)

  function NewBucket(c: Config, now: Time): Bucket {
    Bucket(c.burst as real, now)
  }

  function Least(a: real, b: real): real {
    if a <= b then a else b
  }

  /** Tokens gained over a stretch of time. */
  function Gain(c: Config, d: Time): real {
    c.rate * d as real
  }

  /** Tokens available at `now`: refilled since `last`, never more than the burst. */
  function Available(c: Config, b: Bucket, now: Time): real {
    Least(c.burst as real, b.tokens + Gain(c, now - b.last))
  }

  /** Take one token if there is one; a refused request leaves the bucket alone. */
  function Take(c: Config, b: Bucket, now: Time): (Bucket, bool) {
    var t := Available(c, b, now);
    if t >= 1.0 then (Bucket(t - 1.0, now), true) else (b, false)
  }

  // ---- the limiter map ----

  datatype Entry = Entry(bucket: Bucket, lastSeen: Time)

  function BucketOf(c: Config, m: map<Ip, Entry>, ip: Ip, now: Time): Bucket {
    if ip in m then m[ip].bucket else NewBucket(c, now)
  }

  /** One request: load or store the client's bucket, touch it, ask it. */
  function Admit(c: Config, m: map<Ip, Entry>, ip: Ip, now: Time): (map<Ip, Entry>, bool) {
    var (b, ok) := Take(c, BucketOf(c, m, ip, now), now);
    (m[ip := Entry(b, now)], ok)
  }

  /** Forget the clients not seen since the threshold before `now`. */
  function Sweep(m: map<Ip, Entry>, now: Time): map<Ip, Entry> {
    map ip | ip in m && m[ip].lastSeen >= now - EVICT_THRESHOLD :: m[ip]
  }

  // ---- traces ----

  /** A sweep carries the time its ticker fired, which may lie before the latest request or, in
      a quiet stretch, after it. */
  datatype Event = Request(ip: Ip, now: Time) | SweepAt(now: Time)

  /** The clock follows requests and sweeps, and no request lies before it. */
  predicate Timed(clock: Time, es: seq<Event>)
    decreases |es|
  {
    es != [] ==>
      match es[0]
      case Request(_, now) => clock <= now && Timed(now, es[1..])
      case SweepAt(now) => Timed(Max(clock, now), es[1..])
  }

  /** The map after one event. */
  function After(c: Config, m: map<Ip, Entry>, e: Event): map<Ip, Entry> {
    match e
    case Request(ip, now) => Admit(c, m, ip, now).0
    case SweepAt(now) => Sweep(m, now)
  }

  function AfterAll(c: Config, m: map<Ip, Entry>, es: seq<Event>): map<Ip, Entry>
    decreases |es|
  {
    if es == [] then m else AfterAll(c, After(c, m, es[0]), es[1..])
  }

  /** The decision an event brings, if it is a request. */
  function Decision(c: Config, m: map<Ip, Entry>, e: Event): seq<bool> {
    match e
    case Request(ip, now) => [Admit(c, m, ip, now).1]
    case SweepAt(_) => []
  }

  /** The decisions of a trace, request by request. */
  function Decisions(c: Config, m: map<Ip, Entry>, es: seq<Event>): (ds: seq<bool>)
    ensures |ds| == |WithoutSweeps(es)|
    decreases |es|
  {
    if es == [] then [] else Decision(c, m, es[0]) + Decisions(c, After(c, m, es[0]), es[1..])
  }

  /** The same trace for a limiter that never forgets. */
  function WithoutSweeps(es: seq<Event>): seq<Event> {
    if es == [] then [] else (if es[0].Request? then [es[0]] else []) + WithoutSweeps(es[1..])
  }

  // ---- who is remembered ----

  /** Not a request of `ip`, and not a sweep more than half an hour after `seen`. */
  predicate Spares(e: Event, ip: Ip, seen: Time) {
    match e
    case Request(other, _) => other != ip
    case SweepAt(now) => now <= seen + 1_800_000_000_000
  }

  predicate Quiet(es: seq<Event>, ip: Ip, seen: Time) {
    forall e | e in es :: Spares(e, ip, seen)
  }

  /** The request at `k` is the last one of `ip`, and no sweep came more than half an hour after it. */
  predicate LastSeenAt(es: seq<Event>, ip: Ip, k: nat)
    requires k < |es|
  {
    es[k].Request? && es[k].ip == ip && Quiet(es[k + 1..], ip, es[k].now)
  }

  lemma QuietTail(es: seq<Event>, ip: Ip, seen: Time)
    requires es != []
    ensures Quiet(es, ip, seen) <==> Spares(es[0], ip, seen) && Quiet(es[1..], ip, seen)
  {
    assert forall e :: e in es <==> e == es[0] || e in es[1..];
  }

  lemma LastSeenShift(es: seq<Event>, ip: Ip)
    requires es != []
    ensures (exists k | 0 <= k < |es| :: LastSeenAt(es, ip, k)) <==>
              || LastSeenAt(es, ip, 0) || exists k | 0 <= k < |es[1..]| :: LastSeenAt(es[1..], ip, k)
  {
    var rest := es[1..];
    forall k | 0 <= k < |rest| ensures LastSeenAt(es, ip, k + 1) == LastSeenAt(rest, ip, k) {
      assert es[k + 2..] == rest[k + 1..];
    }
    if k :| 1 <= k < |es| && LastSeenAt(es, ip, k) {
      assert LastSeenAt(rest, ip, k - 1) == LastSeenAt(es, ip, k - 1 + 1);
    }
  }

  lemma {:induction false} TrackedIff(c: Config, m: map<Ip, Entry>, es: seq<Event>, ip: Ip)
    ensures ip in AfterAll(c, m, es) <==>
              || (ip in m && Quiet(es, ip, m[ip].lastSeen))
              || exists k | 0 <= k < |es| :: LastSeenAt(es, ip, k)
    decreases |es|
  {
    if es != [] {
      var m1 := After(c, m, es[0]);
      TrackedIff(c, m1, es[1..], ip);
      LastSeenShift(es, ip);
      if ip in m { QuietTail(es, ip, m[ip].lastSeen); }
      assert LastSeenAt(es, ip, 0) <==> es[0].Request? && es[0].ip == ip && Quiet(es[1..], ip, es[0].now);
    }
  }

  /** From an empty map on, whoever is refused or admitted: a client is tracked exactly if no
      sweep has come more than half an hour after its last request. */
  lemma RemembersIff(c: Config, es: seq<Event>, ip: Ip)
    ensures ip in AfterAll(c, map[], es) <==> exists k | 0 <= k < |es| :: LastSeenAt(es, ip, k)
  {
    TrackedIff(c, map[], es, ip);
  }

  // ---- eviction is invisible when the threshold outlasts a refill ----

  lemma GainAdd(c: Config, d: Time, e: Time)
    ensures Gain(c, d) + Gain(c, e) == Gain(c, d + e)
  {
    assert (d + e) as real == d as real + e as real;
  }

  lemma GainMono(c: Config, d: Time, e: Time)
    requires Valid(c) && d <= e
    ensures Gain(c, d) <= Gain(c, e)
  {
    GainAdd(c, d, e - d);
    assert 0.0 <= c.rate * (e - d) as real;
  }

  predicate Sane(c: Config, b: Bucket) {
    0.0 <= b.tokens <= c.burst as real
  }

  /** The evicting map `m` and the unforgetting map `full` agree on the buckets `m` has, and
      every bucket `m` has forgotten is full again. */
  ghost predicate Agree(c: Config, clock: Time, m: map<Ip, Entry>, full: map<Ip, Entry>) {
    && (forall ip | ip in m :: ip in full && m[ip].bucket == full[ip].bucket && m[ip].lastSeen <= clock)
    && (forall ip | ip in full ::
          Sane(c, full[ip].bucket) && full[ip].bucket.last <= full[ip].lastSeen <= clock)
    && (forall ip | ip in m :: m[ip].bucket.last <= m[ip].lastSeen)
    && (forall ip | ip in full && ip !in m :: Available(c, full[ip].bucket, clock) == c.burst as real)
  }

  /** The longest refill the sweeper waits for is one nanosecond past the threshold. */
  predicate RefillsInTime(c: Config) {
    c.burst as real <= Gain(c, EVICT_THRESHOLD + 1)
  }

  lemma StaysFull(c: Config, b: Bucket, clock: Time, now: Time)
    requires Valid(c) && clock <= now && Available(c, b, clock) == c.burst as real
    ensures Available(c, b, now) == c.burst as real
  {
    GainMono(c, clock - b.last, now - b.last);
  }

  lemma AvailableIsSane(c: Config, b: Bucket, now: Time)
    requires Valid(c) && Sane(c, b) && b.last <= now
    ensures 0.0 <= Available(c, b, now) <= c.burst as real
  {
    GainMono(c, 0, now - b.last);
  }

  lemma NewIsFull(c: Config, now: Time)
    ensures Available(c, NewBucket(c, now), now) == c.burst as real
  {
  }

  lemma RequestAgrees(c: Config, clock: Time, m: map<Ip, Entry>, full: map<Ip, Entry>, ip: Ip, now: Time)
    requires Valid(c) && Agree(c, clock, m, full) && clock <= now
    ensures Admit(c, m, ip, now).1 == Admit(c, full, ip, now).1
    ensures Agree(c, now, Admit(c, m, ip, now).0, Admit(c, full, ip, now).0)
  {
    NewIsFull(c, now);
    if ip in full {
      AvailableIsSane(c, full[ip].bucket, now);
    }
    forall other | other in full && other !in m ensures Available(c, full[other].bucket, now) == c.burst as real {
      StaysFull(c, full[other].bucket, clock, now);
    }
  }

  lemma SweepAgrees(c: Config, clock: Time, m: map<Ip, Entry>, full: map<Ip, Entry>, now: Time)
    requires Valid(c) && RefillsInTime(c) && Agree(c, clock, m, full)
    ensures Agree(c, Max(clock, now), Sweep(m, now), full)
  {
    var later := Max(clock, now);
    forall ip | ip in full && ip !in Sweep(m, now) ensures Available(c, full[ip].bucket, later) == c.burst as real {
      if ip in m {
        GainMono(c, EVICT_THRESHOLD + 1, later - full[ip].bucket.last);
      } else {
        StaysFull(c, full[ip].bucket, clock, later);
      }
    }
  }

  lemma {:induction false} AgreeingMapsDecideAlike(
    c: Config, clock: Time, m: map<Ip, Entry>, full: map<Ip, Entry>, es: seq<Event>)
    requires Valid(c) && RefillsInTime(c) && Agree(c, clock, m, full) && Timed(clock, es)
    ensures Decisions(c, m, es) == Decisions(c, full, WithoutSweeps(es))
    decreases |es|
  {
    if es != [] {
      match es[0]
      case Request(ip, now) =>
        RequestAgrees(c, clock, m, full, ip, now);
        AgreeingMapsDecideAlike(c, now, Admit(c, m, ip, now).0, Admit(c, full, ip, now).0, es[1..]);
        assert WithoutSweeps(es) == [es[0]] + WithoutSweeps(es[1..]);
      case SweepAt(now) =>
        SweepAgrees(c, clock, m, full, now);
        AgreeingMapsDecideAlike(c, Max(clock, now), Sweep(m, now), full, es[1..]);
        assert WithoutSweeps(es) == WithoutSweeps(es[1..]);
    }
  }

  // ---- and only then ----

  function Repeat(ip: Ip, now: Time, k: nat): seq<Event> {
    if k == 0 then [] else [Request(ip, now)] + Repeat(ip, now, k - 1)
  }

  predicate AllAllowed(ds: seq<bool>) {
    false !in ds
  }

  /** `k` requests of one client at one instant all pass exactly if `k` tokens are there, and
      then leave the rest. */
  lemma {:induction false} Drain(c: Config, m: map<Ip, Entry>, ip: Ip, now: Time, k: nat)
    requires Valid(c)
    requires ip in m ==> Sane(c, m[ip].bucket) && m[ip].bucket.last <= now
    ensures var a := Available(c, BucketOf(c, m, ip, now), now);
      && (AllAllowed(Decisions(c, m, Repeat(ip, now, k))) <==> k as real <= a || k == 0)
      && (AllAllowed(Decisions(c, m, Repeat(ip, now, k))) && k > 0 ==>
            var u := AfterAll(c, m, Repeat(ip, now, k));
            u.Keys == m.Keys + {ip} && u[ip] == Entry(Bucket(a - k as real, now), now)
            && forall j | j in m && j != ip :: u[j] == m[j])
    decreases k
  {
    if k > 0 {
      var b := BucketOf(c, m, ip, now);
      var (m', ok) := Admit(c, m, ip, now);
      var rest := Decisions(c, m', Repeat(ip, now, k - 1));
      assert Repeat(ip, now, k)[1..] == Repeat(ip, now, k - 1);
      assert Decisions(c, m, Repeat(ip, now, k)) == [ok] + rest;
      assert AllAllowed([ok] + rest) <==> ok && AllAllowed(rest);
      if ok {
        GainMono(c, 0, now - b.last);
        assert Available(c, m'[ip].bucket, now) == Available(c, b, now) - 1.0;
        Drain(c, m', ip, now, k - 1);
      }
    }
  }

  lemma {:induction false} DecisionsConcat(c: Config, m: map<Ip, Entry>, a: seq<Event>, b: seq<Event>)
    ensures Decisions(c, m, a + b) == Decisions(c, m, a) + Decisions(c, AfterAll(c, m, a), b)
    decreases |a|
  {
    if a == [] {
      assert a + b == b;
    } else {
      assert (a + b)[0] == a[0] && (a + b)[1..] == a[1..] + b;
      var d, u := Decision(c, m, a[0]), After(c, m, a[0]);
      DecisionsConcat(c, u, a[1..], b);
      assert d + (Decisions(c, u, a[1..]) + Decisions(c, AfterAll(c, m, a), b))
          == (d + Decisions(c, u, a[1..])) + Decisions(c, AfterAll(c, m, a), b);
    }
  }

  lemma {:induction false} WithoutSweepsConcat(a: seq<Event>, b: seq<Event>)
    ensures WithoutSweeps(a + b) == WithoutSweeps(a) + WithoutSweeps(b)
  {
    if a == [] {
      assert a + b == b;
    } else {
      assert (a + b)[0] == a[0] && (a + b)[1..] == a[1..] + b;
      WithoutSweepsConcat(a[1..], b);
    }
  }

  lemma {:induction false} RepeatIsRequests(ip: Ip, now: Time, k: nat)
    ensures WithoutSweeps(Repeat(ip, now, k)) == Repeat(ip, now, k)
  {
    if k > 0 {
      RepeatIsRequests(ip, now, k - 1);
      assert Repeat(ip, now, k)[1..] == Repeat(ip, now, k - 1);
    }
  }

  lemma {:induction false} RepeatIsTimed(clock: Time, ip: Ip, now: Time, k: nat, rest: seq<Event>)
    requires clock <= now && Timed(now, rest) && k > 0
    ensures Timed(clock, Repeat(ip, now, k) + rest)
    decreases k
  {
    var es := Repeat(ip, now, k) + rest;
    assert es[0] == Request(ip, now) && es[1..] == Repeat(ip, now, k - 1) + rest;
    if k == 1 {
      assert es[1..] == rest;
    } else {
      RepeatIsTimed(now, ip, now, k - 1, rest);
    }
  }

  const RETURN: Time := EVICT_THRESHOLD + 1

  /** A client spends its burst at time `k * RETURN`, is swept away one nanosecond past the
      threshold, spends a burst again, and so on until `n * RETURN`. */
  function Bursts(c: Config, k: nat, n: nat): seq<Event>
    requires k <= n
    decreases n - k
  {
    var first := Repeat(0, k * RETURN, c.burst);
    if k == n then first else first + ([SweepAt((k + 1) * RETURN)] + Bursts(c, k + 1, n))
  }

  lemma {:induction false} BurstsTimed(c: Config, clock: Time, k: nat, n: nat)
    requires Valid(c) && k <= n && clock <= k * RETURN
    ensures Timed(clock, Bursts(c, k, n))
    decreases n - k
  {
    if k == n {
      RepeatIsTimed(clock, 0, k * RETURN, c.burst, []);
      assert Repeat(0, k * RETURN, c.burst) + [] == Repeat(0, k * RETURN, c.burst);
    } else {
      var rest := [SweepAt((k + 1) * RETURN)] + Bursts(c, k + 1, n);
      BurstsTimed(c, (k + 1) * RETURN, k + 1, n);
      assert rest[1..] == Bursts(c, k + 1, n);
      RepeatIsTimed(clock, 0, k * RETURN, c.burst, rest);
    }
  }

  /** The map after one burst of a new client. */
  lemma OneBurst(c: Config, now: Time)
    requires Valid(c)
    ensures AllAllowed(Decisions(c, map[], Repeat(0, now, c.burst)))
    ensures AfterAll(c, map[], Repeat(0, now, c.burst)) == map[0 := Entry(Bucket(0.0, now), now)]
  {
    NewIsFull(c, now);
    Drain(c, map[], 0, now, c.burst);
  }

  /** The first burst, and then the rest as if nothing had been. */
  lemma BurstsSplit(c: Config, k: nat, n: nat)
    requires Valid(c) && k < n
    ensures var first, rest := Repeat(0, k * RETURN, c.burst), Bursts(c, k + 1, n);
      && WithoutSweeps(Bursts(c, k, n)) == first + WithoutSweeps(rest)
      && Decisions(c, map[], Bursts(c, k, n)) == Decisions(c, map[], first) + Decisions(c, map[], rest)
  {
    var first, rest := Repeat(0, k * RETURN, c.burst), Bursts(c, k + 1, n);
    var sweep := SweepAt((k + 1) * RETURN);
    assert ([sweep] + rest)[1..] == rest;
    WithoutSweepsConcat(first, [sweep] + rest);
    RepeatIsRequests(0, k * RETURN, c.burst);
    OneBurst(c, k * RETURN);
    DecisionsConcat(c, map[], first, [sweep] + rest);
    assert Sweep(AfterAll(c, map[], first), (k + 1) * RETURN) == map[];
  }

  /** The evicting limiter lets all bursts through. */
  lemma {:induction false} BurstsPass(c: Config, k: nat, n: nat)
    requires Valid(c) && k <= n
    ensures AllAllowed(Decisions(c, map[], Bursts(c, k, n)))
    decreases n - k
  {
    OneBurst(c, k * RETURN);
    if k < n {
      BurstsSplit(c, k, n);
      BurstsPass(c, k + 1, n);
    }
  }

  /** The unforgetting one refuses the second, if the refill takes longer than the threshold. */
  lemma TwoBurstsRefused(c: Config)
    requires Valid(c) && !RefillsInTime(c)
    ensures !AllAllowed(Decisions(c, map[], WithoutSweeps(Bursts(c, 0, 1))))
  {
    var first, last := Repeat(0, 0, c.burst), Repeat(0, RETURN, c.burst);
    BurstsSplit(c, 0, 1);
    RepeatIsRequests(0, RETURN, c.burst);
    OneBurst(c, 0);
    DecisionsConcat(c, map[], first, last);
    Drain(c, AfterAll(c, map[], first), 0, RETURN, c.burst);
  }

  /** On trace `es` each decision equals that of a limiter map that never evicts. */
  predicate Invisible(c: Config, clock: Time, es: seq<Event>) {
    Timed(clock, es) ==> Decisions(c, map[], es) == Decisions(c, map[], WithoutSweeps(es))
  }

  /** Evicting idle limiters is invisible on every trace of requests and sweeps exactly if a
      bucket refills within the eviction threshold. Configuration validation does not ask for
      that. */
  lemma EvictionInvisibleIff(c: Config)
    requires Valid(c)
    ensures RefillsInTime(c) <==> forall clock, es :: Invisible(c, clock, es)
  {
    if RefillsInTime(c) {
      forall clock, es ensures Invisible(c, clock, es) {
        if Timed(clock, es) {
          AgreeingMapsDecideAlike(c, clock, map[], map[], es);
        }
      }
    } else {
      BurstsTimed(c, 0, 0, 1);
      BurstsPass(c, 0, 1);
      TwoBurstsRefused(c);
      assert !Invisible(c, 0, Bursts(c, 0, 1));
    }
  }

  // ---- the promised limit ----

  /** Requests of client `ip` admitted between `from` and `to`, given the decisions. */
  function Admitted(requests: seq<Event>, ds: seq<bool>, ip: Ip, from: Time, to: Time): nat
    requires |requests| == |ds|
  {
    if requests == [] then 0
    else
      (if ds[0] && requests[0].Request? && requests[0].ip == ip && from <= requests[0].now <= to then 1 else 0)
      + Admitted(requests[1..], ds[1..], ip, from, to)
  }

  function Level(c: Config, m: map<Ip, Entry>, ip: Ip, x: Time): real {
    Available(c, BucketOf(c, m, ip, x), x)
  }

  ghost predicate SaneMap(c: Config, clock: Time, m: map<Ip, Entry>) {
    forall ip | ip in m :: Sane(c, m[ip].bucket) && m[ip].bucket.last <= clock
  }

  /** What client `ip` can still take up to `to`, if it waits until `x`. */
  function Allowance(c: Config, m: map<Ip, Entry>, ip: Ip, x: Time, to: Time): real {
    if to < x then 0.0 else Level(c, m, ip, x) + Gain(c, to - x)
  }

  lemma LevelIsSane(c: Config, clock: Time, m: map<Ip, Entry>, ip: Ip, x: Time)
    requires Valid(c) && SaneMap(c, clock, m) && clock <= x
    ensures 0.0 <= Level(c, m, ip, x) <= c.burst as real
  {
    NewIsFull(c, x);
    if ip in m {
      AvailableIsSane(c, m[ip].bucket, x);
    }
  }

  /** Waiting never adds to the allowance. */
  lemma AllowanceShrinks(c: Config, clock: Time, m: map<Ip, Entry>, ip: Ip, x: Time, y: Time, to: Time)
    requires Valid(c) && SaneMap(c, clock, m) && clock <= x <= y
    ensures 0.0 <= Allowance(c, m, ip, y, to) <= Allowance(c, m, ip, x, to)
  {
    LevelIsSane(c, clock, m, ip, x);
    LevelIsSane(c, clock, m, ip, y);
    GainMono(c, 0, y - x);
    if y <= to {
      GainMono(c, 0, to - y);
      GainAdd(c, y - x, to - y);
      NewIsFull(c, x);
      if ip in m {
        GainAdd(c, x - m[ip].bucket.last, y - x);
      }
    } else if x <= to {
      GainMono(c, 0, to - x);
    }
  }

  /** An admitted request pays for itself out of the allowance. */
  lemma RequestPays(c: Config, clock: Time, m: map<Ip, Entry>, ip: Ip, now: Time, from: Time, to: Time)
    requires Valid(c) && SaneMap(c, clock, m) && clock <= now && Admit(c, m, ip, now).1
    ensures var m' := Admit(c, m, ip, now).0;
      && SaneMap(c, now, m')
      && Allowance(c, m', ip, Max(now, from), to) + (if from <= now <= to then 1.0 else 0.0)
         <= Allowance(c, m, ip, Max(now, from), to)
  {
    var m' := Admit(c, m, ip, now).0;
    var x := Max(now, from);
    LevelIsSane(c, clock, m, ip, now);
    NewIsFull(c, now);
    NewIsFull(c, x);
    GainMono(c, 0, x - now);
    if ip in m {
      GainAdd(c, now - m[ip].bucket.last, x - now);
    }
  }

  /** One request: what it admits and what is left fit the allowance before it. */
  lemma RequestFits(c: Config, clock: Time, m: map<Ip, Entry>, e: Event, ip: Ip, from: Time, to: Time)
    requires Valid(c) && SaneMap(c, clock, m) && e.Request? && clock <= e.now
    ensures var (m', ok) := Admit(c, m, e.ip, e.now);
      && SaneMap(c, e.now, m')
      && 0.0 <= Allowance(c, m', ip, Max(e.now, from), to)
      && Allowance(c, m', ip, Max(e.now, from), to)
           + (if ok && e.ip == ip && from <= e.now <= to then 1.0 else 0.0)
         <= Allowance(c, m, ip, Max(clock, from), to)
  {
    var (m', ok) := Admit(c, m, e.ip, e.now);
    NewIsFull(c, e.now);
    LevelIsSane(c, clock, m, e.ip, e.now);
    assert SaneMap(c, e.now, m');
    var x := Max(e.now, from);
    AllowanceShrinks(c, clock, m, ip, Max(clock, from), x, to);
    AllowanceShrinks(c, e.now, m', ip, x, x, to);
    if e.ip != ip {
      assert Allowance(c, m', ip, x, to) == Allowance(c, m, ip, x, to);
    } else if ok {
      RequestPays(c, clock, m, ip, e.now, from, to);
    } else {
      NewIsFull(c, x);
      assert Allowance(c, m', ip, x, to) == Allowance(c, m, ip, x, to);
    }
  }

  lemma {:induction false} AdmittedFitsAllowance(
    c: Config, clock: Time, m: map<Ip, Entry>, es: seq<Event>, ip: Ip, from: Time, to: Time)
    requires Valid(c) && SaneMap(c, clock, m) && Timed(clock, es)
    requires WithoutSweeps(es) == es
    ensures Admitted(es, Decisions(c, m, es), ip, from, to) as real <= Allowance(c, m, ip, Max(clock, from), to)
    decreases |es|
  {
    AllowanceShrinks(c, clock, m, ip, Max(clock, from), Max(clock, from), to);
    if es != [] {
      NoSweepsInside(es);
      var (m', ok) := Admit(c, m, es[0].ip, es[0].now);
      assert Decisions(c, m, es)[1..] == Decisions(c, m', es[1..]);
      RequestFits(c, clock, m, es[0], ip, from, to);
      AdmittedFitsAllowance(c, es[0].now, m', es[1..], ip, from, to);
    }
  }

  lemma NoSweepsInside(es: seq<Event>)
    requires es != [] && WithoutSweeps(es) == es
    ensures es[0].Request? && WithoutSweeps(es[1..]) == es[1..]
  {
    ShortenedBySweeps(es[1..]);
  }

  lemma {:induction false} ShortenedBySweeps(es: seq<Event>)
    ensures |WithoutSweeps(es)| <= |es|
  {
    if es != [] {
      ShortenedBySweeps(es[1..]);
    }
  }

  lemma {:induction false} RequestsAreTimed(clock: Time, later: Time, es: seq<Event>)
    requires Timed(later, es) && clock <= later
    ensures Timed(clock, WithoutSweeps(es))
    decreases |es|
  {
    if es != [] {
      match es[0]
      case Request(_, now) =>
        RequestsAreTimed(now, now, es[1..]);
        assert WithoutSweeps(es)[1..] == WithoutSweeps(es[1..]);
      case SweepAt(now) =>
        RequestsAreTimed(clock, Max(later, now), es[1..]);
        assert WithoutSweeps(es) == WithoutSweeps(es[1..]);
    }
  }

  lemma {:induction false} WithoutSweepsTwice(es: seq<Event>)
    ensures WithoutSweeps(WithoutSweeps(es)) == WithoutSweeps(es)
  {
    if es != [] {
      WithoutSweepsTwice(es[1..]);
      if es[0].Request? {
        assert WithoutSweeps(es)[1..] == WithoutSweeps(es[1..]);
      } else {
        assert WithoutSweeps(es) == WithoutSweeps(es[1..]);
      }
    }
  }

  /** The promise of a token bucket: in the window a client is admitted at most `burst` times
      plus once per token the window brings. */
  predicate KeepsLimit(c: Config, clock: Time, es: seq<Event>, ip: Ip, from: Time, to: Time) {
    Timed(clock, es) && from <= to ==>
      Admitted(WithoutSweeps(es), Decisions(c, map[], es), ip, from, to) as real <= c.burst as real + Gain(c, to - from)
  }

  lemma WindowBound(c: Config, clock: Time, es: seq<Event>, ip: Ip, from: Time, to: Time)
    requires Valid(c) && RefillsInTime(c) && Timed(clock, es) && from <= to
    ensures KeepsLimit(c, clock, es, ip, from, to)
  {
    var rs := WithoutSweeps(es);
    AgreeingMapsDecideAlike(c, clock, map[], map[], es);
    RequestsAreTimed(clock, clock, es);
    WithoutSweepsTwice(es);
    AdmittedFitsAllowance(c, clock, map[], rs, ip, from, to);
    GainMono(c, 0, to - from);
    if Max(clock, from) <= to {
      GainMono(c, to - Max(clock, from), to - from);
      NewIsFull(c, Max(clock, from));
    }
  }

  lemma {:induction false} AdmittedConcat(
    a: seq<Event>, da: seq<bool>, b: seq<Event>, db: seq<bool>, ip: Ip, from: Time, to: Time)
    requires |a| == |da| && |b| == |db|
    ensures Admitted(a + b, da + db, ip, from, to) == Admitted(a, da, ip, from, to) + Admitted(b, db, ip, from, to)
    decreases |a|
  {
    if a == [] {
      assert a + b == b && da + db == db;
    } else {
      assert (a + b)[1..] == a[1..] + b && (da + db)[1..] == da[1..] + db;
      AdmittedConcat(a[1..], da[1..], b, db, ip, from, to);
    }
  }

  lemma {:induction false} RepeatCounts(ds: seq<bool>, ip: Ip, now: Time, k: nat, from: Time, to: Time)
    requires |Repeat(ip, now, k)| == |ds| && AllAllowed(ds) && from <= now <= to
    ensures Admitted(Repeat(ip, now, k), ds, ip, from, to) == k
    decreases k
  {
    if k > 0 {
      assert Repeat(ip, now, k)[1..] == Repeat(ip, now, k - 1);
      RepeatCounts(ds[1..], ip, now, k - 1, from, to);
    }
  }

  /** The swept client gets every one of its bursts. */
  lemma {:induction false} BurstsAdmitted(c: Config, k: nat, n: nat, from: Time, to: Time)
    requires Valid(c) && k <= n && from <= k * RETURN && n * RETURN <= to
    ensures Admitted(WithoutSweeps(Bursts(c, k, n)), Decisions(c, map[], Bursts(c, k, n)), 0, from, to)
         == (n - k + 1) * c.burst
    decreases n - k
  {
    var first := Repeat(0, k * RETURN, c.burst);
    RepeatIsRequests(0, k * RETURN, c.burst);
    OneBurst(c, k * RETURN);
    RepeatCounts(Decisions(c, map[], first), 0, k * RETURN, c.burst, from, to);
    if k < n {
      var rest := Bursts(c, k + 1, n);
      BurstsSplit(c, k, n);
      BurstsAdmitted(c, k + 1, n, from, to);
      AdmittedConcat(first, Decisions(c, map[], first), WithoutSweeps(rest), Decisions(c, map[], rest), 0, from, to);
      assert (n - k + 1) * c.burst == c.burst + (n - (k + 1) + 1) * c.burst;
    }
  }

  /** The limit is kept for every client, window and trace under exactly the same condition. */
  lemma LimitKeptIff(c: Config)
    requires Valid(c)
    ensures RefillsInTime(c) <==> forall clock, es, ip, from, to :: KeepsLimit(c, clock, es, ip, from, to)
  {
    if RefillsInTime(c) {
      forall clock, es, ip, from, to ensures KeepsLimit(c, clock, es, ip, from, to) {
        if Timed(clock, es) && from <= to {
          WindowBound(c, clock, es, ip, from, to);
        }
      }
    } else {
      BurstsTimed(c, 0, 0, 1);
      BurstsAdmitted(c, 0, 1, 0, RETURN);
      assert !KeepsLimit(c, 0, Bursts(c, 0, 1), 0, 0, RETURN);
    }
  }

  // ---- how far the limit can be missed ----

  /** How often a client last seen at `seen` can be evicted and return by `to`. */
  function Returns(seen: Time, to: Time): int {
    (to - seen) / RETURN
  }

  /** The tokens of `n` bursts. */
  function Tokens(c: Config, n: int): real {
    c.burst as real * n as real
  }

  /** The bursts that these evictions can bring. */
  function Room(c: Config, seen: Time, to: Time): real {
    Tokens(c, Returns(seen, to))
  }

  lemma ReturnsShrink(seen: Time, later: Time, to: Time)
    requires seen <= later <= to
    ensures 0 <= Returns(later, to) <= Returns(seen, to)
    ensures seen + RETURN <= later ==> Returns(later, to) + 1 <= Returns(seen, to)
  {
  }

  lemma OneMore(c: Config, n: int)
    ensures Tokens(c, n + 1) == Tokens(c, n) + c.burst as real
  {
    assert (n + 1) as real == n as real + 1.0;
  }

  lemma MoreTokens(c: Config, a: int, b: int)
    requires a <= b
    ensures Tokens(c, a) <= Tokens(c, b)
  {
    assert 0.0 <= c.burst as real * (b - a) as real;
    assert b as real == a as real + (b - a) as real;
  }

  lemma NoTokens(c: Config)
    ensures Tokens(c, 0) == 0.0
  {
  }

  lemma RoomShrinks(c: Config, seen: Time, later: Time, to: Time)
    requires seen <= later <= to
    ensures 0.0 <= Room(c, later, to) <= Room(c, seen, to)
    ensures seen + RETURN <= later ==> Room(c, later, to) + c.burst as real <= Room(c, seen, to)
  {
    hide Returns, Tokens;
    var a, b := Returns(later, to), Returns(seen, to);
    ReturnsShrink(seen, later, to);
    NoTokens(c);
    MoreTokens(c, 0, a);
    MoreTokens(c, a, b);
    OneMore(c, a);
    if a + 1 <= b {
      MoreTokens(c, a + 1, b);
    }
  }

  ghost predicate SeenMap(c: Config, clock: Time, m: map<Ip, Entry>) {
    forall ip | ip in m :: Sane(c, m[ip].bucket) && m[ip].bucket.last <= m[ip].lastSeen <= clock
  }

  /** What client `ip` can still take in the window up to `to`, if it waits until `x`, counting
      the bursts that evictions may bring. Whatever it holds before it is first seen in the
      window, it is at most a full burst. */
  function Potential(c: Config, m: map<Ip, Entry>, ip: Ip, x: Time, from: Time, to: Time): real {
    if to < x then 0.0
    else if ip in m && from <= m[ip].lastSeen then Allowance(c, m, ip, x, to) + Room(c, m[ip].lastSeen, to)
    else c.burst as real + Gain(c, to - x) + Room(c, x, to)
  }

  lemma SeenIsSane(c: Config, clock: Time, m: map<Ip, Entry>)
    requires SeenMap(c, clock, m)
    ensures SaneMap(c, clock, m)
  {
  }

  lemma PotentialShrinks(
    c: Config, clock: Time, m: map<Ip, Entry>, ip: Ip, x: Time, y: Time, from: Time, to: Time)
    requires Valid(c) && SeenMap(c, clock, m) && clock <= x <= y
    ensures 0.0 <= Potential(c, m, ip, y, from, to) <= Potential(c, m, ip, x, from, to)
  {
    hide Room;
    SeenIsSane(c, clock, m);
    AllowanceShrinks(c, clock, m, ip, x, y, to);
    if x <= to {
      GainMono(c, 0, to - x);
      RoomShrinks(c, x, x, to);
      if ip in m {
        RoomShrinks(c, m[ip].lastSeen, x, to);
      }
    }
    if y <= to {
      GainMono(c, 0, to - y);
      GainMono(c, to - y, to - x);
      RoomShrinks(c, x, y, to);
    }
  }

  /** An eviction brings a full burst, and uses up the room for one. */
  lemma SweepFits(c: Config, clock: Time, m: map<Ip, Entry>, now: Time, ip: Ip, from: Time, to: Time)
    requires Valid(c) && SeenMap(c, clock, m)
    ensures var later := Max(clock, now);
      && SeenMap(c, later, Sweep(m, now))
      && Potential(c, Sweep(m, now), ip, Max(later, from), from, to) <= Potential(c, m, ip, Max(clock, from), from, to)
  {
    hide Room;
    var x, y := Max(clock, from), Max(Max(clock, now), from);
    PotentialShrinks(c, clock, m, ip, x, y, from, to);
    if y <= to && ip in m && from <= m[ip].lastSeen && ip !in Sweep(m, now) {
      SeenIsSane(c, clock, m);
      LevelIsSane(c, clock, m, ip, y);
      RoomShrinks(c, m[ip].lastSeen, y, to);
    }
  }

  /** One request: what it admits and what is left fit the potential before it. */
  lemma RequestFitsPotential(c: Config, clock: Time, m: map<Ip, Entry>, e: Event, ip: Ip, from: Time, to: Time)
    requires Valid(c) && SeenMap(c, clock, m) && e.Request? && clock <= e.now
    ensures var (m', ok) := Admit(c, m, e.ip, e.now);
      && SeenMap(c, e.now, m')
      && Potential(c, m', ip, Max(e.now, from), from, to)
           + (if ok && e.ip == ip && from <= e.now <= to then 1.0 else 0.0)
         <= Potential(c, m, ip, Max(clock, from), from, to)
  {
    var (m', ok) := Admit(c, m, e.ip, e.now);
    var x := Max(e.now, from);
    NewIsFull(c, e.now);
    SeenIsSane(c, clock, m);
    LevelIsSane(c, clock, m, e.ip, e.now);
    assert SeenMap(c, e.now, m');
    PotentialShrinks(c, clock, m, ip, Max(clock, from), x, from, to);
    if e.ip == ip && from <= e.now <= to {
      OwnRequestFits(c, clock, m, ip, e.now, from, to);
    }
  }

  lemma OwnRequestFits(c: Config, clock: Time, m: map<Ip, Entry>, ip: Ip, now: Time, from: Time, to: Time)
    requires Valid(c) && SeenMap(c, clock, m) && clock <= now && from <= now <= to
    ensures var (m', ok) := Admit(c, m, ip, now);
      Potential(c, m', ip, now, from, to) + (if ok then 1.0 else 0.0) <= Potential(c, m, ip, now, from, to)
  {
    hide Room;
    var (m', ok) := Admit(c, m, ip, now);
    SeenIsSane(c, clock, m);
    LevelIsSane(c, clock, m, ip, now);
    NewIsFull(c, now);
    if ip in m {
      RoomShrinks(c, m[ip].lastSeen, now, to);
    }
    if ok {
      RequestPays(c, clock, m, ip, now, from, to);
    }
  }

  lemma {:induction false} AdmittedFitsPotential(
    c: Config, clock: Time, m: map<Ip, Entry>, es: seq<Event>, ip: Ip, from: Time, to: Time)
    requires Valid(c) && SeenMap(c, clock, m) && Timed(clock, es)
    ensures Admitted(WithoutSweeps(es), Decisions(c, m, es), ip, from, to) as real
         <= Potential(c, m, ip, Max(clock, from), from, to)
    decreases |es|
  {
    PotentialShrinks(c, clock, m, ip, Max(clock, from), Max(clock, from), from, to);
    if es != [] {
      match es[0]
      case Request(other, now) =>
        RequestFitsPotential(c, clock, m, es[0], ip, from, to);
        AdmittedFitsPotential(c, now, Admit(c, m, other, now).0, es[1..], ip, from, to);
        assert WithoutSweeps(es)[1..] == WithoutSweeps(es[1..]);
        assert Decisions(c, m, es)[1..] == Decisions(c, Admit(c, m, other, now).0, es[1..]);
      case SweepAt(now) =>
        SweepFits(c, clock, m, now, ip, from, to);
        AdmittedFitsPotential(c, Max(clock, now), Sweep(m, now), es[1..], ip, from, to);
        assert WithoutSweeps(es) == WithoutSweeps(es[1..]);
        assert Decisions(c, m, es) == Decisions(c, Sweep(m, now), es[1..]);
    }
  }

  /** For any accepted settings, on every trace, client and window: one further burst at most
      for each time the eviction threshold fits into the window. */
  lemma EvictionBound(c: Config, clock: Time, es: seq<Event>, ip: Ip, from: Time, to: Time)
    requires Valid(c) && Timed(clock, es) && from <= to
    ensures Admitted(WithoutSweeps(es), Decisions(c, map[], es), ip, from, to) as real
         <= Tokens(c, 1 + Returns(from, to)) + Gain(c, to - from)
  {
    hide Gain, Returns, Tokens;
    var x := Max(clock, from);
    AdmittedFitsPotential(c, clock, map[], es, ip, from, to);
    PotentialShrinks(c, from, map[], ip, from, x, from, to);
    OneMore(c, Returns(from, to));
  }

  /** And all those bursts can be had: a client that returns `n` times gets `n + 1` of them. */
  lemma EvictionBoundIsReached(c: Config, n: nat)
    requires Valid(c)
    ensures var es := Bursts(c, 0, n); var to := n * RETURN;
      && Timed(0, es) && Returns(0, to) == n
      && Admitted(WithoutSweeps(es), Decisions(c, map[], es), 0, 0, to) == c.burst * (Returns(0, to) + 1)
  {
    BurstsTimed(c, 0, 0, n);
    BurstsAdmitted(c, 0, n, 0, n * RETURN);
    assert n * RETURN / RETURN == n;
  }
}
