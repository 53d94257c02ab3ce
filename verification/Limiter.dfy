/** The limiter middleware as code: a shared map, an active-clients gauge and a sweeper. */
module Limiter {
  import opened Domain
  import opened RateLimiter

  class IpLimiters {
    const config: Config
    var limiters: map<Ip, Entry>
    var gauge: int

    /** The gauge reports the number of tracked clients. */
    ghost predicate Tracked()
      reads this
    {
      gauge == |limiters|
    }

    constructor (config: Config)
      ensures this.config == config && limiters == map[] && Tracked()
    {
      this.config := config;
      limiters := map[];
      gauge := 0;
    }

    /** One request of client `ip`: admitted as the bucket of the client decides. */
    method Handle(ip: Ip, now: Time) returns (allowed: bool)
      requires Tracked()
      modifies this
      ensures (limiters, allowed) == Admit(config, old(limiters), ip, now)
      ensures Tracked()
    {
      var loaded := ip in limiters;
      if !loaded {
        limiters := limiters[ip := Entry(NewBucket(config, now), now)];
      }
      limiters := limiters[ip := limiters[ip].(lastSeen := now)];
      if !loaded {
        gauge := gauge + 1;
      }
      var (bucket, ok) := Take(config, limiters[ip].bucket, now);
      limiters := limiters[ip := limiters[ip].(bucket := bucket)];
      allowed := ok;
      assert limiters == old(limiters)[ip := Entry(bucket, now)];
    }

    /** Remove every client idle for longer than the threshold, and tell how many. */
    method SweepOnce(now: Time) returns (removed: nat)
      requires Tracked()
      modifies this
      ensures limiters == Sweep(old(limiters), now)
      ensures removed == |old(limiters)| - |limiters|
      ensures Tracked()
    {
      var cutoff := now - EVICT_THRESHOLD;
      removed := 0;
      var todo := limiters.Keys;
      while todo != {}
        invariant todo <= limiters.Keys <= old(limiters).Keys
        invariant forall ip | ip in limiters :: limiters[ip] == old(limiters)[ip]
        invariant forall ip | ip in old(limiters) && ip !in todo ::
                    ip in limiters <==> old(limiters)[ip].lastSeen >= cutoff
        invariant |old(limiters)| == |limiters| + removed
        invariant gauge == old(gauge)
        decreases todo
      {
        var ip :| ip in todo;
        if limiters[ip].lastSeen < cutoff {
          assert (limiters - {ip}).Keys == limiters.Keys - {ip};
          limiters := limiters - {ip};
          removed := removed + 1;
        }
        todo := todo - {ip};
      }
      if removed > 0 {
        gauge := gauge - removed;
      }
    }
  }
}
