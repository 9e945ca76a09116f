/** Sliding-window admission control (ratelimiter/limiter.go). Each call
    purges both of a notification's keys, counts them, compares the user
    count with the limit for the notification's priority and the event
    count with the fixed cap for `like`, and only when admitted inserts a
    marker for the current second into both keys. The clock reading `now`
    is a parameter. */
module RateLimiter {
  import opened Wrappers
  import opened Models
  import opened CounterStore
  import Decimal

  /** The fixed per-event cap, applied to the `like` event only. */
  const LikeEvent := "like"
  const LikeEventCap := 20

  datatype Config = Config(windowSeconds: int, limitHigh: int, limitMedium: int, limitLow: int)

  datatype LimiterError =
    | CleanupFailed
    | UserCountFailed
    | EventCountFailed
    | UserIncrementFailed
    | EventIncrementFailed

  /** What IsRateLimited returns: the (bool, error) pair. */
  datatype Verdict = Verdict(limited: bool, err: Option<LimiterError>)

  /** A verdict with the counter store it leaves behind. */
  datatype Checked = Checked(verdict: Verdict, store: Store)

  /** What incrementCounter returns (whether it reported an error) and the store after it. */
  datatype Written = Written(failed: bool, store: Store)

  function UserKey(userId: string): string {
    "rate:user:" + userId
  }

  /** The event key extends the user key, so the two keys of one
      notification are never the same key. */
  function EventKey(userId: string, eventType: string): (k: string)
    ensures UserKey(userId) < k
  {
    UserKey(userId) + ":event:" + eventType
  }

  /** The limits map NewRedisRateLimiter builds. */
  function LimitTable(c: Config): (limits: map<string, int>)
    ensures limits.Keys == {PriorityHigh, PriorityMedium, PriorityLow}
  {
    map[PriorityHigh := c.limitHigh, PriorityMedium := c.limitMedium, PriorityLow := c.limitLow]
  }

  /** getLimitForPriority: the limit listed for the priority, else the low limit. */
  function GetLimitForPriority(limits: map<string, int>, priority: string): int
    requires PriorityLow in limits
  {
    if priority in limits then limits[priority] else limits[PriorityLow]
  }

  lemma LimitForPriority(c: Config, priority: string)
    ensures GetLimitForPriority(LimitTable(c), priority) ==
      if priority == PriorityHigh then c.limitHigh
      else if priority == PriorityMedium then c.limitMedium
      else c.limitLow
  {
  }

  /** A score ZREMRANGEBYSCORE key 0 windowStart removes. */
  predicate Stale(score: int, windowStart: int) {
    0 <= score <= windowStart
  }

  /** The store after both keys have been purged. */
  function Purged(s: Store, userKey: string, eventKey: string, windowStart: int): Store {
    RemoveRangeByScore(RemoveRangeByScore(s, userKey, 0, windowStart), eventKey, 0, windowStart)
  }

  /** incrementCounter: ZADD the decimal timestamp with the timestamp as
      score, then EXPIRE for twice the window. The ZADD error is overwritten
      by the EXPIRE result, so only an EXPIRE failure is reported. */
  function Increment(s: Store, failing: set<Command>, key: string, timestamp: int, windowSeconds: int): Written {
    var added := if ZAddOn(key) in failing then s else WithMember(s, key, Decimal.FormatInt(timestamp), timestamp);
    if ExpireOn(key) in failing then Written(true, added)
    else Written(false, WithExpiry(added, key, windowSeconds * 2))
  }

  /** The two increments of an admitted check: the user key first, then the event key. */
  function Admit(s: Store, failing: set<Command>, userKey: string, eventKey: string, now: int, windowSeconds: int): Checked {
    var w1 := Increment(s, failing, userKey, now, windowSeconds);
    if w1.failed then Checked(Verdict(false, Some(UserIncrementFailed)), w1.store)
    else
      var w2 := Increment(w1.store, failing, eventKey, now, windowSeconds);
      if w2.failed then Checked(Verdict(false, Some(EventIncrementFailed)), w2.store)
      else Checked(Verdict(false, None), w2.store)
  }

  /** Counting and comparing, on the store the purges left. */
  function Decide(p: Store, failing: set<Command>, windowSeconds: int, limits: map<string, int>,
                  n: PrioritizedNotification, now: int): Checked
    requires PriorityLow in limits
  {
    var uk := UserKey(n.event.userId);
    var ek := EventKey(n.event.userId, n.event.eventType);
    if ZCardOn(uk) in failing then Checked(Verdict(false, Some(UserCountFailed)), p)
    else if ZCardOn(ek) in failing then Checked(Verdict(false, Some(EventCountFailed)), p)
    else if Cardinality(p, uk) >= GetLimitForPriority(limits, n.priority) then Checked(Verdict(true, None), p)
    else if Cardinality(p, ek) >= LikeEventCap && n.event.eventType == LikeEvent then Checked(Verdict(true, None), p)
    else Admit(p, failing, uk, ek, now, windowSeconds)
  }

  /** IsRateLimited, step by step, against a store whose failing commands are `failing`. */
  function Check(s: Store, failing: set<Command>, windowSeconds: int, limits: map<string, int>,
                 n: PrioritizedNotification, now: int): Checked
    requires PriorityLow in limits
  {
    var uk := UserKey(n.event.userId);
    var ek := EventKey(n.event.userId, n.event.eventType);
    var windowStart := now - windowSeconds;
    if ZRemRangeByScoreOn(uk) in failing then Checked(Verdict(false, Some(CleanupFailed)), s)
    else if ZRemRangeByScoreOn(ek) in failing then Checked(Verdict(false, Some(CleanupFailed)), RemoveRangeByScore(s, uk, 0, windowStart))
    else Decide(Purged(s, uk, ek, windowStart), failing, windowSeconds, limits, n, now)
  }

  /** None of the purge and count commands of a notification's keys fail. */
  predicate ReadsSucceed(failing: set<Command>, uk: string, ek: string) {
    ZRemRangeByScoreOn(uk) !in failing && ZRemRangeByScoreOn(ek) !in failing &&
    ZCardOn(uk) !in failing && ZCardOn(ek) !in failing
  }

  /** The redis-backed limiter; `client` is the counter store it talks to. */
  class RedisRateLimiter {
    const client: SortedSetStore
    const windowSeconds: int
    const limits: map<string, int>

    constructor (client: SortedSetStore, config: Config)
      ensures this.client == client && windowSeconds == config.windowSeconds
      ensures limits == LimitTable(config)
    {
      this.client := client;
      windowSeconds := config.windowSeconds;
      limits := LimitTable(config);
    }

    method IsRateLimited(n: PrioritizedNotification, now: int) returns (limited: bool, err: Option<LimiterError>)
      requires PriorityLow in limits
      modifies client
      ensures Checked(Verdict(limited, err), client.state) ==
              Check(old(client.state), client.failing, windowSeconds, limits, n, now)
    {
      var userKey := UserKey(n.event.userId);
      var eventTypeKey := EventKey(n.event.userId, n.event.eventType);
      var windowStart := now - windowSeconds;

      var failed := CleanupOldEntries(userKey, windowStart);
      if failed {
        return false, Some(CleanupFailed);
      }
      failed := CleanupOldEntries(eventTypeKey, windowStart);
      if failed {
        return false, Some(CleanupFailed);
      }

      var userCount, eventTypeCount;
      userCount, failed := GetCurrentCount(userKey);
      if failed {
        return false, Some(UserCountFailed);
      }
      eventTypeCount, failed := GetCurrentCount(eventTypeKey);
      if failed {
        return false, Some(EventCountFailed);
      }

      var limit := GetLimitForPriority(limits, n.priority);
      if userCount >= limit {
        return true, None;
      }
      if eventTypeCount >= LikeEventCap && n.event.eventType == LikeEvent {
        return true, None;
      }

      failed := IncrementCounter(userKey, now);
      if failed {
        return false, Some(UserIncrementFailed);
      }
      failed := IncrementCounter(eventTypeKey, now);
      if failed {
        return false, Some(EventIncrementFailed);
      }
      return false, None;
    }

    /** cleanupOldEntries: ZREMRANGEBYSCORE key 0 windowStart. */
    method CleanupOldEntries(key: string, windowStart: int) returns (err: bool)
      modifies client
      ensures err == (ZRemRangeByScoreOn(key) in client.failing)
      ensures client.state == if err then old(client.state) else RemoveRangeByScore(old(client.state), key, 0, windowStart)
    {
      err := client.ZRemRangeByScore(key, 0, windowStart);
    }

    /** getCurrentCount: ZCARD key. */
    method GetCurrentCount(key: string) returns (count: nat, err: bool)
      ensures err == (ZCardOn(key) in client.failing)
      ensures count == if err then 0 else Cardinality(client.state, key)
    {
      count, err := client.ZCard(key);
    }

    /** incrementCounter: the ZADD result is discarded, the EXPIRE result returned. */
    method IncrementCounter(key: string, timestamp: int) returns (err: bool)
      modifies client
      ensures Written(err, client.state) == Increment(old(client.state), client.failing, key, timestamp, windowSeconds)
    {
      var member := Decimal.FormatInt(timestamp);
      err := client.ZAdd(key, member, timestamp);
      err := client.Expire(key, windowSeconds * 2);
    }
  }

  /** The mock limiter: a fixed answer and never an error. */
  class MockRateLimiter {
    const shouldLimit: bool

    constructor (shouldLimit: bool)
      ensures this.shouldLimit == shouldLimit
    {
      this.shouldLimit := shouldLimit;
    }

    method IsRateLimited(n: PrioritizedNotification) returns (limited: bool, err: Option<LimiterError>)
      ensures limited == shouldLimit && err == None
    {
      return shouldLimit, None;
    }
  }
}
