/** What admission control guarantees, proved about RateLimiter.Check, the
    function IsRateLimited is proved to compute. */
module RateLimiterProperties {
  import opened Wrappers
  import opened Models
  import opened CounterStore
  import opened RateLimiter
  import Decimal

  /** No member of `key` has a score the purge for `windowStart` removes. */
  ghost predicate NoStale(s: Store, key: string, windowStart: int) {
    forall m :: m in Members(s, key) ==> !Stale(Members(s, key)[m], windowStart)
  }

  /** Every member of `key` is the decimal form of its own score, as incrementCounter writes them. */
  ghost predicate TimestampMembers(s: Store, key: string) {
    forall m :: m in Members(s, key) ==> m == Decimal.FormatInt(Members(s, key)[m])
  }

  lemma IncrementKeepsNoStale(s: Store, failing: set<Command>, key: string, other: string, now: int, windowSeconds: int)
    requires windowSeconds > 0
    requires NoStale(s, other, now - windowSeconds)
    ensures NoStale(Increment(s, failing, key, now, windowSeconds).store, other, now - windowSeconds)
  {
    var added := if ZAddOn(key) in failing then s else WithMember(s, key, Decimal.FormatInt(now), now);
    assert NoStale(added, other, now - windowSeconds);
    var r := Increment(s, failing, key, now, windowSeconds).store;
    assert r == added || r == WithExpiry(added, key, windowSeconds * 2);
  }

  lemma AdmitKeepsNoStale(p: Store, failing: set<Command>, uk: string, ek: string, now: int, windowSeconds: int, key: string)
    requires windowSeconds > 0
    requires NoStale(p, key, now - windowSeconds)
    ensures NoStale(Admit(p, failing, uk, ek, now, windowSeconds).store, key, now - windowSeconds)
  {
    var w1 := Increment(p, failing, uk, now, windowSeconds);
    IncrementKeepsNoStale(p, failing, uk, key, now, windowSeconds);
    IncrementKeepsNoStale(w1.store, failing, ek, key, now, windowSeconds);
  }

  lemma DecideKeepsNoStale(p: Store, failing: set<Command>, windowSeconds: int, limits: map<string, int>,
                           n: PrioritizedNotification, now: int, key: string)
    requires PriorityLow in limits && windowSeconds > 0
    requires NoStale(p, key, now - windowSeconds)
    ensures NoStale(Decide(p, failing, windowSeconds, limits, n, now).store, key, now - windowSeconds)
  {
    var uk, ek := UserKey(n.event.userId), EventKey(n.event.userId, n.event.eventType);
    var r := Decide(p, failing, windowSeconds, limits, n, now);
    AdmitKeepsNoStale(p, failing, uk, ek, now, windowSeconds, key);
    assert r.store == p || r == Admit(p, failing, uk, ek, now, windowSeconds);
  }

  lemma PurgedHasNoStale(s: Store, uk: string, ek: string, windowStart: int)
    requires uk != ek
    ensures NoStale(Purged(s, uk, ek, windowStart), uk, windowStart)
    ensures NoStale(Purged(s, uk, ek, windowStart), ek, windowStart)
  {
    var s1 := RemoveRangeByScore(s, uk, 0, windowStart);
    assert NoStale(s1, uk, windowStart);
    assert Members(Purged(s, uk, ek, windowStart), uk) == Members(s1, uk);
  }

  /** Both keys are purged on every call whose purges succeed, whatever the
      verdict: afterwards neither key holds a stale entry. */
  lemma PurgedOnEveryCall(s: Store, failing: set<Command>, windowSeconds: int, limits: map<string, int>,
                          n: PrioritizedNotification, now: int)
    requires PriorityLow in limits && windowSeconds > 0
    requires ZRemRangeByScoreOn(UserKey(n.event.userId)) !in failing
    requires ZRemRangeByScoreOn(EventKey(n.event.userId, n.event.eventType)) !in failing
    ensures NoStale(Check(s, failing, windowSeconds, limits, n, now).store, UserKey(n.event.userId), now - windowSeconds)
    ensures NoStale(Check(s, failing, windowSeconds, limits, n, now).store, EventKey(n.event.userId, n.event.eventType), now - windowSeconds)
  {
    var uk, ek, ws := UserKey(n.event.userId), EventKey(n.event.userId, n.event.eventType), now - windowSeconds;
    var p := Purged(s, uk, ek, ws);
    PurgedHasNoStale(s, uk, ek, ws);
    DecideKeepsNoStale(p, failing, windowSeconds, limits, n, now, uk);
    DecideKeepsNoStale(p, failing, windowSeconds, limits, n, now, ek);
    assert Check(s, failing, windowSeconds, limits, n, now) == Decide(p, failing, windowSeconds, limits, n, now);
  }

  /** A rejected check returns (true, nil) and leaves the store as the two
      purges left it: no marker is inserted. */
  lemma RejectionInsertsNothing(s: Store, failing: set<Command>, windowSeconds: int, limits: map<string, int>,
                                n: PrioritizedNotification, now: int)
    requires PriorityLow in limits
    requires Check(s, failing, windowSeconds, limits, n, now).verdict.limited
    ensures Check(s, failing, windowSeconds, limits, n, now).verdict.err == None
    ensures Check(s, failing, windowSeconds, limits, n, now).store ==
            Purged(s, UserKey(n.event.userId), EventKey(n.event.userId, n.event.eventType), now - windowSeconds)
  {
    var uk, ek := UserKey(n.event.userId), EventKey(n.event.userId, n.event.eventType);
    var p := Purged(s, uk, ek, now - windowSeconds);
    if ZRemRangeByScoreOn(uk) !in failing && ZRemRangeByScoreOn(ek) !in failing {
      assert Check(s, failing, windowSeconds, limits, n, now) == Decide(p, failing, windowSeconds, limits, n, now);
      AdmitNeverLimits(p, failing, uk, ek, now, windowSeconds);
    }
  }

  lemma AdmitNeverLimits(p: Store, failing: set<Command>, uk: string, ek: string, now: int, windowSeconds: int)
    ensures !Admit(p, failing, uk, ek, now, windowSeconds).verdict.limited
  {
  }

  /** When the reads succeed, the verdict is "limited" exactly when the
      purged user count reaches the priority's limit or the event is `like`
      and its purged count reaches 20. */
  lemma LimitedExactly(s: Store, failing: set<Command>, windowSeconds: int, limits: map<string, int>,
                       n: PrioritizedNotification, now: int)
    requires PriorityLow in limits
    requires ReadsSucceed(failing, UserKey(n.event.userId), EventKey(n.event.userId, n.event.eventType))
    ensures var p := Purged(s, UserKey(n.event.userId), EventKey(n.event.userId, n.event.eventType), now - windowSeconds);
      Check(s, failing, windowSeconds, limits, n, now).verdict.limited <==>
        Cardinality(p, UserKey(n.event.userId)) >= GetLimitForPriority(limits, n.priority) ||
        (n.event.eventType == LikeEvent && Cardinality(p, EventKey(n.event.userId, n.event.eventType)) >= LikeEventCap)
  {
    var uk, ek := UserKey(n.event.userId), EventKey(n.event.userId, n.event.eventType);
    var p := Purged(s, uk, ek, now - windowSeconds);
    assert Check(s, failing, windowSeconds, limits, n, now) == Decide(p, failing, windowSeconds, limits, n, now);
    AdmitNeverLimits(p, failing, uk, ek, now, windowSeconds);
  }

  /** No event type other than `like` has a per-event cap. */
  lemma OnlyLikeIsCapped(s: Store, failing: set<Command>, windowSeconds: int, limits: map<string, int>,
                         n: PrioritizedNotification, now: int)
    requires PriorityLow in limits && n.event.eventType != LikeEvent
    requires ReadsSucceed(failing, UserKey(n.event.userId), EventKey(n.event.userId, n.event.eventType))
    ensures Check(s, failing, windowSeconds, limits, n, now).verdict.limited <==>
      Cardinality(Purged(s, UserKey(n.event.userId), EventKey(n.event.userId, n.event.eventType), now - windowSeconds),
                  UserKey(n.event.userId)) >= GetLimitForPriority(limits, n.priority)
  {
  }

  /** A store error is reported as (false, error), never as "limited". */
  lemma ErrorsAreNotLimits(s: Store, failing: set<Command>, windowSeconds: int, limits: map<string, int>,
                           n: PrioritizedNotification, now: int)
    requires PriorityLow in limits
    requires Check(s, failing, windowSeconds, limits, n, now).verdict.err.Some?
    ensures !Check(s, failing, windowSeconds, limits, n, now).verdict.limited
  {
    var uk, ek := UserKey(n.event.userId), EventKey(n.event.userId, n.event.eventType);
    if ZRemRangeByScoreOn(uk) !in failing && ZRemRangeByScoreOn(ek) !in failing {
      var p := Purged(s, uk, ek, now - windowSeconds);
      assert Check(s, failing, windowSeconds, limits, n, now) == Decide(p, failing, windowSeconds, limits, n, now);
      AdmitNeverLimits(p, failing, uk, ek, now, windowSeconds);
    }
  }

  /** An admission against a healthy store returns (false, nil), gives both
      keys the member for `now` with score `now` and an expiry of twice the
      window, and touches no other key. */
  lemma AdmissionInsertsMarkers(s: Store, windowSeconds: int, limits: map<string, int>,
                                n: PrioritizedNotification, now: int)
    requires PriorityLow in limits && windowSeconds > 0
    requires !Check(s, {}, windowSeconds, limits, n, now).verdict.limited
    ensures var r := Check(s, {}, windowSeconds, limits, n, now);
      var uk, ek := UserKey(n.event.userId), EventKey(n.event.userId, n.event.eventType);
      var p := Purged(s, uk, ek, now - windowSeconds);
      && r.verdict == Verdict(false, None)
      && Members(r.store, uk) == Members(p, uk)[Decimal.FormatInt(now) := now]
      && Members(r.store, ek) == Members(p, ek)[Decimal.FormatInt(now) := now]
      && uk in r.store.ttl && r.store.ttl[uk] == 2 * windowSeconds
      && ek in r.store.ttl && r.store.ttl[ek] == 2 * windowSeconds
      && (forall k :: k != uk && k != ek ==> Members(r.store, k) == Members(s, k))
  {
    var uk, ek := UserKey(n.event.userId), EventKey(n.event.userId, n.event.eventType);
    var p := Purged(s, uk, ek, now - windowSeconds);
    var a1 := WithMember(p, uk, Decimal.FormatInt(now), now);
    var e1 := WithExpiry(a1, uk, windowSeconds * 2);
    var a2 := WithMember(e1, ek, Decimal.FormatInt(now), now);
    assert Members(a2, uk) == Members(e1, uk);
  }

  /** Purging a key with no stale entry leaves its members as they are. */
  lemma PurgeOfFreshKey(s: Store, key: string, windowStart: int)
    requires NoStale(s, key, windowStart)
    ensures Members(RemoveRangeByScore(s, key, 0, windowStart), key) == Members(s, key)
  {
    var r := RemoveRangeByScore(s, key, 0, windowStart);
    assert Members(r, key).Keys == Members(s, key).Keys;
  }

  /** The store a healthy admission leaves: both markers and both expiries written. */
  function Marked(p: Store, uk: string, ek: string, now: int, windowSeconds: int): Store {
    var e1 := WithExpiry(WithMember(p, uk, Decimal.FormatInt(now), now), uk, windowSeconds * 2);
    WithExpiry(WithMember(e1, ek, Decimal.FormatInt(now), now), ek, windowSeconds * 2)
  }

  lemma MarkedMembers(p: Store, uk: string, ek: string, now: int, windowSeconds: int)
    requires uk != ek && windowSeconds > 0
    ensures Members(Marked(p, uk, ek, now, windowSeconds), uk) == Members(p, uk)[Decimal.FormatInt(now) := now]
    ensures Members(Marked(p, uk, ek, now, windowSeconds), ek) == Members(p, ek)[Decimal.FormatInt(now) := now]
  {
    var e1 := WithExpiry(WithMember(p, uk, Decimal.FormatInt(now), now), uk, windowSeconds * 2);
    var a2 := WithMember(e1, ek, Decimal.FormatInt(now), now);
    assert Members(a2, uk) == Members(e1, uk);
  }

  /** A healthy admission, in closed form. */
  lemma HealthyAdmission(s: Store, windowSeconds: int, limits: map<string, int>, n: PrioritizedNotification, now: int)
    requires PriorityLow in limits
    requires !Check(s, {}, windowSeconds, limits, n, now).verdict.limited
    ensures var uk, ek := UserKey(n.event.userId), EventKey(n.event.userId, n.event.eventType);
      Check(s, {}, windowSeconds, limits, n, now) ==
        Checked(Verdict(false, None), Marked(Purged(s, uk, ek, now - windowSeconds), uk, ek, now, windowSeconds))
  {
  }

  /** Re-admitting in the same second finds the user key's marker already there. */
  lemma ReadmitSameSecond(t: Store, uk: string, ek: string, now: int, windowSeconds: int)
    requires uk != ek && windowSeconds > 0
    requires NoStale(t, uk, now - windowSeconds)
    requires Decimal.FormatInt(now) in Members(t, uk) && Members(t, uk)[Decimal.FormatInt(now)] == now
    ensures Members(Marked(Purged(t, uk, ek, now - windowSeconds), uk, ek, now, windowSeconds), uk) == Members(t, uk)
  {
    FreshKeySurvivesPurges(t, uk, ek, now - windowSeconds);
    RemarkingKeepsMembers(Purged(t, uk, ek, now - windowSeconds), t, uk, ek, now, windowSeconds);
  }

  /** Both purges leave a key with no stale entry as it was. */
  lemma FreshKeySurvivesPurges(t: Store, uk: string, ek: string, windowStart: int)
    requires uk != ek
    requires NoStale(t, uk, windowStart)
    ensures Members(Purged(t, uk, ek, windowStart), uk) == Members(t, uk)
  {
    PurgeOfFreshKey(t, uk, windowStart);
  }

  /** Marking a key that already holds the marker for `now` changes nothing in it. */
  lemma RemarkingKeepsMembers(q: Store, t: Store, uk: string, ek: string, now: int, windowSeconds: int)
    requires uk != ek && windowSeconds > 0
    requires Members(q, uk) == Members(t, uk)
    requires Decimal.FormatInt(now) in Members(t, uk) && Members(t, uk)[Decimal.FormatInt(now)] == now
    ensures Members(Marked(q, uk, ek, now, windowSeconds), uk) == Members(t, uk)
  {
    MarkedMembers(q, uk, ek, now, windowSeconds);
    var mt := Members(t, uk);
    assert mt[Decimal.FormatInt(now) := now] == mt;
  }

  /** After a healthy admission the user key holds the marker for `now`. */
  lemma AdmissionLeavesMarker(s: Store, windowSeconds: int, limits: map<string, int>, n: PrioritizedNotification, now: int)
    requires PriorityLow in limits && windowSeconds > 0
    requires !Check(s, {}, windowSeconds, limits, n, now).verdict.limited
    ensures var t := Check(s, {}, windowSeconds, limits, n, now).store;
      var uk := UserKey(n.event.userId);
      Decimal.FormatInt(now) in Members(t, uk) && Members(t, uk)[Decimal.FormatInt(now)] == now
  {
    var uk, ek := UserKey(n.event.userId), EventKey(n.event.userId, n.event.eventType);
    HealthyAdmission(s, windowSeconds, limits, n, now);
    MarkedMembers(Purged(s, uk, ek, now - windowSeconds), uk, ek, now, windowSeconds);
  }

  /** Markers are per second: two admissions for one user within the same
      second leave the user's count where the first one put it. */
  lemma SameSecondCountsOnce(s: Store, windowSeconds: int, limits: map<string, int>,
                             n: PrioritizedNotification, n': PrioritizedNotification, now: int)
    requires PriorityLow in limits && windowSeconds > 0
    requires n'.event.userId == n.event.userId
    requires !Check(s, {}, windowSeconds, limits, n, now).verdict.limited
    requires !Check(Check(s, {}, windowSeconds, limits, n, now).store, {}, windowSeconds, limits, n', now).verdict.limited
    ensures var r1 := Check(s, {}, windowSeconds, limits, n, now);
      var r2 := Check(r1.store, {}, windowSeconds, limits, n', now);
      Cardinality(r2.store, UserKey(n.event.userId)) == Cardinality(r1.store, UserKey(n.event.userId))
  {
    var uk, ek' := UserKey(n.event.userId), EventKey(n'.event.userId, n'.event.eventType);
    var t := Check(s, {}, windowSeconds, limits, n, now).store;
    PurgedOnEveryCall(s, {}, windowSeconds, limits, n, now);
    AdmissionLeavesMarker(s, windowSeconds, limits, n, now);
    HealthyAdmission(t, windowSeconds, limits, n', now);
    ReadmitSameSecond(t, uk, ek', now, windowSeconds);
  }

  lemma MarkedCount(p: Store, uk: string, ek: string, now: int, windowSeconds: int)
    requires uk != ek && windowSeconds > 0
    ensures Cardinality(Marked(p, uk, ek, now, windowSeconds), uk) ==
            Cardinality(p, uk) + (if Decimal.FormatInt(now) in Members(p, uk) then 0 else 1)
  {
    MarkedMembers(p, uk, ek, now, windowSeconds);
    MapUpdateSize(Members(p, uk), Decimal.FormatInt(now), now);
  }

  lemma MapUpdateSize(m: map<string, int>, k: string, v: int)
    ensures |m[k := v]| == |m| + (if k in m then 0 else 1)
  {
    if k in m {
      assert m[k := v].Keys == m.Keys;
    } else {
      assert m[k := v].Keys == m.Keys + {k};
    }
  }

  /** One admission raises a key's count by one exactly when no marker of
      the same second is already there. */
  lemma AdmissionCountsNewSecond(s: Store, windowSeconds: int, limits: map<string, int>,
                                 n: PrioritizedNotification, now: int)
    requires PriorityLow in limits && windowSeconds > 0
    requires !Check(s, {}, windowSeconds, limits, n, now).verdict.limited
    ensures var uk := UserKey(n.event.userId);
      var p := Purged(s, uk, EventKey(n.event.userId, n.event.eventType), now - windowSeconds);
      Cardinality(Check(s, {}, windowSeconds, limits, n, now).store, uk) ==
        Cardinality(p, uk) + (if Decimal.FormatInt(now) in Members(p, uk) then 0 else 1)
  {
    var uk, ek := UserKey(n.event.userId), EventKey(n.event.userId, n.event.eventType);
    HealthyAdmission(s, windowSeconds, limits, n, now);
    MarkedCount(Purged(s, uk, ek, now - windowSeconds), uk, ek, now, windowSeconds);
  }

  /** In a key whose members are all timestamps, the member for `now` is
      present only if some entry already has score `now`; so an admission in
      a second not yet seen raises the count by one. */
  lemma NewSecondIsNewMember(s: Store, key: string, now: int)
    requires TimestampMembers(s, key)
    requires forall m :: m in Members(s, key) ==> Members(s, key)[m] != now
    ensures Decimal.FormatInt(now) !in Members(s, key)
  {
    if Decimal.FormatInt(now) in Members(s, key) {
      var m := Decimal.FormatInt(now);
      Decimal.FormatIntInjective(Members(s, key)[m], now);
      assert false;
    }
  }

  /** A check whose reads succeed admits exactly when the healthy check
      does, and then goes on to the increments. */
  lemma AdmittedReachesIncrements(s: Store, failing: set<Command>, windowSeconds: int, limits: map<string, int>,
                                  n: PrioritizedNotification, now: int)
    requires PriorityLow in limits
    requires ReadsSucceed(failing, UserKey(n.event.userId), EventKey(n.event.userId, n.event.eventType))
    requires !Check(s, {}, windowSeconds, limits, n, now).verdict.limited
    ensures var uk, ek := UserKey(n.event.userId), EventKey(n.event.userId, n.event.eventType);
      Check(s, failing, windowSeconds, limits, n, now) ==
        Admit(Purged(s, uk, ek, now - windowSeconds), failing, uk, ek, now, windowSeconds)
  {
    LimitedExactly(s, {}, windowSeconds, limits, n, now);
  }

  lemma PurgeKeepsTimestampMembers(s: Store, key: string, other: string, windowStart: int)
    requires TimestampMembers(s, other)
    ensures TimestampMembers(RemoveRangeByScore(s, key, 0, windowStart), other)
  {
  }

  lemma IncrementKeepsTimestampMembers(s: Store, failing: set<Command>, key: string, other: string, now: int, windowSeconds: int)
    requires TimestampMembers(s, other)
    ensures TimestampMembers(Increment(s, failing, key, now, windowSeconds).store, other)
  {
    var added := if ZAddOn(key) in failing then s else WithMember(s, key, Decimal.FormatInt(now), now);
    assert TimestampMembers(added, other);
    var r := Increment(s, failing, key, now, windowSeconds).store;
    assert r == added || r == WithExpiry(added, key, windowSeconds * 2);
  }

  lemma DecideKeepsTimestampMembers(p: Store, failing: set<Command>, windowSeconds: int, limits: map<string, int>,
                                    n: PrioritizedNotification, now: int, key: string)
    requires PriorityLow in limits
    requires TimestampMembers(p, key)
    ensures TimestampMembers(Decide(p, failing, windowSeconds, limits, n, now).store, key)
  {
    var uk, ek := UserKey(n.event.userId), EventKey(n.event.userId, n.event.eventType);
    var w1 := Increment(p, failing, uk, now, windowSeconds);
    IncrementKeepsTimestampMembers(p, failing, uk, key, now, windowSeconds);
    IncrementKeepsTimestampMembers(w1.store, failing, ek, key, now, windowSeconds);
    var r := Decide(p, failing, windowSeconds, limits, n, now);
    assert r.store == p || r == Admit(p, failing, uk, ek, now, windowSeconds);
  }

  /** Every call keeps each key's members the decimal forms of their scores. */
  lemma CheckKeepsTimestampMembers(s: Store, failing: set<Command>, windowSeconds: int, limits: map<string, int>,
                                   n: PrioritizedNotification, now: int, key: string)
    requires PriorityLow in limits
    requires TimestampMembers(s, key)
    ensures TimestampMembers(Check(s, failing, windowSeconds, limits, n, now).store, key)
  {
    var uk, ek := UserKey(n.event.userId), EventKey(n.event.userId, n.event.eventType);
    var ws := now - windowSeconds;
    var s1 := RemoveRangeByScore(s, uk, 0, ws);
    PurgeKeepsTimestampMembers(s, uk, key, ws);
    if ZRemRangeByScoreOn(uk) !in failing && ZRemRangeByScoreOn(ek) !in failing {
      var p := Purged(s, uk, ek, ws);
      PurgeKeepsTimestampMembers(s1, ek, key, ws);
      DecideKeepsTimestampMembers(p, failing, windowSeconds, limits, n, now, key);
      assert Check(s, failing, windowSeconds, limits, n, now) == Decide(p, failing, windowSeconds, limits, n, now);
    } else {
      assert Check(s, failing, windowSeconds, limits, n, now).store in {s, s1};
    }
  }

  /** In a store whose members are timestamps, an admission in a second
      that has no entry within the window raises the user count by one. */
  lemma NewSecondCountsOnceMore(s: Store, windowSeconds: int, limits: map<string, int>,
                                n: PrioritizedNotification, now: int)
    requires PriorityLow in limits && windowSeconds > 0
    requires TimestampMembers(s, UserKey(n.event.userId))
    requires !Check(s, {}, windowSeconds, limits, n, now).verdict.limited
    requires forall m :: m in Members(s, UserKey(n.event.userId)) ==> Members(s, UserKey(n.event.userId))[m] != now
    ensures var uk := UserKey(n.event.userId);
      Cardinality(Check(s, {}, windowSeconds, limits, n, now).store, uk) ==
        Cardinality(Purged(s, uk, EventKey(n.event.userId, n.event.eventType), now - windowSeconds), uk) + 1
  {
    var uk, ek, ws := UserKey(n.event.userId), EventKey(n.event.userId, n.event.eventType), now - windowSeconds;
    var s1 := RemoveRangeByScore(s, uk, 0, ws);
    var p := Purged(s, uk, ek, ws);
    PurgeKeepsTimestampMembers(s, uk, uk, ws);
    PurgeKeepsTimestampMembers(s1, ek, uk, ws);
    assert Members(p, uk) == Members(s1, uk);
    NewSecondIsNewMember(p, uk, now);
    AdmissionCountsNewSecond(s, windowSeconds, limits, n, now);
  }

  /** The ZADD error of incrementCounter is lost: when only the user key's
      ZADD fails, the call still reports (false, nil), yet the user key gets
      no marker. */
  lemma SwallowedAddError(s: Store, windowSeconds: int, limits: map<string, int>,
                          n: PrioritizedNotification, now: int)
    requires PriorityLow in limits && windowSeconds > 0
    requires !Check(s, {}, windowSeconds, limits, n, now).verdict.limited
    ensures var uk := UserKey(n.event.userId);
      var r := Check(s, {ZAddOn(uk)}, windowSeconds, limits, n, now);
      r.verdict == Verdict(false, None) &&
      Members(r.store, uk) == Members(Purged(s, uk, EventKey(n.event.userId, n.event.eventType), now - windowSeconds), uk)
  {
    var uk, ek := UserKey(n.event.userId), EventKey(n.event.userId, n.event.eventType);
    assert ReadsSucceed({ZAddOn(uk)}, uk, ek);
    AdmittedReachesIncrements(s, {ZAddOn(uk)}, windowSeconds, limits, n, now);
    AdmitWithoutUserAdd(Purged(s, uk, ek, now - windowSeconds), uk, ek, now, windowSeconds);
  }

  /** The increments when only the user key's ZADD fails: no error, and the
      user key's members stay as they were. */
  lemma AdmitWithoutUserAdd(p: Store, uk: string, ek: string, now: int, windowSeconds: int)
    requires uk != ek && windowSeconds > 0
    ensures var r := Admit(p, {ZAddOn(uk)}, uk, ek, now, windowSeconds);
      r.verdict == Verdict(false, None) && Members(r.store, uk) == Members(p, uk)
  {
    var e1 := WithExpiry(p, uk, windowSeconds * 2);
    assert Increment(p, {ZAddOn(uk)}, uk, now, windowSeconds) == Written(false, e1);
    var a2 := WithMember(e1, ek, Decimal.FormatInt(now), now);
    assert Increment(e1, {ZAddOn(uk)}, ek, now, windowSeconds) == Written(false, WithExpiry(a2, ek, windowSeconds * 2));
    assert Members(a2, uk) == Members(e1, uk);
  }

  /** A failure while incrementing the event key comes after the user key
      has been incremented: the call reports an error, and the user key
      keeps its new marker. */
  lemma EventFailureAfterUserIncrement(s: Store, windowSeconds: int, limits: map<string, int>,
                                       n: PrioritizedNotification, now: int)
    requires PriorityLow in limits && windowSeconds > 0
    requires !Check(s, {}, windowSeconds, limits, n, now).verdict.limited
    ensures var uk, ek := UserKey(n.event.userId), EventKey(n.event.userId, n.event.eventType);
      var r := Check(s, {ExpireOn(ek)}, windowSeconds, limits, n, now);
      r.verdict == Verdict(false, Some(EventIncrementFailed)) &&
      Members(r.store, uk) == Members(Purged(s, uk, ek, now - windowSeconds), uk)[Decimal.FormatInt(now) := now]
  {
    var uk, ek := UserKey(n.event.userId), EventKey(n.event.userId, n.event.eventType);
    assert ReadsSucceed({ExpireOn(ek)}, uk, ek);
    AdmittedReachesIncrements(s, {ExpireOn(ek)}, windowSeconds, limits, n, now);
    var p := Purged(s, uk, ek, now - windowSeconds);
    var e1 := WithExpiry(WithMember(p, uk, Decimal.FormatInt(now), now), uk, windowSeconds * 2);
    var a2 := WithMember(e1, ek, Decimal.FormatInt(now), now);
    assert Members(a2, uk) == Members(e1, uk);
  }

  /** The user key of one user can be the event key of another: the key
      scheme does not escape `:` in user ids. */
  lemma KeysCanCollideAcrossUsers()
    ensures UserKey("a:event:like") == EventKey("a", "like")
  {
  }
}
