/** The gates of the per-record pipeline, read off DeliveryProcessor.Pipeline
    and ResolveChannels (which ProcessMessage and DetermineDeliveryChannels
    are proved to compute). Most of these are one-step unfoldings of those
    definitions, stated as the properties the processor promises; only
    RejectedByStoreIsDropped composes with the rate limiter's model. */
module DeliveryProperties {
  import opened Wrappers
  import opened Models
  import opened DeliveryProcessor
  import RateLimiter
  import RateLimiterProperties
  import CounterStore
  import Preferences

  /** A limiter error is returned as an error; preferences are not fetched
      and nothing is sent. */
  lemma LimiterErrorStopsEarly(n: PrioritizedNotification, verdict: RateLimiter.Verdict,
                               prefs: Result<UserPreferences, Preferences.PreferencesError>, sendOk: bool)
    requires verdict.err.Some?
    ensures Pipeline(n, verdict, prefs, sendOk) == Outcome(Some(RateLimitFailed(verdict.err.value)), false, None)
  {
  }

  /** A rate-limited record ends without error, without a lookup and without a send. */
  lemma LimitedIsDropped(n: PrioritizedNotification, prefs: Result<UserPreferences, Preferences.PreferencesError>, sendOk: bool)
    ensures Pipeline(n, RateLimiter.Verdict(true, None), prefs, sendOk) == Outcome(None, false, None)
  {
  }

  /** Whatever the store holds and whichever of its commands fail, a record
      the limiter's Check rejects is never looked up nor sent. */
  lemma RejectedByStoreIsDropped(s: CounterStore.Store, failing: set<CounterStore.Command>, windowSeconds: int,
                                 limits: map<string, int>, n: PrioritizedNotification, now: int,
                                 prefs: Result<UserPreferences, Preferences.PreferencesError>, sendOk: bool)
    requires PriorityLow in limits
    requires RateLimiter.Check(s, failing, windowSeconds, limits, n, now).verdict.limited
    ensures Pipeline(n, RateLimiter.Check(s, failing, windowSeconds, limits, n, now).verdict, prefs, sendOk) ==
            Outcome(None, false, None)
  {
    RateLimiterProperties.RejectionInsertsNothing(s, failing, windowSeconds, limits, n, now);
  }

  /** An admitted record whose preference lookup fails returns that error and sends nothing. */
  lemma PreferenceErrorStops(n: PrioritizedNotification, e: Preferences.PreferencesError, sendOk: bool)
    ensures Pipeline(n, RateLimiter.Verdict(false, None), Failure(e), sendOk) == Outcome(Some(PreferencesFailed(e)), true, None)
  {
  }

  /** A globally opted-out user receives nothing, high priority included:
      the failsafe is never reached. */
  lemma OptedOutReceivesNothing(n: PrioritizedNotification, prefs: UserPreferences, sendOk: bool)
    requires !prefs.globalOptIn
    ensures Pipeline(n, RateLimiter.Verdict(false, None), Success(prefs), sendOk) == Outcome(None, true, None)
  {
  }

  /** With an override map for the event type, even an empty one, the
      channels are exactly its enabled keys (or the failsafe), and the global
      channel map plays no part. */
  lemma OverrideDecides(n: PrioritizedNotification, prefs: UserPreferences, global: map<string, bool>)
    requires n.event.eventType in prefs.eventTypes
    ensures ResolveChannels(n, prefs) == ResolveChannels(n, prefs.(channels := global))
    ensures n.priority != PriorityHigh ==> ResolveChannels(n, prefs) == EnabledIn(prefs.eventTypes[n.event.eventType])
    ensures EnabledIn(prefs.eventTypes[n.event.eventType]) != {} ==>
      ResolveChannels(n, prefs) == EnabledIn(prefs.eventTypes[n.event.eventType])
  {
  }

  /** Without an override map, the channels are the enabled keys of the
      global map (or the failsafe), whatever overrides other event types have. */
  lemma GlobalMapDecides(n: PrioritizedNotification, prefs: UserPreferences, others: map<string, map<string, bool>>)
    requires n.event.eventType !in prefs.eventTypes && n.event.eventType !in others
    ensures ResolveChannels(n, prefs) == ResolveChannels(n, prefs.(eventTypes := others))
    ensures n.priority != PriorityHigh ==> ResolveChannels(n, prefs) == EnabledIn(prefs.channels)
    ensures EnabledIn(prefs.channels) != {} ==> ResolveChannels(n, prefs) == EnabledIn(prefs.channels)
  {
  }

  /** The failsafe: a high-priority record always has a channel, and with no
      enabled channel it has exactly in-app. Only high priority is forced. */
  lemma HighPriorityFailsafe(n: PrioritizedNotification, prefs: UserPreferences)
    ensures n.priority == PriorityHigh ==> ResolveChannels(n, prefs) != {}
    ensures EnabledIn(ApplicableChannels(n, prefs)) == {} ==>
      ResolveChannels(n, prefs) == (if n.priority == PriorityHigh then {ChannelInApp} else {})
  {
    if n.priority == PriorityHigh && EnabledIn(ApplicableChannels(n, prefs)) != {} {
      var c :| c in EnabledIn(ApplicableChannels(n, prefs));
      assert c in ResolveChannels(n, prefs);
    }
  }

  /** Every delivered channel is enabled in the applicable map, except the
      in-app channel the failsafe adds. */
  lemma ChannelsAreEnabledOrFailsafe(n: PrioritizedNotification, prefs: UserPreferences, c: string)
    requires c in ResolveChannels(n, prefs)
    ensures (c in ApplicableChannels(n, prefs) && ApplicableChannels(n, prefs)[c]) ||
            (c == ChannelInApp && n.priority == PriorityHigh && EnabledIn(ApplicableChannels(n, prefs)) == {})
  {
  }

  /** A non-high record with no enabled channel is dropped without error and without a send. */
  lemma NoChannelNoSend(n: PrioritizedNotification, prefs: UserPreferences, sendOk: bool)
    requires prefs.globalOptIn && n.priority != PriorityHigh
    requires EnabledIn(ApplicableChannels(n, prefs)) == {}
    ensures Pipeline(n, RateLimiter.Verdict(false, None), Success(prefs), sendOk) == Outcome(None, true, None)
  {
  }

  /** An admitted, opted-in record with somewhere to go is sent exactly once,
      as the input plus its resolved channels; the send's failure is the
      only error. A high-priority record always gets this far. */
  lemma AdmittedOptedInIsSent(n: PrioritizedNotification, prefs: UserPreferences, sendOk: bool)
    requires prefs.globalOptIn
    requires n.priority == PriorityHigh || EnabledIn(ApplicableChannels(n, prefs)) != {}
    ensures Pipeline(n, RateLimiter.Verdict(false, None), Success(prefs), sendOk) ==
      Outcome(if sendOk then None else Some(SendFailed), true, Some(ProcessedNotification(n, ResolveChannels(n, prefs))))
  {
    HighPriorityFailsafe(n, prefs);
    if n.priority != PriorityHigh {
      var c :| c in EnabledIn(ApplicableChannels(n, prefs));
      assert c in ResolveChannels(n, prefs);
    }
  }

  /** Whatever the inputs, at most one message is sent, and one is sent only
      for an admitted, opted-in record, carrying that record unchanged. */
  lemma SendOnlyAfterEveryGate(n: PrioritizedNotification, verdict: RateLimiter.Verdict,
                               prefs: Result<UserPreferences, Preferences.PreferencesError>, sendOk: bool)
    requires Pipeline(n, verdict, prefs, sendOk).sent.Some?
    ensures verdict == RateLimiter.Verdict(false, None)
    ensures prefs.Success? && prefs.value.globalOptIn
    ensures Pipeline(n, verdict, prefs, sendOk).sent.value.notification == n
    ensures Pipeline(n, verdict, prefs, sendOk).sent.value.channels != {}
    ensures Pipeline(n, verdict, prefs, sendOk).lookedUp
  {
  }
}
