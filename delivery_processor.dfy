/** The per-record pipeline of the rate-limiter service
    (rate-limiter-service/kafka/processor.go): rate limit, fetch preferences,
    honour the global opt-out, resolve channels, send once. The limiter, the
    preference service and the producer are abstract: their answers for the
    record are inputs, and what is looked up and sent is logged. */
module DeliveryProcessor {
  import opened Wrappers
  import opened Models
  import RateLimiter
  import Preferences

  /** The channel map that applies to a notification: its event type's
      override map when the user has one (even an empty one), otherwise the
      user's global channel map. */
  function ApplicableChannels(n: PrioritizedNotification, prefs: UserPreferences): map<string, bool> {
    if n.event.eventType in prefs.eventTypes then prefs.eventTypes[n.event.eventType] else prefs.channels
  }

  /** The channels a notification is delivered on: the enabled channels of the
      applicable map, or in-app alone for a high-priority notification that
      would otherwise go nowhere. */
  function ResolveChannels(n: PrioritizedNotification, prefs: UserPreferences): set<string> {
    var enabled := EnabledIn(ApplicableChannels(n, prefs));
    if n.priority == PriorityHigh && enabled == {} then {ChannelInApp} else enabled
  }

  predicate NoDuplicates(s: seq<string>) {
    forall i, j :: 0 <= i < j < |s| ==> s[i] != s[j]
  }

  /** determineDeliveryChannels: walks the applicable map in an unspecified
      order, collecting the enabled channels, then applies the high-priority
      failsafe. */
  method DetermineDeliveryChannels(n: PrioritizedNotification, prefs: UserPreferences)
    returns (channels: seq<string>)
    ensures NoDuplicates(channels)
    ensures forall c :: c in channels <==> c in ResolveChannels(n, prefs)
  {
    var source := ApplicableChannels(n, prefs);
    channels := [];
    var remaining := source.Keys;
    while remaining != {}
      invariant remaining <= source.Keys
      invariant NoDuplicates(channels)
      invariant forall c :: c in channels <==> c in source && source[c] && c !in remaining
      decreases |remaining|
    {
      var c :| c in remaining;
      if source[c] {
        channels := channels + [c];
      }
      remaining := remaining - {c};
    }
    assert (set c | c in channels) == EnabledIn(source);
    if |channels| > 0 {
      assert channels[0] in EnabledIn(source);
    } else if n.priority == PriorityHigh {
      channels := channels + [ChannelInApp];
    }
  }

  datatype ProcessError =
    | RateLimitFailed(limiterError: RateLimiter.LimiterError)
    | PreferencesFailed(preferencesError: Preferences.PreferencesError)
    | SendFailed

  /** What one record leads to: the error returned, whether preferences were
      fetched, and the message handed to the producer, if any. */
  datatype Outcome = Outcome(err: Option<ProcessError>, lookedUp: bool, sent: Option<ProcessedNotification>)

  /** ProcessMessage, given the limiter's verdict, the preference service's
      answer and whether the producer accepts the send. */
  function Pipeline(n: PrioritizedNotification, verdict: RateLimiter.Verdict,
                    prefs: Result<UserPreferences, Preferences.PreferencesError>, sendOk: bool): Outcome
  {
    if verdict.err.Some? then Outcome(Some(RateLimitFailed(verdict.err.value)), false, None)
    else if verdict.limited then Outcome(None, false, None)
    else if prefs.Failure? then Outcome(Some(PreferencesFailed(prefs.error)), true, None)
    else if !prefs.value.globalOptIn then Outcome(None, true, None)
    else
      var channels := ResolveChannels(n, prefs.value);
      if channels == {} then Outcome(None, true, None)
      else Outcome(if sendOk then None else Some(SendFailed), true, Some(ProcessedNotification(n, channels)))
  }

  /** The processor, with the user ids it looked up preferences for and the
      messages it handed to the producer. */
  class Processor {
    var lookups: seq<string>
    var sent: seq<ProcessedNotification>

    constructor()
      ensures lookups == [] && sent == []
    {
      lookups := [];
      sent := [];
    }

    method ProcessMessage(n: PrioritizedNotification, verdict: RateLimiter.Verdict,
                          prefs: Result<UserPreferences, Preferences.PreferencesError>, sendOk: bool)
      returns (err: Option<ProcessError>)
      modifies this
      ensures var o := Pipeline(n, verdict, prefs, sendOk);
        err == o.err &&
        lookups == old(lookups) + (if o.lookedUp then [n.event.userId] else []) &&
        sent == old(sent) + (if o.sent.Some? then [o.sent.value] else [])
    {
      if verdict.err.Some? {
        return Some(RateLimitFailed(verdict.err.value));
      }
      if verdict.limited {
        return None;
      }

      lookups := lookups + [n.event.userId];
      if prefs.Failure? {
        return Some(PreferencesFailed(prefs.error));
      }
      var userPreferences := prefs.value;

      if !userPreferences.globalOptIn {
        return None;
      }

      var channels := DetermineDeliveryChannels(n, userPreferences);
      if |channels| == 0 {
        assert ResolveChannels(n, userPreferences) == {};
        return None;
      }

      var channelSet := set c | c in channels;
      assert channelSet == ResolveChannels(n, userPreferences);
      assert channels[0] in channelSet;
      sent := sent + [ProcessedNotification(n, channelSet)];
      if !sendOk {
        return Some(SendFailed);
      }
      return None;
    }
  }
}
