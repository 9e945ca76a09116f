/** Classification by event type (prioritizer-service/prioritizers/prioritizer.go). */
module Prioritizer {
  import opened Models

  /** The prioritizer's table from event type to priority. */
  const EventPriorities: map<string, string> := map[
    "security_alert" := PriorityHigh,
    "account_compromise" := PriorityHigh,
    "payment_failed" := PriorityHigh,
    "system_outage" := PriorityHigh,
    "message_received" := PriorityMedium,
    "friend_request" := PriorityMedium,
    "comment" := PriorityMedium,
    "subscription_expiring" := PriorityMedium,
    "like" := PriorityLow,
    "follow" := PriorityLow,
    "recommendation" := PriorityLow,
    "newsletter" := PriorityLow
  ]

  /** Prioritize: the event unchanged, with the table's priority for its
      type, or low for a type the table does not list. */
  function Prioritize(e: NotificationEvent): (r: PrioritizedNotification)
    ensures r.event == e
    ensures IsKnownPriority(r.priority)
  {
    var priority := if e.eventType in EventPriorities then EventPriorities[e.eventType] else PriorityLow;
    PrioritizedNotification(e, priority)
  }

  const HighEvents: set<string> := {"security_alert", "account_compromise", "payment_failed", "system_outage"}
  const MediumEvents: set<string> := {"message_received", "friend_request", "comment", "subscription_expiring"}

  /** Exactly four event types are high and four medium; every other type,
      listed or not, is low. */
  lemma PriorityByEventType(e: NotificationEvent)
    ensures Prioritize(e).priority == PriorityHigh <==> e.eventType in HighEvents
    ensures Prioritize(e).priority == PriorityMedium <==> e.eventType in MediumEvents
    ensures Prioritize(e).priority == PriorityLow <==> e.eventType !in HighEvents + MediumEvents
  {
  }

  /** An event type missing from the table is low. */
  lemma UnlistedIsLow(e: NotificationEvent)
    requires e.eventType !in EventPriorities
    ensures Prioritize(e) == PrioritizedNotification(e, PriorityLow)
  {
  }
}
