/** The records the three services pass along the pipeline, and the
    preference matrix of the preference store. */
module Models {

  const PriorityHigh := "high"
  const PriorityMedium := "medium"
  const PriorityLow := "low"

  const ChannelEmail := "email"
  const ChannelInApp := "in-app"
  const ChannelPush := "push"
  const ChannelWhatsApp := "whatsapp"
  const ChannelSms := "sms"

  /** The three priorities the system knows. */
  predicate IsKnownPriority(p: string) {
    p == PriorityHigh || p == PriorityMedium || p == PriorityLow
  }

  /** A notification as the enqueue service publishes it. Metadata values,
      arbitrary JSON in the source, are kept as strings. */
  datatype NotificationEvent = NotificationEvent(
    id: string,
    userId: string,
    eventType: string,
    content: string,
    metadata: map<string, string>,
    createdAt: int)

  /** A notification with the priority the prioritizer gave it. The
      rate-limiter service reads the same JSON shape as one flat struct. */
  datatype PrioritizedNotification = PrioritizedNotification(event: NotificationEvent, priority: string)

  /** A notification that passed admission control, with the channels it is
      to be delivered on. The source builds the channel list by iterating a
      Go map, so its order carries no meaning and it is kept as a set. */
  datatype ProcessedNotification = ProcessedNotification(notification: PrioritizedNotification, channels: set<string>)

  /** A user's preference matrix: global opt-in, channel -> enabled, and
      per event type an override channel -> enabled map. */
  datatype UserPreferences = UserPreferences(
    userId: string,
    globalOptIn: bool,
    channels: map<string, bool>,
    eventTypes: map<string, map<string, bool>>)

  /** The channels a channel map sets to true. */
  function EnabledIn(m: map<string, bool>): (r: set<string>)
    ensures forall c :: c in r <==> c in m && m[c]
  {
    set c | c in m && m[c]
  }
}
