/** Admission checks of the prioritizer (prioritizer-service/validators/validator.go). */
module Validator {
  import opened Wrappers
  import opened Models

  datatype ValidationError = MissingId | MissingUserId | MissingEventType | FutureTimestamp

  /** Validate, with the clock reading `now` (Unix seconds) as a parameter:
      the first failing check in the order id, user id, event type,
      timestamp; None when all pass. */
  function Validate(e: NotificationEvent, now: int): (r: Option<ValidationError>)
    ensures r.None? <==> e.id != "" && e.userId != "" && e.eventType != "" && e.createdAt <= now
    ensures r == Some(MissingId) <==> e.id == ""
    ensures r == Some(MissingUserId) <==> e.id != "" && e.userId == ""
    ensures r == Some(MissingEventType) <==> e.id != "" && e.userId != "" && e.eventType == ""
    ensures r == Some(FutureTimestamp) <==> e.id != "" && e.userId != "" && e.eventType != "" && e.createdAt > now
  {
    if e.id == "" then Some(MissingId)
    else if e.userId == "" then Some(MissingUserId)
    else if e.eventType == "" then Some(MissingEventType)
    else if e.createdAt > now then Some(FutureTimestamp)
    else None
  }

  /** The timestamp bound is inclusive: an event stamped with the current
      second passes, one stamped a second later fails. */
  lemma TimestampBoundIsInclusive(e: NotificationEvent, now: int)
    requires e.id != "" && e.userId != "" && e.eventType != ""
    ensures Validate(e.(createdAt := now), now) == None
    ensures Validate(e.(createdAt := now + 1), now) == Some(FutureTimestamp)
  {
  }
}
