/** The prioritizer's per-record pipeline
    (prioritizer-service/kafka/processor.go): validate, prioritize, send. */
module ClassifyProcessor {
  import opened Wrappers
  import opened Models
  import Validator
  import Prioritizer
  import PriorityProducer

  datatype ProcessError = ValidationFailed(reason: Validator.ValidationError) | SendFailed(cause: PriorityProducer.SendError)

  class Processor {
    const producer: PriorityProducer.KafkaProducer

    constructor(producer: PriorityProducer.KafkaProducer)
      ensures this.producer == producer
    {
      this.producer := producer;
    }

    /** ProcessMessage, with the clock reading and the broker's answer as inputs. */
    method ProcessMessage(e: NotificationEvent, now: int, brokerAccepts: bool) returns (err: Option<ProcessError>)
      modifies producer
      ensures Validator.Validate(e, now).Some? ==>
        err == Some(ValidationFailed(Validator.Validate(e, now).value)) && producer.sent == old(producer.sent)
      ensures Validator.Validate(e, now).None? ==>
        var routed := PriorityProducer.Route(producer.topics, Prioritizer.Prioritize(e));
        (routed.None? ==> err == Some(SendFailed(PriorityProducer.UnknownPriority(Prioritizer.Prioritize(e).priority))) &&
                          producer.sent == old(producer.sent)) &&
        (routed.Some? ==> producer.sent == old(producer.sent) + [routed.value] &&
                          err == if brokerAccepts then None else Some(SendFailed(PriorityProducer.BrokerRejected)))
    {
      var invalid := Validator.Validate(e, now);
      if invalid.Some? {
        return Some(ValidationFailed(invalid.value));
      }
      var prioritized := Prioritizer.Prioritize(e);
      var sendErr := producer.SendMessage(prioritized, brokerAccepts);
      if sendErr.Some? {
        return Some(SendFailed(sendErr.value));
      }
      return None;
    }
  }

  /** Prioritize's output always has a topic in a producer built from any
      configuration, so a valid event always reaches a topic: the one of its
      priority, keyed by its user id, with the event unchanged. A direct
      consequence of RoutingByPriority and Prioritize's contract. */
  lemma ValidEventsAreRouted(cfg: PriorityProducer.ProducerConfig, e: NotificationEvent)
    ensures PriorityProducer.Route(PriorityProducer.TopicTable(cfg), Prioritizer.Prioritize(e)).Some?
    ensures var m := PriorityProducer.Route(PriorityProducer.TopicTable(cfg), Prioritizer.Prioritize(e)).value;
      m.key == e.userId && m.value.event == e &&
      m.topic == PriorityProducer.TopicTable(cfg)[Prioritizer.Prioritize(e).priority]
  {
    PriorityProducer.RoutingByPriority(cfg, Prioritizer.Prioritize(e));
  }
}
