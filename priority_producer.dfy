/** Topic routing of the prioritizer's producer
    (prioritizer-service/kafka/producer.go). The broker is abstract: whether
    it accepts a send is an input, and what is handed to it is logged. */
module PriorityProducer {
  import opened Wrappers
  import opened Models

  datatype ProducerConfig = ProducerConfig(topicHigh: string, topicMedium: string, topicLow: string)

  /** A message as handed to the broker: topic, partition key and the
      notification it encodes. */
  datatype ProducerMessage = ProducerMessage(topic: string, key: string, value: PrioritizedNotification)

  datatype SendError = UnknownPriority(priority: string) | BrokerRejected

  /** The priority-to-topic map the producer is built with. */
  function TopicTable(cfg: ProducerConfig): (topics: map<string, string>)
    ensures topics.Keys == {PriorityHigh, PriorityMedium, PriorityLow}
  {
    map[PriorityHigh := cfg.topicHigh, PriorityMedium := cfg.topicMedium, PriorityLow := cfg.topicLow]
  }

  /** The message SendMessage hands to the broker for `n`, if its priority has a topic. */
  function Route(topics: map<string, string>, n: PrioritizedNotification): Option<ProducerMessage> {
    if n.priority in topics then Some(ProducerMessage(topics[n.priority], n.event.userId, n)) else None
  }

  class KafkaProducer {
    const topics: map<string, string>
    var sent: seq<ProducerMessage>

    constructor(cfg: ProducerConfig)
      ensures topics == TopicTable(cfg) && sent == []
    {
      topics := TopicTable(cfg);
      sent := [];
    }

    /** SendMessage: look the topic up by priority (an unknown priority is an
        error and nothing is sent), then send keyed by the user id. */
    method SendMessage(n: PrioritizedNotification, brokerAccepts: bool) returns (err: Option<SendError>)
      modifies this
      ensures Route(topics, n).None? ==> err == Some(UnknownPriority(n.priority)) && sent == old(sent)
      ensures Route(topics, n).Some? ==>
        sent == old(sent) + [Route(topics, n).value] &&
        err == if brokerAccepts then None else Some(BrokerRejected)
    {
      if n.priority !in topics {
        return Some(UnknownPriority(n.priority));
      }
      var topic := topics[n.priority];
      var msg := ProducerMessage(topic, n.event.userId, n);
      sent := sent + [msg];
      if !brokerAccepts {
        return Some(BrokerRejected);
      }
      return None;
    }
  }

  /** High, medium and low go to their configured topics, keyed by the user
      id, carrying the notification; any other priority has no route. */
  lemma RoutingByPriority(cfg: ProducerConfig, n: PrioritizedNotification)
    ensures Route(TopicTable(cfg), n).Some? <==> IsKnownPriority(n.priority)
    ensures n.priority == PriorityHigh ==> Route(TopicTable(cfg), n) == Some(ProducerMessage(cfg.topicHigh, n.event.userId, n))
    ensures n.priority == PriorityMedium ==> Route(TopicTable(cfg), n) == Some(ProducerMessage(cfg.topicMedium, n.event.userId, n))
    ensures n.priority == PriorityLow ==> Route(TopicTable(cfg), n) == Some(ProducerMessage(cfg.topicLow, n.event.userId, n))
  {
  }
}
