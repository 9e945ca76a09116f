/** The enqueue service's topic helper (enqueue-service/kafka/admin.go,
    getTopicNames). The service's EnsureTopicExists, createNewTopic and
    updateExistingTopic are TopicAdmin.TopicManager's. */
module EnqueueTopics {
  import opened TopicAdmin

  predicate NoDuplicates(names: seq<string>) {
    forall i, j :: 0 <= i < j < |names| ==> names[i] != names[j]
  }

  /** getTopicNames: the topic names, collected by iterating the map in an
      unspecified order. */
  method GetTopicNames(topics: map<string, TopicDetail>) returns (names: seq<string>)
    ensures NoDuplicates(names)
    ensures forall t :: t in names <==> t in topics
    ensures |names| == |topics|
  {
    names := [];
    var remaining := topics.Keys;
    while remaining != {}
      invariant remaining <= topics.Keys
      invariant NoDuplicates(names)
      invariant forall t :: t in names <==> t in topics && t !in remaining
      invariant |names| + |remaining| == |topics.Keys|
      decreases |remaining|
    {
      var t :| t in remaining;
      names := names + [t];
      remaining := remaining - {t};
    }
  }
}
