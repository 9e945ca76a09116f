/** Topic provisioning, shared by the three services' kafka/admin.go files,
    whose ensureTopicExists, createNewTopic and updateExistingTopic carry the
    same logic. The cluster is abstract: a topic map, a set of requests that
    fail, and a log of the requests it receives. */
module TopicAdmin {
  import opened Wrappers

  /** Partition count and replication factor, as stored by the cluster. */
  datatype TopicDetail = TopicDetail(numPartitions: int, replicationFactor: int)

  const TwoTo31: int := 0x8000_0000
  const TwoTo15: int := 0x8000

  /** Go's int32(x): keep the low 32 bits, read as two's complement. */
  function ToInt32(x: int): (r: int)
    ensures -TwoTo31 <= r < TwoTo31
    ensures -TwoTo31 <= x < TwoTo31 ==> r == x
    ensures (x - r) % (2 * TwoTo31) == 0
  {
    var m := x % (2 * TwoTo31);
    if m >= TwoTo31 then m - 2 * TwoTo31 else m
  }

  /** Go's int16(x): keep the low 16 bits, read as two's complement. */
  function ToInt16(x: int): (r: int)
    ensures -TwoTo15 <= r < TwoTo15
    ensures -TwoTo15 <= x < TwoTo15 ==> r == x
    ensures (x - r) % (2 * TwoTo15) == 0
  {
    var m := x % (2 * TwoTo15);
    if m >= TwoTo15 then m - 2 * TwoTo15 else m
  }

  /** The requests the topic manager sends to the cluster. */
  datatype AdminRequest = ListTopics | CreateTopic(topic: string) | CreatePartitions(topic: string)

  datatype AdminError = ListFailed | CreateFailed(topic: string) | GrowFailed(topic: string)

  /** The cluster as the admin client sees it. A request in `failing` fails
      without effect; so does creating a topic that exists or growing one
      that does not. */
  class ClusterAdmin {
    var topics: map<string, TopicDetail>
    const failing: set<AdminRequest>
    var requests: seq<AdminRequest>

    constructor(topics: map<string, TopicDetail>, failing: set<AdminRequest>)
      ensures this.topics == topics && this.failing == failing && requests == []
    {
      this.topics := topics;
      this.failing := failing;
      requests := [];
    }

    method ListTopicDetails() returns (r: Option<map<string, TopicDetail>>)
      modifies this
      ensures r == if ListTopics in failing then None else Some(topics)
      ensures topics == old(topics) && requests == old(requests) + [ListTopics]
    {
      requests := requests + [ListTopics];
      if ListTopics in failing {
        return None;
      }
      return Some(topics);
    }

    method CreateTopicWith(topic: string, detail: TopicDetail) returns (ok: bool)
      modifies this
      ensures ok <==> CreateTopic(topic) !in failing && topic !in old(topics)
      ensures topics == if ok then old(topics)[topic := detail] else old(topics)
      ensures requests == old(requests) + [CreateTopic(topic)]
    {
      requests := requests + [CreateTopic(topic)];
      if CreateTopic(topic) in failing || topic in topics {
        return false;
      }
      topics := topics[topic := detail];
      return true;
    }

    method GrowPartitions(topic: string, count: int) returns (ok: bool)
      modifies this
      ensures ok <==> CreatePartitions(topic) !in failing && topic in old(topics)
      ensures topics == if ok then old(topics)[topic := old(topics)[topic].(numPartitions := count)] else old(topics)
      ensures requests == old(requests) + [CreatePartitions(topic)]
    {
      requests := requests + [CreatePartitions(topic)];
      if CreatePartitions(topic) in failing || topic !in topics {
        return false;
      }
      topics := topics[topic := topics[topic].(numPartitions := count)];
      return true;
    }
  }

  /** The result of ensuring one topic: the error, the manager's cache, the
      cluster's topics, and the requests sent. */
  datatype Provisioned = Provisioned(err: Option<AdminError>, cache: map<string, bool>,
                                     cluster: map<string, TopicDetail>, requests: seq<AdminRequest>)

  /** ensureTopicExists against a cluster holding `cluster` whose failing
      requests are `failing`, with the manager's cache `cache`. */
  function Provision(cache: map<string, bool>, cluster: map<string, TopicDetail>, failing: set<AdminRequest>,
                     topic: string, partitions: int, replicationFactor: int): Provisioned
  {
    if topic in cache then Provisioned(None, cache, cluster, [])
    else if ListTopics in failing then Provisioned(Some(ListFailed), cache, cluster, [ListTopics])
    else if topic !in cluster then
      if CreateTopic(topic) in failing then
        Provisioned(Some(CreateFailed(topic)), cache, cluster, [ListTopics, CreateTopic(topic)])
      else
        Provisioned(None, cache[topic := true],
                    cluster[topic := TopicDetail(ToInt32(partitions), ToInt16(replicationFactor))],
                    [ListTopics, CreateTopic(topic)])
    else
      var existing := cluster[topic];
      if existing.numPartitions < ToInt32(partitions) then
        if CreatePartitions(topic) in failing then
          Provisioned(Some(GrowFailed(topic)), cache, cluster, [ListTopics, CreatePartitions(topic)])
        else
          Provisioned(None, cache[topic := true],
                      cluster[topic := existing.(numPartitions := ToInt32(partitions))],
                      [ListTopics, CreatePartitions(topic)])
      else Provisioned(None, cache[topic := true], cluster, [ListTopics])
  }

  /** A service's TopicManager: the cluster admin and the cache of topics
      already checked. */
  class TopicManager {
    const admin: ClusterAdmin
    var topics: map<string, bool>

    constructor(admin: ClusterAdmin)
      ensures this.admin == admin && topics == map[]
    {
      this.admin := admin;
      topics := map[];
    }

    /** ensureTopicExists: skip a cached topic; otherwise list the cluster's
        topics, then create the topic or update the existing one. */
    method EnsureTopicExists(topic: string, partitions: int, replicationFactor: int) returns (err: Option<AdminError>)
      modifies this, admin
      ensures var p := Provision(old(topics), old(admin.topics), admin.failing, topic, partitions, replicationFactor);
        err == p.err && topics == p.cache && admin.topics == p.cluster &&
        admin.requests == old(admin.requests) + p.requests
    {
      if topic in topics {
        return None;
      }
      var listed := admin.ListTopicDetails();
      if listed.None? {
        return Some(ListFailed);
      }
      if topic !in listed.value {
        err := CreateNewTopic(topic, partitions, replicationFactor);
        return;
      }
      err := UpdateExistingTopic(topic, partitions, replicationFactor, listed.value[topic]);
    }

    /** createNewTopic: create with the configured counts, narrowed to the
        widths the cluster API takes; cache the topic only on success. */
    method CreateNewTopic(topic: string, partitions: int, replicationFactor: int) returns (err: Option<AdminError>)
      requires topic !in topics && topic !in admin.topics
      modifies this, admin
      ensures CreateTopic(topic) in admin.failing ==>
        err == Some(CreateFailed(topic)) && topics == old(topics) && admin.topics == old(admin.topics)
      ensures CreateTopic(topic) !in admin.failing ==>
        err == None && topics == old(topics)[topic := true] &&
        admin.topics == old(admin.topics)[topic := TopicDetail(ToInt32(partitions), ToInt16(replicationFactor))]
      ensures admin.requests == old(admin.requests) + [CreateTopic(topic)]
    {
      var detail := TopicDetail(ToInt32(partitions), ToInt16(replicationFactor));
      var ok := admin.CreateTopicWith(topic, detail);
      if !ok {
        return Some(CreateFailed(topic));
      }
      topics := topics[topic := true];
      return None;
    }

    /** updateExistingTopic: grow the partition count when it is below the
        configured one; never touch the replication factor (a mismatch is
        only logged); cache the topic unless growing fails. */
    method UpdateExistingTopic(topic: string, partitions: int, replicationFactor: int, existing: TopicDetail)
      returns (err: Option<AdminError>)
      requires topic in admin.topics && admin.topics[topic] == existing
      modifies this, admin
      ensures existing.numPartitions < ToInt32(partitions) && CreatePartitions(topic) in admin.failing ==>
        err == Some(GrowFailed(topic)) && topics == old(topics) && admin.topics == old(admin.topics) &&
        admin.requests == old(admin.requests) + [CreatePartitions(topic)]
      ensures existing.numPartitions < ToInt32(partitions) && CreatePartitions(topic) !in admin.failing ==>
        err == None && topics == old(topics)[topic := true] &&
        admin.topics == old(admin.topics)[topic := existing.(numPartitions := ToInt32(partitions))] &&
        admin.requests == old(admin.requests) + [CreatePartitions(topic)]
      ensures existing.numPartitions >= ToInt32(partitions) ==>
        err == None && topics == old(topics)[topic := true] && admin.topics == old(admin.topics) &&
        admin.requests == old(admin.requests)
    {
      if existing.numPartitions < ToInt32(partitions) {
        var ok := admin.GrowPartitions(topic, ToInt32(partitions));
        if !ok {
          return Some(GrowFailed(topic));
        }
      }
      topics := topics[topic := true];
      return None;
    }
  }
}
