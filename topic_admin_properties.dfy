/** What topic provisioning guarantees, stated over TopicAdmin.Provision,
    which TopicManager.EnsureTopicExists is proved to perform. Each lemma
    follows from unfolding Provision once; they name the promises one by
    one. */
module TopicAdminProperties {
  import opened Wrappers
  import opened TopicAdmin

  /** Every topic in the manager's cache exists on the cluster. */
  predicate CacheInCluster(cache: map<string, bool>, cluster: map<string, TopicDetail>) {
    forall t :: t in cache ==> t in cluster
  }

  /** A cached topic is not checked again: no request, no change. */
  lemma CachedTopicSkipsCluster(cache: map<string, bool>, cluster: map<string, TopicDetail>, failing: set<AdminRequest>,
                                topic: string, partitions: int, replicationFactor: int)
    requires topic in cache
    ensures Provision(cache, cluster, failing, topic, partitions, replicationFactor) == Provisioned(None, cache, cluster, [])
  {
  }

  /** An absent topic is created with the configured counts (narrowed as
      int32 and int16), and cached only when creation succeeds. */
  lemma AbsentTopicIsCreated(cache: map<string, bool>, cluster: map<string, TopicDetail>, failing: set<AdminRequest>,
                             topic: string, partitions: int, replicationFactor: int)
    requires topic !in cache && topic !in cluster && ListTopics !in failing
    ensures var p := Provision(cache, cluster, failing, topic, partitions, replicationFactor);
      p.requests == [ListTopics, CreateTopic(topic)] &&
      (CreateTopic(topic) !in failing ==>
        p.err == None && topic in p.cache &&
        p.cluster == cluster[topic := TopicDetail(ToInt32(partitions), ToInt16(replicationFactor))]) &&
      (CreateTopic(topic) in failing ==>
        p.err == Some(CreateFailed(topic)) && p.cache == cache && p.cluster == cluster)
  {
  }

  /** With counts that fit the cluster API's widths, the topic is created
      with exactly the configured counts. */
  lemma CreatedWithConfiguredCounts(cache: map<string, bool>, cluster: map<string, TopicDetail>, failing: set<AdminRequest>,
                                    topic: string, partitions: int, replicationFactor: int)
    requires topic !in cache && topic !in cluster && ListTopics !in failing && CreateTopic(topic) !in failing
    requires 0 <= partitions < TwoTo31 && 0 <= replicationFactor < TwoTo15
    ensures Provision(cache, cluster, failing, topic, partitions, replicationFactor).cluster[topic] ==
            TopicDetail(partitions, replicationFactor)
  {
  }

  /** A topic is cached exactly when its check succeeds; a failed check
      leaves the cache as it was, so the next call retries from the listing. */
  lemma CachedExactlyOnSuccess(cache: map<string, bool>, cluster: map<string, TopicDetail>, failing: set<AdminRequest>,
                               topic: string, partitions: int, replicationFactor: int)
    requires topic !in cache
    ensures var p := Provision(cache, cluster, failing, topic, partitions, replicationFactor);
      (topic in p.cache <==> p.err.None?) &&
      (p.err.Some? ==> p.cache == cache && p.cluster == cluster &&
                       Provision(p.cache, p.cluster, failing, topic, partitions, replicationFactor).requests[0] == ListTopics)
  {
  }

  /** Partition counts never decrease and replication factors never change,
      for any topic; topics are never removed. */
  lemma PartitionsOnlyGrow(cache: map<string, bool>, cluster: map<string, TopicDetail>, failing: set<AdminRequest>,
                           topic: string, partitions: int, replicationFactor: int, t: string)
    requires t in cluster
    ensures var p := Provision(cache, cluster, failing, topic, partitions, replicationFactor);
      t in p.cluster &&
      p.cluster[t].numPartitions >= cluster[t].numPartitions &&
      p.cluster[t].replicationFactor == cluster[t].replicationFactor
  {
  }

  /** An existing topic is grown to the configured count only when it has
      fewer partitions; otherwise the cluster is left as it is. */
  lemma ExistingTopicGrowsOnlyWhenSmaller(cache: map<string, bool>, cluster: map<string, TopicDetail>, failing: set<AdminRequest>,
                                          topic: string, partitions: int, replicationFactor: int)
    requires topic !in cache && topic in cluster && ListTopics !in failing
    ensures var p := Provision(cache, cluster, failing, topic, partitions, replicationFactor);
      (cluster[topic].numPartitions >= ToInt32(partitions) ==>
        p == Provisioned(None, cache[topic := true], cluster, [ListTopics])) &&
      (cluster[topic].numPartitions < ToInt32(partitions) && CreatePartitions(topic) !in failing ==>
        p.err == None && p.cluster[topic] == TopicDetail(ToInt32(partitions), cluster[topic].replicationFactor))
  {
  }

  /** After a successful check of a topic that was not cached, the topic
      exists with at least the configured partition count. */
  lemma SuccessMeansEnoughPartitions(cache: map<string, bool>, cluster: map<string, TopicDetail>, failing: set<AdminRequest>,
                                     topic: string, partitions: int, replicationFactor: int)
    requires topic !in cache
    requires Provision(cache, cluster, failing, topic, partitions, replicationFactor).err.None?
    ensures var p := Provision(cache, cluster, failing, topic, partitions, replicationFactor);
      topic in p.cluster && p.cluster[topic].numPartitions >= ToInt32(partitions)
  {
  }

  /** Only the checked topic is touched, in the cache and on the cluster. */
  lemma OtherTopicsUntouched(cache: map<string, bool>, cluster: map<string, TopicDetail>, failing: set<AdminRequest>,
                             topic: string, partitions: int, replicationFactor: int, t: string)
    requires t != topic
    ensures var p := Provision(cache, cluster, failing, topic, partitions, replicationFactor);
      (t in p.cache <==> t in cache) && (t in p.cluster <==> t in cluster) &&
      (t in cluster ==> p.cluster[t] == cluster[t])
  {
  }

  /** Provisioning keeps every cached topic on the cluster, and a second
      check of a topic that succeeded costs nothing. */
  lemma CacheStaysSound(cache: map<string, bool>, cluster: map<string, TopicDetail>, failing: set<AdminRequest>,
                        topic: string, partitions: int, replicationFactor: int)
    requires CacheInCluster(cache, cluster)
    ensures var p := Provision(cache, cluster, failing, topic, partitions, replicationFactor);
      CacheInCluster(p.cache, p.cluster) &&
      (p.err.None? ==> Provision(p.cache, p.cluster, failing, topic, partitions, replicationFactor) ==
                       Provisioned(None, p.cache, p.cluster, []))
  {
    var p := Provision(cache, cluster, failing, topic, partitions, replicationFactor);
    forall t | t in p.cache ensures t in p.cluster {
      if t != topic {
        OtherTopicsUntouched(cache, cluster, failing, topic, partitions, replicationFactor, t);
      } else if topic !in cache {
        CachedExactlyOnSuccess(cache, cluster, failing, topic, partitions, replicationFactor);
      }
    }
  }
}
