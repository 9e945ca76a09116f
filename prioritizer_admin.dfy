/** The prioritizer's topic set-up (prioritizer-service/kafka/admin.go,
    EnsureTopicsExist): the three priority topics, in order, stopping at the
    first error. Each topic is checked by TopicAdmin.TopicManager. */
module PrioritizerTopics {
  import opened Wrappers
  import opened TopicAdmin
  import TopicAdminProperties

  datatype TopicsConfig = TopicsConfig(topicHigh: string, topicMedium: string, topicLow: string,
                                       partitions: int, replicationFactor: int)

  /** Checking `topics` in order, stopping at the first error. */
  function ProvisionAll(cache: map<string, bool>, cluster: map<string, TopicDetail>, failing: set<AdminRequest>,
                        topics: seq<string>, partitions: int, replicationFactor: int): Provisioned
    decreases |topics|
  {
    if topics == [] then Provisioned(None, cache, cluster, [])
    else
      var first := Provision(cache, cluster, failing, topics[0], partitions, replicationFactor);
      AndThen(first, ProvisionAll(first.cache, first.cluster, failing, topics[1..], partitions, replicationFactor))
  }

  /** `first`, and when it succeeded, `rest` after it. */
  function AndThen(first: Provisioned, rest: Provisioned): Provisioned {
    if first.err.Some? then first
    else Provisioned(rest.err, rest.cache, rest.cluster, first.requests + rest.requests)
  }

  /** ProvisionAll over three topics, one check after another, each
      starting from the state the previous one left. */
  lemma ProvisionThree(cache: map<string, bool>, cluster: map<string, TopicDetail>, failing: set<AdminRequest>,
                       cfg: TopicsConfig, p1: Provisioned, p2: Provisioned, p3: Provisioned)
    requires p1 == Provision(cache, cluster, failing, cfg.topicHigh, cfg.partitions, cfg.replicationFactor)
    requires p2 == Provision(p1.cache, p1.cluster, failing, cfg.topicMedium, cfg.partitions, cfg.replicationFactor)
    requires p3 == Provision(p2.cache, p2.cluster, failing, cfg.topicLow, cfg.partitions, cfg.replicationFactor)
    ensures ProvisionAll(cache, cluster, failing, PriorityTopics(cfg), cfg.partitions, cfg.replicationFactor) ==
      AndThen(p1, AndThen(p2, AndThen(p3, Provisioned(None, p3.cache, p3.cluster, []))))
  {
    var topics := PriorityTopics(cfg);
    assert topics[1..] == [cfg.topicMedium, cfg.topicLow] && topics[1..][1..] == [cfg.topicLow] && topics[1..][1..][1..] == [];
    var done := Provisioned(None, p3.cache, p3.cluster, []);
    assert ProvisionAll(p3.cache, p3.cluster, failing, [], cfg.partitions, cfg.replicationFactor) == done;
    assert ProvisionAll(p2.cache, p2.cluster, failing, topics[1..][1..], cfg.partitions, cfg.replicationFactor) == AndThen(p3, done);
    assert ProvisionAll(p1.cache, p1.cluster, failing, topics[1..], cfg.partitions, cfg.replicationFactor) ==
           AndThen(p2, AndThen(p3, done));
  }

  lemma ConcatAssoc(r: seq<AdminRequest>, a: seq<AdminRequest>, b: seq<AdminRequest>, c: seq<AdminRequest>)
    ensures r + a + b + c == r + (a + (b + (c + [])))
    ensures r + a + b == r + (a + (b + []))
  {
  }

  function PriorityTopics(cfg: TopicsConfig): seq<string> {
    [cfg.topicHigh, cfg.topicMedium, cfg.topicLow]
  }

  method EnsureTopicsExist(tm: TopicManager, cfg: TopicsConfig) returns (err: Option<AdminError>)
    modifies tm, tm.admin
    ensures var p := ProvisionAll(old(tm.topics), old(tm.admin.topics), tm.admin.failing, PriorityTopics(cfg),
                                  cfg.partitions, cfg.replicationFactor);
      err == p.err && tm.topics == p.cache && tm.admin.topics == p.cluster &&
      tm.admin.requests == old(tm.admin.requests) + p.requests
  {
    ghost var failing := tm.admin.failing;
    ghost var requests0 := tm.admin.requests;
    ghost var p1 := Provision(tm.topics, tm.admin.topics, failing, cfg.topicHigh, cfg.partitions, cfg.replicationFactor);
    ghost var p2 := Provision(p1.cache, p1.cluster, failing, cfg.topicMedium, cfg.partitions, cfg.replicationFactor);
    ghost var p3 := Provision(p2.cache, p2.cluster, failing, cfg.topicLow, cfg.partitions, cfg.replicationFactor);
    ProvisionThree(tm.topics, tm.admin.topics, failing, cfg, p1, p2, p3);
    err := tm.EnsureTopicExists(cfg.topicHigh, cfg.partitions, cfg.replicationFactor);
    if err.Some? {
      return;
    }
    err := tm.EnsureTopicExists(cfg.topicMedium, cfg.partitions, cfg.replicationFactor);
    if err.Some? {
      ConcatAssoc(requests0, p1.requests, p2.requests, []);
      return;
    }
    err := tm.EnsureTopicExists(cfg.topicLow, cfg.partitions, cfg.replicationFactor);
    ConcatAssoc(requests0, p1.requests, p2.requests, p3.requests);
  }

  /** When the check of the high topic fails, medium and low are not looked at. */
  lemma StopsAtFirstError(cache: map<string, bool>, cluster: map<string, TopicDetail>, failing: set<AdminRequest>,
                          cfg: TopicsConfig)
    requires Provision(cache, cluster, failing, cfg.topicHigh, cfg.partitions, cfg.replicationFactor).err.Some?
    ensures ProvisionAll(cache, cluster, failing, PriorityTopics(cfg), cfg.partitions, cfg.replicationFactor) ==
            Provision(cache, cluster, failing, cfg.topicHigh, cfg.partitions, cfg.replicationFactor)
  {
  }

  /** On success every listed topic is cached and exists on the cluster, and
      the cache stays sound. */
  lemma {:induction false} AllProvisionedOnSuccess(cache: map<string, bool>, cluster: map<string, TopicDetail>,
                                                   failing: set<AdminRequest>, topics: seq<string>,
                                                   partitions: int, replicationFactor: int)
    requires TopicAdminProperties.CacheInCluster(cache, cluster)
    ensures var p := ProvisionAll(cache, cluster, failing, topics, partitions, replicationFactor);
      TopicAdminProperties.CacheInCluster(p.cache, p.cluster) &&
      (p.err.None? ==> forall t :: t in topics ==> t in p.cache && t in p.cluster)
    decreases |topics|
  {
    if topics != [] {
      var first := Provision(cache, cluster, failing, topics[0], partitions, replicationFactor);
      TopicAdminProperties.CacheStaysSound(cache, cluster, failing, topics[0], partitions, replicationFactor);
      if first.err.None? {
        AllProvisionedOnSuccess(first.cache, first.cluster, failing, topics[1..], partitions, replicationFactor);
        var rest := ProvisionAll(first.cache, first.cluster, failing, topics[1..], partitions, replicationFactor);
        if rest.err.None? {
          if topics[0] !in first.cache {
            TopicAdminProperties.CachedExactlyOnSuccess(cache, cluster, failing, topics[0], partitions, replicationFactor);
          }
          ProvisionKeepsCached(first.cache, first.cluster, failing, topics[1..], partitions, replicationFactor, topics[0]);
          forall t | t in topics ensures t in rest.cache && t in rest.cluster {
            if t != topics[0] {
              assert t in topics[1..];
            }
          }
        }
      }
    }
  }

  /** A cached topic stays cached. */
  lemma {:induction false} ProvisionKeepsCached(cache: map<string, bool>, cluster: map<string, TopicDetail>,
                                                failing: set<AdminRequest>, topics: seq<string>,
                                                partitions: int, replicationFactor: int, t: string)
    requires t in cache
    ensures t in ProvisionAll(cache, cluster, failing, topics, partitions, replicationFactor).cache
    decreases |topics|
  {
    if topics != [] {
      var first := Provision(cache, cluster, failing, topics[0], partitions, replicationFactor);
      if first.err.None? {
        ProvisionKeepsCached(first.cache, first.cluster, failing, topics[1..], partitions, replicationFactor, t);
      }
    }
  }
}
