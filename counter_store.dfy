/** The Redis sorted sets the rate limiter keeps its sliding windows in,
    reduced to the four commands it issues: ZREMRANGEBYSCORE, ZCARD, ZADD
    and EXPIRE. A key holds a map from member to score; Redis deletes a key
    whose set becomes empty, and with it the key's expiry. */
module CounterStore {

  /** member -> score */
  type SortedSet = map<string, int>

  datatype Store = Store(sets: map<string, SortedSet>, ttl: map<string, int>)

  /** A command against one key, used to say which commands fail. */
  datatype Command =
    | ZRemRangeByScoreOn(key: string)
    | ZCardOn(key: string)
    | ZAddOn(key: string)
    | ExpireOn(key: string)

  /** The members of a key; a missing key is an empty set. */
  function Members(s: Store, key: string): SortedSet {
    if key in s.sets then s.sets[key] else map[]
  }

  function Cardinality(s: Store, key: string): nat {
    |Members(s, key)|
  }

  /** Every key other than `key` has the same members and expiry in both stores. */
  ghost predicate SameElsewhere(s: Store, r: Store, key: string) {
    forall k :: k != key ==>
      Members(r, k) == Members(s, k) &&
      (k in r.ttl <==> k in s.ttl) &&
      (k in r.ttl ==> r.ttl[k] == s.ttl[k])
  }

  /** ZREMRANGEBYSCORE key min max: drops the members whose score lies in
      [min, max] and deletes the key if nothing is left. */
  function RemoveRangeByScore(s: Store, key: string, min: int, max: int): (r: Store)
    ensures forall m :: m in Members(r, key) <==> m in Members(s, key) && !(min <= Members(s, key)[m] <= max)
    ensures forall m :: m in Members(r, key) ==> Members(r, key)[m] == Members(s, key)[m]
    ensures SameElsewhere(s, r, key)
    ensures Members(r, key) == map[] ==> key !in r.sets && key !in r.ttl
    ensures Members(r, key) != map[] ==> (key in r.ttl <==> key in s.ttl) && (key in r.ttl ==> r.ttl[key] == s.ttl[key])
  {
    var old_ := Members(s, key);
    var kept := map m | m in old_ && !(min <= old_[m] <= max) :: old_[m];
    if kept == map[] then Store(s.sets - {key}, s.ttl - {key})
    else Store(s.sets[key := kept], s.ttl)
  }

  /** ZADD key score member: inserts the member, or moves it to the new
      score if it is already there. The key's expiry is untouched. */
  function WithMember(s: Store, key: string, member: string, score: int): (r: Store)
    ensures Members(r, key) == Members(s, key)[member := score]
    ensures Cardinality(r, key) == Cardinality(s, key) + (if member in Members(s, key) then 0 else 1)
    ensures SameElsewhere(s, r, key) && r.ttl == s.ttl
  {
    var m := Members(s, key);
    var m' := m[member := score];
    assert m'.Keys == m.Keys + {member};
    Store(s.sets[key := m'], s.ttl)
  }

  /** EXPIRE key seconds: sets the time to live of an existing key; a
      timeout that is not positive deletes the key; a missing key is left
      alone. */
  function WithExpiry(s: Store, key: string, seconds: int): (r: Store)
    ensures SameElsewhere(s, r, key)
    ensures Members(s, key) != map[] && seconds > 0 ==> Members(r, key) == Members(s, key) && key in r.ttl && r.ttl[key] == seconds
    ensures Members(s, key) != map[] && seconds <= 0 ==> Members(r, key) == map[] && key !in r.ttl
    ensures Members(s, key) == map[] ==> r == s
  {
    if Members(s, key) == map[] then s
    else if seconds <= 0 then Store(s.sets - {key}, s.ttl - {key})
    else Store(s.sets, s.ttl[key := seconds])
  }

  /** The counter store as the rate limiter sees it. `failing` names the
      commands that return an error; a failing command changes nothing. */
  class SortedSetStore {
    var state: Store
    const failing: set<Command>

    constructor (initial: Store, failing: set<Command>)
      ensures state == initial && this.failing == failing
    {
      state := initial;
      this.failing := failing;
    }

    method ZRemRangeByScore(key: string, min: int, max: int) returns (err: bool)
      modifies this
      ensures err == (ZRemRangeByScoreOn(key) in failing)
      ensures state == if err then old(state) else RemoveRangeByScore(old(state), key, min, max)
    {
      err := ZRemRangeByScoreOn(key) in failing;
      if !err {
        state := RemoveRangeByScore(state, key, min, max);
      }
    }

    method ZCard(key: string) returns (count: nat, err: bool)
      ensures err == (ZCardOn(key) in failing)
      ensures count == if err then 0 else Cardinality(state, key)
    {
      err := ZCardOn(key) in failing;
      count := if err then 0 else Cardinality(state, key);
    }

    method ZAdd(key: string, member: string, score: int) returns (err: bool)
      modifies this
      ensures err == (ZAddOn(key) in failing)
      ensures state == if err then old(state) else WithMember(old(state), key, member, score)
    {
      err := ZAddOn(key) in failing;
      if !err {
        state := WithMember(state, key, member, score);
      }
    }

    method Expire(key: string, seconds: int) returns (err: bool)
      modifies this
      ensures err == (ExpireOn(key) in failing)
      ensures state == if err then old(state) else WithExpiry(old(state), key, seconds)
    {
      err := ExpireOn(key) in failing;
      if !err {
        state := WithExpiry(state, key, seconds);
      }
    }
  }
}
