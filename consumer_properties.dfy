/** What the staging buffers and the scheduler guarantee, proved about
    Consumer.Staged and the scheduler moves that ConsumeClaim and
    SchedulerStep are proved to perform. */
module ConsumerProperties {
  import opened Wrappers
  import opened Models
  import opened Consumer

  /** The events of the decodable messages, front to back. */
  function DecodedEvents(msgs: seq<Message>): seq<NotificationEvent> {
    if msgs == [] then []
    else (if msgs[0].decoded.Some? then [msgs[0].decoded.value.event] else []) + DecodedEvents(msgs[1..])
  }

  function Events(ns: seq<PrioritizedNotification>): (r: seq<NotificationEvent>)
    ensures |r| == |ns| && forall i :: 0 <= i < |ns| ==> r[i] == ns[i].event
  {
    seq(|ns|, i requires 0 <= i < |ns| => ns[i].event)
  }

  lemma {:induction false} StagedAppend(b: Band, xs: seq<Message>, ys: seq<Message>)
    ensures Staged(b, xs + ys) == Staged(b, xs) + Staged(b, ys)
    decreases |ys|
  {
    if ys != [] {
      var init := ys[..|ys| - 1];
      assert (xs + ys)[..|xs + ys| - 1] == xs + init;
      StagedAppend(b, xs, init);
    } else {
      assert xs + ys == xs;
    }
  }

  lemma {:induction false} DecodedEventsOfStaged(b: Band, msgs: seq<Message>)
    ensures Events(Staged(b, msgs)) == DecodedEvents(msgs)
  {
    if msgs != [] {
      StagedAppend(b, [msgs[0]], msgs[1..]);
      assert [msgs[0]] + msgs[1..] == msgs;
      assert [msgs[0]][..0] == [];
      DecodedEventsOfStaged(b, msgs[1..]);
      var head := Staged(b, [msgs[0]]);
      assert Events(head + Staged(b, msgs[1..])) == Events(head) + Events(Staged(b, msgs[1..]));
    }
  }

  /** The handler stages exactly the decodable messages, in claim order,
      with their events unchanged. */
  lemma StagedKeepsEventsInOrder(b: Band, msgs: seq<Message>)
    ensures Events(Staged(b, msgs)) == DecodedEvents(msgs)
    ensures forall n :: n in Staged(b, msgs) ==> n.priority == BandPriority(b)
  {
    DecodedEventsOfStaged(b, msgs);
    StagedCarriesBand(b, msgs);
  }

  /** A message that does not decode adds nothing to any buffer, wherever it
      sits in the claim. */
  lemma PoisonNeverStaged(b: Band, before: seq<Message>, offset: int, after: seq<Message>)
    ensures Staged(b, before + [Message(offset, None)] + after) == Staged(b, before + after)
  {
    StagedAppend(b, before + [Message(offset, None)], after);
    StagedAppend(b, before, after);
    assert (before + [Message(offset, None)])[..|before|] == before;
  }

  /** The bands a move receives from. */
  function BandsOf(m: Move): set<Band> {
    match m
    case Alone(b) => {b}
    case Pair(f, s) => {f, s}
  }

  /** FIFO per band: each band the move touches loses exactly its head, and
      the other bands are untouched. */
  lemma StepIsFifo(bs: Buffers, m: Move, x: Band)
    requires Allowed(bs, m)
    ensures Queue(bs, x) == (if x in BandsOf(m) then [Queue(bs, x)[0]] else []) + Queue(After(bs, m), x)
  {
    if x in BandsOf(m) {
      assert Queue(bs, x) == [Queue(bs, x)[0]] + Queue(bs, x)[1..];
    }
  }

  function Contents(bs: Buffers): multiset<PrioritizedNotification> {
    multiset(bs.high) + multiset(bs.medium) + multiset(bs.low)
  }

  lemma PopConserves(bs: Buffers, b: Band)
    requires Queue(bs, b) != []
    ensures Contents(bs) == Contents(Pop(bs, b)) + multiset{Queue(bs, b)[0]}
  {
    var q := Queue(bs, b);
    assert q == [q[0]] + q[1..];
  }

  /** No record is lost or duplicated: what leaves the buffers is exactly what
      the handler receives, one or two records. */
  lemma StepConserves(bs: Buffers, m: Move)
    requires Allowed(bs, m)
    ensures Contents(bs) == Contents(After(bs, m)) + multiset(Taken(bs, m))
    ensures 1 <= |Taken(bs, m)| <= 2
  {
    match m
    case Alone(b) =>
      PopConserves(bs, b);
    case Pair(f, s) =>
      PopConserves(bs, f);
      PopConserves(Pop(bs, f), s);
  }

  /** Stamping survives a step, and when two records are handled the first
      has strictly higher priority than the second. */
  lemma StepKeepsStampedAndOrder(bs: Buffers, m: Move)
    requires Stamped(bs) && Allowed(bs, m)
    ensures Stamped(After(bs, m))
    ensures forall n :: n in Taken(bs, m) ==> IsKnownPriority(n.priority)
    ensures |Taken(bs, m)| == 2 ==> PriorityRank(Taken(bs, m)[0].priority) > PriorityRank(Taken(bs, m)[1].priority)
  {
    var a := After(bs, m);
    forall x, n | n in Queue(a, x) ensures n.priority == BandPriority(x) {
      StepIsFifo(bs, m, x);
      assert n in Queue(bs, x);
    }
    match m
    case Alone(b) =>
      assert Queue(bs, b)[0] in Queue(bs, b);
    case Pair(f, s) =>
      assert Queue(bs, f)[0] in Queue(bs, f);
      assert Queue(bs, s)[0] in Queue(bs, s);
  }

  /** A record is handled alone only when every higher band was empty at the
      re-check: a medium record alone means no high record, a low record
      alone means no high and no medium record. */
  lemma AloneMeansHigherEmpty(bs: Buffers, b: Band)
    requires Allowed(bs, Alone(b))
    ensures b == Medium ==> bs.high == []
    ensures b == Low ==> bs.high == [] && bs.medium == []
  {
    assert BandRank(High) > BandRank(Medium) && BandRank(Medium) > BandRank(Low);
  }

  /** Not strict priority: the outer select can start from any non-empty
      band, low included, whatever the other bands hold. */
  lemma AnyReadyBandCanStart(bs: Buffers, b: Band)
    requires Queue(bs, b) != []
    ensures exists m :: Allowed(bs, m) && Outer(m) == b
  {
    if b != High && bs.high != [] {
      assert Allowed(bs, Pair(High, b)) && Outer(Pair(High, b)) == b;
    } else if b == Low && bs.medium != [] {
      assert Allowed(bs, Pair(Medium, Low)) && Outer(Pair(Medium, Low)) == b;
    } else {
      assert forall x :: BandRank(x) > BandRank(b) ==> Queue(bs, x) == [];
      assert Allowed(bs, Alone(b)) && Outer(Alone(b)) == b;
    }
  }

  /** A low record can be handled while high records are still waiting:
      one iteration takes one high head and the low head, leaving the rest
      of the high buffer behind. */
  lemma LowCanPassWaitingHigh(bs: Buffers)
    requires |bs.high| >= 2 && bs.low != []
    ensures Allowed(bs, Pair(High, Low))
    ensures bs.low[0] in Taken(bs, Pair(High, Low)) && After(bs, Pair(High, Low)).high != []
  {
  }

  /** Progress: with a record in any buffer some move is possible, and every
      move handles at least one record. */
  lemma StepMakesProgress(bs: Buffers)
    requires bs != Buffers([], [], [])
    ensures exists m :: Allowed(bs, m)
  {
    var b := if bs.high != [] then High else if bs.medium != [] then Medium else Low;
    AnyReadyBandCanStart(bs, b);
  }
}
