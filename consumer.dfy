/** The priority consumer of the rate-limiter service
    (rate-limiter-service/kafka/consumer.go): three bounded staging buffers
    fed by one handler per priority band, and the scheduler loop that drains
    them. Goroutines are not modelled; the ingest rule and one scheduler
    iteration are, as sequential steps. The loop's `select` statements pick
    at random among ready cases, which the model states with `:|`. */
module Consumer {
  import opened Wrappers
  import opened Models

  datatype Band = High | Medium | Low

  /** The priority a band's handler writes into every record it stages. */
  function BandPriority(b: Band): string {
    match b
    case High => PriorityHigh
    case Medium => PriorityMedium
    case Low => PriorityLow
  }

  /** The buffer sizes the consumer allocates: 1000 records for high,
      500 for medium, 100 for low. */
  function Capacity(b: Band): (r: nat)
    ensures r == if b == High then 1000 else if b == Medium then 500 else 100
  {
    match b
    case High => 1000
    case Medium => 500
    case Low => 100
  }

  function BandRank(b: Band): nat {
    match b
    case High => 3
    case Medium => 2
    case Low => 1
  }

  /** A higher band has a strictly larger buffer, and only a higher band does. */
  lemma CapacityFollowsRank(a: Band, b: Band)
    ensures Capacity(a) > Capacity(b) <==> BandRank(a) > BandRank(b)
    ensures Capacity(High) > Capacity(Medium) > Capacity(Low) > 0
  {
  }

  /** The rank of a priority string: 3 for high down to 1 for low, 0 otherwise. */
  function PriorityRank(p: string): nat {
    if p == PriorityHigh then 3 else if p == PriorityMedium then 2 else if p == PriorityLow then 1 else 0
  }

  /** A claimed message: its offset, and what decoding its value yields
      (None when the JSON does not decode). */
  datatype Message = Message(offset: int, decoded: Option<PrioritizedNotification>)

  /** A record as a band's handler stages it: priority overwritten. */
  function Stamp(b: Band, n: PrioritizedNotification): PrioritizedNotification {
    n.(priority := BandPriority(b))
  }

  /** What a band's handler stages for a run of messages: the decoded ones,
      stamped, in order. */
  function Staged(b: Band, msgs: seq<Message>): seq<PrioritizedNotification> {
    if msgs == [] then []
    else
      var last := msgs[|msgs| - 1];
      Staged(b, msgs[..|msgs| - 1]) + (if last.decoded.Some? then [Stamp(b, last.decoded.value)] else [])
  }

  /** Every record a band's handler stages carries that band's priority,
      whatever priority the message held. */
  lemma {:induction false} StagedCarriesBand(b: Band, msgs: seq<Message>)
    ensures forall n :: n in Staged(b, msgs) ==> n.priority == BandPriority(b)
  {
    if msgs != [] {
      StagedCarriesBand(b, msgs[..|msgs| - 1]);
    }
  }

  function Offsets(msgs: seq<Message>): (r: seq<int>)
    ensures |r| == |msgs| && forall i :: 0 <= i < |msgs| ==> r[i] == msgs[i].offset
  {
    seq(|msgs|, i requires 0 <= i < |msgs| => msgs[i].offset)
  }

  /** A buffered Go channel of notifications: a FIFO queue of bounded length. */
  class StagingBuffer {
    const capacity: nat
    var items: seq<PrioritizedNotification>

    constructor(capacity: nat)
      ensures this.capacity == capacity && items == []
    {
      this.capacity := capacity;
      items := [];
    }

    /** A channel send: it goes through only while there is room; on a full
        buffer the sender waits, which the model reports as not accepted. */
    method TrySend(n: PrioritizedNotification) returns (accepted: bool)
      modifies this
      ensures accepted <==> |old(items)| < capacity
      ensures items == if accepted then old(items) + [n] else old(items)
    {
      if |items| < capacity {
        items := items + [n];
        return true;
      }
      return false;
    }

    /** A channel receive from a non-empty buffer: the oldest record. */
    method Receive() returns (n: PrioritizedNotification)
      requires items != []
      modifies this
      ensures n == old(items)[0] && items == old(items)[1..]
    {
      n := items[0];
      items := items[1..];
    }
  }

  /** One of the three consumer-group handlers; they differ only in the band
      they stamp. `readySignals` counts closes of the ready channel and
      `marked` logs the offsets marked consumed. */
  class BandHandler {
    const band: Band
    const messages: StagingBuffer
    var isReady: bool
    var readySignals: nat
    var marked: seq<int>

    /** The ready channel is closed exactly when the handler is ready, so at most once. */
    predicate Valid()
      reads this
    {
      readySignals == if isReady then 1 else 0
    }

    constructor(band: Band, messages: StagingBuffer)
      ensures this.band == band && this.messages == messages
      ensures Valid() && !isReady && marked == []
    {
      this.band := band;
      this.messages := messages;
      isReady := false;
      readySignals := 0;
      marked := [];
    }

    /** Setup: signal readiness on the first session only. */
    method Setup()
      requires Valid()
      modifies this
      ensures Valid() && isReady
      ensures readySignals == if old(isReady) then old(readySignals) else old(readySignals) + 1
      ensures marked == old(marked)
    {
      if !isReady {
        readySignals := readySignals + 1;
        isReady := true;
      }
    }

    /** The body of ConsumeClaim's loop for one message: a message that does
        not decode is marked and dropped; a decoded one is stamped with the
        band's priority, staged, then marked. `blocked` reports a send
        waiting on a full buffer, with nothing changed. */
    method Ingest(m: Message) returns (blocked: bool)
      modifies this, messages
      ensures blocked <==> m.decoded.Some? && |old(messages.items)| >= messages.capacity
      ensures messages.items == old(messages.items) + (if blocked then [] else Staged(band, [m]))
      ensures marked == old(marked) + (if blocked then [] else [m.offset])
      ensures isReady == old(isReady) && readySignals == old(readySignals)
      ensures |old(messages.items)| <= messages.capacity ==> |messages.items| <= messages.capacity
    {
      assert [m][..0] == [];
      if m.decoded.None? {
        marked := marked + [m.offset];
        return false;
      }
      var notification := m.decoded.value.(priority := BandPriority(band));
      var accepted := messages.TrySend(notification);
      if !accepted {
        return true;
      }
      marked := marked + [m.offset];
      return false;
    }

    /** ConsumeClaim over a claim's messages: ingests them in order until
        one waits on a full buffer. */
    method ConsumeClaim(msgs: seq<Message>) returns (consumed: nat)
      modifies this, messages
      ensures consumed <= |msgs|
      ensures messages.items == old(messages.items) + Staged(band, msgs[..consumed])
      ensures marked == old(marked) + Offsets(msgs[..consumed])
      ensures consumed < |msgs| ==> msgs[consumed].decoded.Some? && |messages.items| >= messages.capacity
      ensures isReady == old(isReady) && readySignals == old(readySignals)
      ensures |old(messages.items)| <= messages.capacity ==> |messages.items| <= messages.capacity
    {
      consumed := 0;
      while consumed < |msgs|
        invariant consumed <= |msgs|
        invariant messages.items == old(messages.items) + Staged(band, msgs[..consumed])
        invariant marked == old(marked) + Offsets(msgs[..consumed])
        invariant isReady == old(isReady) && readySignals == old(readySignals)
        invariant |old(messages.items)| <= messages.capacity ==> |messages.items| <= messages.capacity
      {
        var blocked := Ingest(msgs[consumed]);
        if blocked {
          return;
        }
        assert msgs[..consumed + 1][..consumed] == msgs[..consumed];
        assert Offsets(msgs[..consumed + 1]) == Offsets(msgs[..consumed]) + [msgs[consumed].offset];
        consumed := consumed + 1;
      }
    }
  }

  /** A snapshot of the three buffers' contents. */
  datatype Buffers = Buffers(high: seq<PrioritizedNotification>, medium: seq<PrioritizedNotification>,
                             low: seq<PrioritizedNotification>)

  function Queue(bs: Buffers, b: Band): seq<PrioritizedNotification> {
    match b
    case High => bs.high
    case Medium => bs.medium
    case Low => bs.low
  }

  /** The buffers after the head of band `b` is received. */
  function Pop(bs: Buffers, b: Band): (r: Buffers)
    requires Queue(bs, b) != []
    ensures Queue(r, b) == Queue(bs, b)[1..]
    ensures forall x :: x != b ==> Queue(r, x) == Queue(bs, x)
  {
    match b
    case High => bs.(high := bs.high[1..])
    case Medium => bs.(medium := bs.medium[1..])
    case Low => bs.(low := bs.low[1..])
  }

  /** Every buffer holds only records stamped with its band's priority. */
  predicate Stamped(bs: Buffers) {
    forall x, n :: n in Queue(bs, x) ==> n.priority == BandPriority(x)
  }

  /** Receiving a band's head keeps every buffer stamped. */
  lemma PopKeepsStamped(bs: Buffers, b: Band)
    requires Stamped(bs) && Queue(bs, b) != []
    ensures Stamped(Pop(bs, b))
  {
    forall x, n | n in Queue(Pop(bs, b), x) ensures n.priority == BandPriority(x) {
      assert n in Queue(bs, x);
    }
  }

  /** The buffers after records `ns` are sent to band `b`. */
  function Push(bs: Buffers, b: Band, ns: seq<PrioritizedNotification>): (r: Buffers)
    ensures Queue(r, b) == Queue(bs, b) + ns
    ensures forall x :: x != b ==> Queue(r, x) == Queue(bs, x)
  {
    match b
    case High => bs.(high := bs.high + ns)
    case Medium => bs.(medium := bs.medium + ns)
    case Low => bs.(low := bs.low + ns)
  }

  /** What one scheduler iteration handles: one record of a band, or two, of
      which the `second` band's was received by the outer select and the
      `first` band's by the inner re-check and handled before it. */
  datatype Move = Alone(band: Band) | Pair(first: Band, second: Band)

  /** The band the outer select received from. */
  function Outer(m: Move): Band {
    match m
    case Alone(b) => b
    case Pair(_, s) => s
  }

  /** The moves the scheduler loop can make from `bs`: a high record alone;
      a medium record alone when the re-check finds no high record, or after
      a high record when it finds one; a low record alone when the re-check
      finds neither, or after a high or a medium record, whichever the inner
      select picks. */
  predicate Allowed(bs: Buffers, m: Move) {
    match m
    case Alone(b) => Queue(bs, b) != [] && forall x :: BandRank(x) > BandRank(b) ==> Queue(bs, x) == []
    case Pair(f, s) => Queue(bs, f) != [] && Queue(bs, s) != [] && BandRank(f) > BandRank(s)
  }

  function After(bs: Buffers, m: Move): Buffers
    requires Allowed(bs, m)
  {
    match m
    case Alone(b) => Pop(bs, b)
    case Pair(f, s) => Pop(Pop(bs, f), s)
  }

  /** The records a move hands to the message handler, in call order. */
  function Taken(bs: Buffers, m: Move): seq<PrioritizedNotification>
    requires Allowed(bs, m)
  {
    match m
    case Alone(b) => [Queue(bs, b)[0]]
    case Pair(f, s) => [Queue(bs, f)[0], Queue(bs, s)[0]]
  }

  /** How one scheduler iteration ends: the context was done, no case was
      ready (the select waits), or a move was made. */
  datatype StepOutcome = Shutdown | Waiting | Handled(move: Move)

  /** The cases of the outer select. */
  datatype SelectCase = ContextDone | Ready(band: Band)

  /** The consumer: the three staging buffers, the records handed to the
      message handler, and the consumer groups closed so far. */
  class PriorityConsumer {
    const high: StagingBuffer
    const medium: StagingBuffer
    const low: StagingBuffer
    var handled: seq<PrioritizedNotification>
    var closed: seq<Band>

    predicate Valid()
      reads this, high, medium, low
    {
      high != medium && medium != low && high != low &&
      high.capacity == Capacity(High) && medium.capacity == Capacity(Medium) && low.capacity == Capacity(Low) &&
      |high.items| <= high.capacity && |medium.items| <= medium.capacity && |low.items| <= low.capacity &&
      Stamped(Snapshot())
    }

    /** The buffer the handler of band `b` sends to. */
    function BufferFor(b: Band): StagingBuffer {
      match b
      case High => high
      case Medium => medium
      case Low => low
    }

    function Snapshot(): Buffers
      reads this, high, medium, low
    {
      Buffers(high.items, medium.items, low.items)
    }

    constructor()
      ensures Valid() && fresh(high) && fresh(medium) && fresh(low)
      ensures Snapshot() == Buffers([], [], []) && handled == [] && closed == []
    {
      high := new StagingBuffer(Capacity(High));
      medium := new StagingBuffer(Capacity(Medium));
      low := new StagingBuffer(Capacity(Low));
      handled := [];
      closed := [];
    }

    method ReceiveFrom(b: Band) returns (n: PrioritizedNotification)
      requires Valid() && Queue(Snapshot(), b) != []
      modifies high, medium, low
      ensures Valid() && Snapshot() == Pop(old(Snapshot()), b)
      ensures n == Queue(old(Snapshot()), b)[0]
    {
      PopKeepsStamped(Snapshot(), b);
      match b {
        case High => n := high.Receive();
        case Medium => n := medium.Receive();
        case Low => n := low.Receive();
      }
    }

    /** A claim consumed by the handler of band `b`, wired to this consumer's
        buffer for `b` as NewPriorityConsumer wires it: the staged records
        land at the back of that band's queue, every buffer stays stamped
        with its band's priority, and no other queue changes. */
    method Consume(h: BandHandler, msgs: seq<Message>) returns (consumed: nat)
      requires Valid() && h.messages == BufferFor(h.band)
      modifies h, high, medium, low
      ensures Valid()
      ensures consumed <= |msgs|
      ensures Snapshot() == Push(old(Snapshot()), h.band, Staged(h.band, msgs[..consumed]))
      ensures h.marked == old(h.marked) + Offsets(msgs[..consumed])
      ensures handled == old(handled) && closed == old(closed)
    {
      ghost var before := Snapshot();
      consumed := h.ConsumeClaim(msgs);
      StagedCarriesBand(h.band, msgs[..consumed]);
      assert Snapshot() == Push(before, h.band, Staged(h.band, msgs[..consumed]));
    }

    /** One iteration of the scheduler loop. The message handler's errors are
        only logged, so every record received is handled and none returns
        to a buffer. */
    method SchedulerStep(contextDone: bool) returns (outcome: StepOutcome)
      requires Valid()
      modifies this, high, medium, low
      ensures Valid()
      ensures outcome.Shutdown? ==> contextDone
      ensures outcome.Waiting? ==> !contextDone && old(Snapshot()) == Buffers([], [], [])
      ensures !outcome.Handled? ==> Snapshot() == old(Snapshot()) && handled == old(handled)
      ensures outcome.Handled? ==>
        Allowed(old(Snapshot()), outcome.move) &&
        Snapshot() == After(old(Snapshot()), outcome.move) &&
        handled == old(handled) + Taken(old(Snapshot()), outcome.move)
      ensures closed == old(closed)
    {
      var ready: set<SelectCase> :=
        (if contextDone then {ContextDone} else {}) +
        (if high.items != [] then {Ready(High)} else {}) +
        (if medium.items != [] then {Ready(Medium)} else {}) +
        (if low.items != [] then {Ready(Low)} else {});
      if ready == {} {
        assert !contextDone && high.items == [] && medium.items == [] && low.items == [];
        return Waiting;
      }
      var chosen :| chosen in ready;
      if chosen == ContextDone {
        return Shutdown;
      }
      var move := HandleFrom(chosen.band);
      return Handled(move);
    }

    /** The outer select received from `outer`: take its head, re-check the
        bands above it, and hand the records to the message handler. */
    method HandleFrom(outer: Band) returns (move: Move)
      requires Valid() && Queue(Snapshot(), outer) != []
      modifies this, high, medium, low
      ensures Valid() && Outer(move) == outer && Allowed(old(Snapshot()), move)
      ensures Snapshot() == After(old(Snapshot()), move)
      ensures handled == old(handled) + Taken(old(Snapshot()), move)
      ensures closed == old(closed)
    {
      var before := Snapshot();
      var msg := ReceiveFrom(outer);
      var higher: set<Band> :=
        (if outer != High && high.items != [] then {High} else {}) +
        (if outer == Low && medium.items != [] then {Medium} else {});
      if higher == {} {
        handled := handled + [msg];
        assert forall x :: BandRank(x) > BandRank(outer) ==> Queue(before, x) == [];
        return Alone(outer);
      }
      var first :| first in higher;
      var firstMsg := ReceiveFrom(first);
      handled := handled + [firstMsg, msg];
      move := Pair(first, outer);
      assert Pop(Pop(before, first), outer) == Pop(Pop(before, outer), first);
    }

    /** Close: every consumer group is closed, in band order, whatever the
        earlier ones returned; the first error is the one reported. */
    method Close(highErr: Option<string>, mediumErr: Option<string>, lowErr: Option<string>)
      returns (err: Option<string>)
      modifies this
      ensures closed == old(closed) + [High, Medium, Low]
      ensures err == if highErr.Some? then highErr else if mediumErr.Some? then mediumErr else lowErr
      ensures handled == old(handled)
    {
      var errs: seq<string> := [];
      closed := closed + [High];
      if highErr.Some? {
        errs := errs + [highErr.value];
      }
      closed := closed + [Medium];
      if mediumErr.Some? {
        errs := errs + [mediumErr.value];
      }
      closed := closed + [Low];
      if lowErr.Some? {
        errs := errs + [lowErr.value];
      }
      if |errs| > 0 {
        return Some(errs[0]);
      }
      return None;
    }
  }
}
