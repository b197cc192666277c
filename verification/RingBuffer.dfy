/**
 * The bounded producer/consumer program: one producer and one consumer walk round after round over a
 * buffer of `capacity` slots, synchronized by two semaphores. Before its loops the producer takes one
 * permit that it never gives back. One step is one semaphore action or one access to the buffer.
 */
module RingBuffer {
  import opened Arith

  datatype Config = Config(capacity: nat, rounds: nat) {
    /** What the program checks of its arguments. */
    predicate Valid() {
      capacity >= 1 && rounds >= 1
    }

    function Total(): nat {
      rounds * capacity
    }
  }

  datatype ProducerPc = TakingExtra | AwaitingSpace | Writing | Posting | Finished
  datatype ConsumerPc = AwaitingItem | Reading | Freeing | Gone

  /** The loop variables of a thread. */
  datatype Position = Position(round: nat, index: nat)

  datatype State = State(
    canProduce: nat, canConsume: nat, buffer: seq<nat>,
    producer: ProducerPc, at: Position, count: nat,
    consumer: ConsumerPc, from: Position,
    consumed: seq<nat>)  // history: what the consumer has read

  datatype Event = Produce | Consume

  predicate Shape(c: Config, s: State) {
    |s.buffer| == c.capacity && s.at.index < c.capacity && s.from.index < c.capacity
  }

  /** The end of an iteration of the inner loop. */
  function Next(c: Config, p: Position): Position {
    if p.index + 1 < c.capacity then Position(p.round, p.index + 1) else Position(p.round + 1, 0)
  }

  predicate Enabled(c: Config, s: State, e: Event) {
    match e
    case Produce =>
      !s.producer.Finished? && (s.producer.TakingExtra? || s.producer.AwaitingSpace? ==> s.canProduce > 0)
    case Consume =>
      !s.consumer.Gone? && (s.consumer.AwaitingItem? ==> s.canConsume > 0)
  }

  function Apply(c: Config, s: State, e: Event): (s': State)
    requires Shape(c, s) && Enabled(c, s, e)
    ensures Shape(c, s')
  {
    match e
    case Produce => (
      match s.producer
      case TakingExtra => s.(canProduce := s.canProduce - 1, producer := AwaitingSpace)
      case AwaitingSpace => s.(canProduce := s.canProduce - 1, producer := Writing)
      case Writing => s.(buffer := s.buffer[s.at.index := s.count + 1], count := s.count + 1, producer := Posting)
      case Posting =>
        var next := Next(c, s.at);
        s.(canConsume := s.canConsume + 1, at := next,
           producer := if next.round < c.rounds then AwaitingSpace else Finished))
    case Consume =>
      match s.consumer
      case AwaitingItem => s.(canConsume := s.canConsume - 1, consumer := Reading)
      case Reading => s.(consumed := s.consumed + [s.buffer[s.from.index]], consumer := Freeing)
      case Freeing =>
        var next := Next(c, s.from);
        s.(canProduce := s.canProduce + 1, from := next,
           consumer := if next.round < c.rounds then AwaitingItem else Gone)
  }

  ghost predicate Step(c: Config, s: State, s': State) {
    Shape(c, s) && exists e :: Enabled(c, s, e) && s' == Apply(c, s, e)
  }

  predicate Init(c: Config, s: State) {
    && c.Valid() && Shape(c, s)
    && s.canProduce == c.capacity && s.canConsume == 0 && s.count == 0 && s.consumed == []
    && s.producer == TakingExtra && s.at == Position(0, 0)
    && s.consumer == AwaitingItem && s.from == Position(0, 0)
  }

  ghost predicate IsRun(c: Config, run: seq<State>) {
    && |run| > 0 && Init(c, run[0])
    && forall i :: 0 <= i < |run| - 1 ==> Step(c, run[i], run[i + 1])
  }

  ghost predicate Stuck(c: Config, s: State) {
    forall e :: !Enabled(c, s, e)
  }

  predicate AllDone(s: State) {
    s.producer.Finished? && s.consumer.Gone?
  }

  // ---- Positions and slots ----

  /** The number of completed iterations before a position. */
  function Before(c: Config, p: Position): nat {
    p.round * c.capacity + p.index
  }

  lemma NextIsNext(c: Config, p: Position)
    requires p.index < c.capacity
    ensures Before(c, Next(c, p)) == Before(c, p) + 1 && Next(c, p).index < c.capacity
  {
  }

  /** A position is within its rounds exactly when it comes before the end. */
  lemma InRounds(c: Config, p: Position)
    requires p.index < c.capacity
    ensures p.round < c.rounds <==> Before(c, p) < c.Total()
    ensures p == Position(c.rounds, 0) ==> Before(c, p) == c.Total()
  {
    if p.round < c.rounds {
      assert (p.round + 1) * c.capacity <= c.rounds * c.capacity;
    } else {
      assert c.rounds * c.capacity <= p.round * c.capacity;
    }
  }

  /** Item j, counted from 0, goes into this slot. */
  function Slot(c: Config, j: nat): (slot: nat)
    requires c.capacity > 0
    ensures slot < c.capacity
  {
    j % c.capacity
  }

  lemma SlotOfPosition(c: Config, p: Position)
    requires p.index < c.capacity
    ensures Slot(c, Before(c, p)) == p.index
  {
    ModUnique(Before(c, p), c.capacity, p.round, p.index);
  }

  /** Items less than a round apart have different slots. */
  lemma SlotsDiffer(c: Config, i: nat, j: nat)
    requires c.capacity > 0 && i < j < i + c.capacity
    ensures Slot(c, i) != Slot(c, j)
  {
    if Slot(c, i) == Slot(c, j) {
      var d := j / c.capacity - i / c.capacity;
      assert c.capacity * d == c.capacity * (j / c.capacity) - c.capacity * (i / c.capacity);
      MultipleIsFar(c.capacity, d);
    }
  }

  // ---- The invariant ----

  function ProducerHolds(s: State): nat { if s.producer.Writing? || s.producer.Posting? then 1 else 0 }
  function ConsumerHolds(s: State): nat { if s.consumer.Reading? || s.consumer.Freeing? then 1 else 0 }

  /** Every slot is a permit to produce, a permit to consume, in the hands of a thread, or the extra one. */
  predicate Permits(c: Config, s: State) {
    && s.canProduce + s.canConsume + ProducerHolds(s) + ConsumerHolds(s) + (if s.producer.TakingExtra? then 0 else 1)
       == c.capacity
    && s.count == |s.consumed| + s.canConsume
                  + (if s.producer.Posting? then 1 else 0) + (if s.consumer.Reading? then 1 else 0)
  }

  predicate Positions(c: Config, s: State) {
    && s.count == Before(c, s.at) + (if s.producer.Posting? then 1 else 0)
    && |s.consumed| == Before(c, s.from) + (if s.consumer.Freeing? then 1 else 0)
    && (if s.producer.Finished? then s.at == Position(c.rounds, 0) else s.at.round < c.rounds)
    && (if s.consumer.Gone? then s.from == Position(c.rounds, 0) else s.from.round < c.rounds)
    && (s.producer.TakingExtra? ==> s.count == 0)
  }

  /** The buffer holds the items that have been written and not yet read. */
  predicate Pending(c: Config, s: State)
    requires Shape(c, s)
  {
    && (forall j :: |s.consumed| <= j < s.count ==> s.buffer[Slot(c, j)] == j + 1)
    && forall j :: 0 <= j < |s.consumed| ==> s.consumed[j] == j + 1
  }

  predicate Inv(c: Config, s: State) {
    c.Valid() && Shape(c, s) && Permits(c, s) && Positions(c, s) && Pending(c, s)
  }

  lemma PositionsStep(c: Config, s: State, e: Event)
    requires Inv(c, s) && Enabled(c, s, e)
    ensures Positions(c, Apply(c, s, e))
  {
    hide Before, Pending;
    NextIsNext(c, s.at);
    NextIsNext(c, s.from);
  }

  /** What is written goes to a slot that holds no pending item; what is read is the oldest pending item. */
  lemma PendingStep(c: Config, s: State, e: Event)
    requires Inv(c, s) && Enabled(c, s, e)
    ensures Pending(c, Apply(c, s, e))
  {
    hide Before, Slot;
    var s' := Apply(c, s, e);
    SlotOfPosition(c, s.at);
    SlotOfPosition(c, s.from);
    if e.Produce? && s.producer.Writing? {
      forall j | |s.consumed| <= j < s.count ensures s'.buffer[Slot(c, j)] == j + 1 {
        SlotsDiffer(c, j, s.count);
      }
    }
  }

  lemma InvStep(c: Config, s: State, s': State)
    requires Inv(c, s) && Step(c, s, s')
    ensures Inv(c, s')
  {
    hide Positions, Pending;
    var e :| Enabled(c, s, e) && s' == Apply(c, s, e);
    PositionsStep(c, s, e);
    PendingStep(c, s, e);
  }

  // ---- The length of runs ----

  /** The number of steps to go. */
  function Rank(c: Config, s: State): int {
    3 * (c.Total() - s.count)
    + (match s.producer
       case TakingExtra => 1
       case AwaitingSpace => 0
       case Writing => -1
       case Posting => 1
       case Finished => 0)
    + 3 * (c.Total() - |s.consumed|)
    + match s.consumer
      case AwaitingItem => 0
      case Reading => -1
      case Freeing => 1
      case Gone => 0
  }

  function RunLength(c: Config): nat {
    6 * c.Total() + 1
  }

  lemma RankPositive(c: Config, s: State)
    requires Inv(c, s)
    ensures Rank(c, s) >= 0
    ensures Rank(c, s) == 0 <==> AllDone(s)
    ensures s.producer.Finished? <==> s.count == c.Total() && !s.producer.Posting?
    ensures s.consumer.Gone? <==> |s.consumed| == c.Total() && !s.consumer.Freeing?
  {
    hide Before;
    InRounds(c, s.at);
    InRounds(c, s.from);
    assert c.Total() >= 1;
  }

  lemma InvInit(c: Config, s: State)
    requires Init(c, s)
    ensures Inv(c, s) && Rank(c, s) == RunLength(c)
  {
  }

  lemma RankDrops(c: Config, s: State, s': State)
    requires Inv(c, s) && Step(c, s, s')
    ensures Rank(c, s') == Rank(c, s) - 1
  {
    hide Pending;
    InRounds(c, s.at);
    InRounds(c, s.from);
  }

  lemma {:induction false} RunInv(c: Config, run: seq<State>)
    requires IsRun(c, run)
    ensures forall i :: 0 <= i < |run| ==> Inv(c, run[i])
    ensures |run| - 1 + Rank(c, run[|run| - 1]) == RunLength(c)
  {
    hide Inv, Rank, Step;
    if |run| == 1 {
      InvInit(c, run[0]);
    } else {
      var n := |run| - 1;
      RunInv(c, run[..n]);
      assert Step(c, run[n - 1], run[n]);
      InvStep(c, run[n - 1], run[n]);
      RankDrops(c, run[n - 1], run[n]);
    }
  }

  // ---- Main results ----

  /**
   * In every interleaving the consumer reads 1, 2, 3, ... in order, at most capacity - 1 items are
   * pending, and a write goes to a slot whose last item has been read.
   */
  lemma ItemsInOrder(c: Config, run: seq<State>)
    requires IsRun(c, run)
    ensures var s := run[|run| - 1];
            && Shape(c, s) && (forall j :: 0 <= j < |s.consumed| ==> s.consumed[j] == j + 1)
            && |s.consumed| <= s.count <= |s.consumed| + c.capacity - 1
            && (s.producer.Writing? ==> s.at.index == s.count % c.capacity)
            && (s.producer.Writing? ==> forall j :: |s.consumed| <= j < s.count ==> Slot(c, j) != s.at.index)
            && (s.consumer.Reading? ==> s.from.index == |s.consumed| % c.capacity)
            && (s.consumer.Reading? ==> s.buffer[s.from.index] == |s.consumed| + 1)
  {
    hide Before;
    RunInv(c, run);
    var s := run[|run| - 1];
    SlotOfPosition(c, s.at);
    SlotOfPosition(c, s.from);
    if s.producer.Writing? {
      forall j | |s.consumed| <= j < s.count ensures Slot(c, j) != s.at.index {
        SlotsDiffer(c, j, s.count);
      }
    }
  }

  /** With at least two slots, a run that cannot go on has read everything; all these runs have one length. */
  lemma EverythingIsConsumed(c: Config, run: seq<State>)
    requires IsRun(c, run)
    ensures |run| - 1 <= 6 * (c.rounds * c.capacity) + 1
    ensures c.capacity >= 2 && Stuck(c, run[|run| - 1]) ==> AllDone(run[|run| - 1])
    ensures AllDone(run[|run| - 1]) ==>
              |run[|run| - 1].consumed| == c.rounds * c.capacity && |run| - 1 == 6 * (c.rounds * c.capacity) + 1
  {
    RunInv(c, run);
    var s := run[|run| - 1];
    RankPositive(c, s);
    if c.capacity >= 2 && Stuck(c, s) {
      assert !Enabled(c, s, Produce) && !Enabled(c, s, Consume);
    }
  }

  /** Runs that cannot go on are complete exactly when the buffer has at least two slots. */
  lemma CompletesExactly(c: Config)
    requires c.Valid()
    ensures (forall run :: IsRun(c, run) && Stuck(c, run[|run| - 1]) ==> AllDone(run[|run| - 1])) <==> c.capacity >= 2
  {
    if c.capacity >= 2 {
      forall run | IsRun(c, run) && Stuck(c, run[|run| - 1]) ensures AllDone(run[|run| - 1]) {
        EverythingIsConsumed(c, run);
      }
    } else {
      var s := State(1, 0, [0], TakingExtra, Position(0, 0), 0, AwaitingItem, Position(0, 0), []);
      assert Enabled(c, s, Produce);
      var run := [s, Apply(c, s, Produce)];
      assert Step(c, run[0], run[1]);
      assert IsRun(c, run) && Stuck(c, run[|run| - 1]) && !AllDone(run[|run| - 1]);
    }
  }
}
