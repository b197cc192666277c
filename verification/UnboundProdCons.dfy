/**
 * Producers and consumers over an unbounded queue: producers claim unit numbers under a mutex, enqueue
 * them and post a semaphore; consumers claim the right to consume, wait on the semaphore and dequeue.
 * One step is one critical section, queue operation or semaphore operation of one thread.
 */
module UnboundProdCons {
  import opened Sums

  datatype Config = Config(units: nat, producers: nat, consumers: nat) {
    predicate Valid() {
      units >= 1 && producers >= 1 && consumers >= 1
    }
  }

  datatype ProducerPc = Claiming | Enqueueing(unit: nat) | Posting | Finished
  datatype ConsumerPc = Reserving | Awaiting | Dequeueing | Gone

  datatype State = State(
    nextUnit: nat, consumedCount: nat, canConsume: nat, queue: seq<nat>,
    producers: seq<ProducerPc>, consumers: seq<ConsumerPc>,
    enqueued: seq<nat>, consumed: seq<nat>)  // histories

  datatype Event = Produce(p: nat) | Consume(k: nat)

  predicate Shape(c: Config, s: State) {
    |s.producers| == c.producers && |s.consumers| == c.consumers
  }

  predicate Enabled(c: Config, s: State, e: Event)
    requires Shape(c, s)
  {
    match e
    case Produce(p) => p < c.producers && !s.producers[p].Finished?
    case Consume(k) =>
      k < c.consumers && !s.consumers[k].Gone? && (s.consumers[k].Awaiting? ==> s.canConsume > 0)
  }

  function Apply(c: Config, s: State, e: Event): (s': State)
    requires Shape(c, s) && Enabled(c, s, e)
    ensures Shape(c, s')
  {
    match e
    case Produce(p) => (
      match s.producers[p]
      case Claiming =>
        if s.nextUnit < c.units
        then s.(nextUnit := s.nextUnit + 1, producers := s.producers[p := Enqueueing(s.nextUnit + 1)])
        else s.(producers := s.producers[p := Finished])
      case Enqueueing(unit) =>
        s.(queue := s.queue + [unit], enqueued := s.enqueued + [unit], producers := s.producers[p := Posting])
      case Posting => s.(canConsume := s.canConsume + 1, producers := s.producers[p := Claiming]))
    case Consume(k) =>
      match s.consumers[k]
      case Reserving =>
        if s.consumedCount < c.units
        then s.(consumedCount := s.consumedCount + 1, consumers := s.consumers[k := Awaiting])
        else s.(consumers := s.consumers[k := Gone])
      case Awaiting => s.(canConsume := s.canConsume - 1, consumers := s.consumers[k := Dequeueing])
      case Dequeueing =>
        // a failed dequeue leaves the initial 0
        if s.queue == [] then s.(consumed := s.consumed + [0], consumers := s.consumers[k := Reserving])
        else s.(queue := s.queue[1..], consumed := s.consumed + [s.queue[0]], consumers := s.consumers[k := Reserving])
  }

  ghost predicate Step(c: Config, s: State, s': State) {
    Shape(c, s) && exists e :: Enabled(c, s, e) && s' == Apply(c, s, e)
  }

  predicate Init(c: Config, s: State) {
    && c.Valid() && Shape(c, s)
    && s.nextUnit == 0 && s.consumedCount == 0 && s.canConsume == 0
    && s.queue == [] && s.enqueued == [] && s.consumed == []
    && (forall p :: 0 <= p < c.producers ==> s.producers[p].Claiming?)
    && forall k :: 0 <= k < c.consumers ==> s.consumers[k].Reserving?
  }

  ghost predicate IsRun(c: Config, run: seq<State>) {
    && |run| > 0 && Init(c, run[0])
    && forall i :: 0 <= i < |run| - 1 ==> Step(c, run[i], run[i + 1])
  }

  ghost predicate Stuck(c: Config, s: State)
    requires Shape(c, s)
  {
    forall e :: !Enabled(c, s, e)
  }

  predicate AllDone(c: Config, s: State)
    requires Shape(c, s)
  {
    && (forall p :: 0 <= p < c.producers ==> s.producers[p].Finished?)
    && forall k :: 0 <= k < c.consumers ==> s.consumers[k].Gone?
  }

  // ---- The invariant ----

  function HasUnit(pc: ProducerPc): nat { if pc.Enqueueing? then 1 else 0 }
  function HasToPost(pc: ProducerPc): nat { if pc.Posting? then 1 else 0 }
  function HasReserved(pc: ConsumerPc): nat { if pc.Awaiting? || pc.Dequeueing? then 1 else 0 }
  function HasPermit(pc: ConsumerPc): nat { if pc.Dequeueing? then 1 else 0 }

  /** The producer holds this unit. */
  function Holds(unit: nat): ProducerPc -> nat {
    (pc: ProducerPc) => if pc == Enqueueing(unit) then 1 else 0
  }

  /** Counts occurrences of a unit. */
  function Is(unit: nat): nat -> nat {
    (x: nat) => if x == unit then 1 else 0
  }

  predicate Permits(s: State) {
    |s.queue| == s.canConsume + Total(s.producers, HasToPost) + Total(s.consumers, HasPermit)
  }

  predicate Claims(c: Config, s: State) {
    && s.nextUnit == |s.enqueued| + Total(s.producers, HasUnit) <= c.units
    && s.consumedCount == |s.consumed| + Total(s.consumers, HasReserved) <= c.units
    && s.enqueued == s.consumed + s.queue
  }

  /** Every claimed unit is with its producer or has been enqueued once. */
  predicate UnitInv(s: State, unit: nat) {
    Total(s.enqueued, Is(unit)) + Total(s.producers, Holds(unit)) == if 1 <= unit <= s.nextUnit then 1 else 0
  }

  ghost predicate Inv(c: Config, s: State) {
    && c.Valid() && Shape(c, s) && Permits(s) && Claims(c, s)
    && (forall unit: nat :: UnitInv(s, unit))
    && (forall p :: 0 <= p < c.producers && s.producers[p].Finished? ==> s.nextUnit == c.units)
    && forall k :: 0 <= k < c.consumers && s.consumers[k].Gone? ==> s.consumedCount == c.units
  }

  lemma InvInit(c: Config, s: State)
    requires Init(c, s)
    ensures Inv(c, s)
  {
    TotalZero(s.producers, HasUnit);
    TotalZero(s.producers, HasToPost);
    TotalZero(s.consumers, HasReserved);
    TotalZero(s.consumers, HasPermit);
    forall unit: nat ensures UnitInv(s, unit) {
      TotalZero(s.producers, Holds(unit));
    }
  }

  /** A consumer that has a permit finds an element. */
  lemma PermitHolds(c: Config, s: State, k: nat)
    requires Shape(c, s) && Permits(s) && k < c.consumers && s.consumers[k].Dequeueing?
    ensures s.queue != []
  {
    TotalAtLeast(s.consumers, k, HasPermit);
  }

  lemma ProducerStep(c: Config, s: State, p: nat)
    requires Inv(c, s) && Enabled(c, s, Produce(p))
    ensures Permits(Apply(c, s, Produce(p))) && Claims(c, Apply(c, s, Produce(p)))
  {
    hide UnitInv;
    var s' := Apply(c, s, Produce(p));
    var pc := s'.producers[p];
    assert s'.producers == s.producers[p := pc];
    TotalUpdate(s.producers, p, pc, HasUnit);
    TotalUpdate(s.producers, p, pc, HasToPost);
  }

  lemma ConsumerStep(c: Config, s: State, k: nat)
    requires Inv(c, s) && Enabled(c, s, Consume(k))
    ensures Permits(Apply(c, s, Consume(k))) && Claims(c, Apply(c, s, Consume(k)))
  {
    hide UnitInv;
    var s' := Apply(c, s, Consume(k));
    var pc := s'.consumers[k];
    assert s'.consumers == s.consumers[k := pc];
    TotalUpdate(s.consumers, k, pc, HasReserved);
    TotalUpdate(s.consumers, k, pc, HasPermit);
    if s.consumers[k].Dequeueing? {
      PermitHolds(c, s, k);
    }
  }

  lemma UnitStep(c: Config, s: State, e: Event, unit: nat)
    requires Shape(c, s) && Enabled(c, s, e) && UnitInv(s, unit)
    ensures UnitInv(Apply(c, s, e), unit)
  {
    var s' := Apply(c, s, e);
    if e.Produce? {
      var pc := s'.producers[e.p];
      assert s'.producers == s.producers[e.p := pc];
      TotalUpdate(s.producers, e.p, pc, Holds(unit));
      if s.producers[e.p].Enqueueing? {
        TotalAppend(s.enqueued, s.producers[e.p].unit, Is(unit));
      }
    }
  }

  lemma InvStep(c: Config, s: State, s': State)
    requires Inv(c, s) && Step(c, s, s')
    ensures Inv(c, s')
  {
    hide UnitInv, Permits;
    var e :| Enabled(c, s, e) && s' == Apply(c, s, e);
    match e {
      case Produce(p) => ProducerStep(c, s, p);
      case Consume(k) => ConsumerStep(c, s, k);
    }
    forall unit: nat ensures UnitInv(s', unit) {
      UnitStep(c, s, e, unit);
    }
  }

  // ---- Every step is one of a fixed number ----

  function ProducerRank(pc: ProducerPc): nat {
    match pc
    case Claiming => 1
    case Enqueueing(_) => 3
    case Posting => 2
    case Finished => 0
  }

  function ConsumerRank(pc: ConsumerPc): nat {
    match pc
    case Reserving => 1
    case Awaiting => 3
    case Dequeueing => 2
    case Gone => 0
  }

  /** The number of steps to go. */
  function Rank(c: Config, s: State): int {
    3 * (c.units - s.nextUnit) + Total(s.producers, ProducerRank)
    + 3 * (c.units - s.consumedCount) + Total(s.consumers, ConsumerRank)
  }

  lemma RankDrops(c: Config, s: State, s': State)
    requires Shape(c, s) && Step(c, s, s')
    ensures Rank(c, s') == Rank(c, s) - 1
  {
    var e :| Enabled(c, s, e) && s' == Apply(c, s, e);
    match e {
      case Produce(p) =>
        assert s'.producers == s.producers[p := s'.producers[p]];
        TotalUpdate(s.producers, p, s'.producers[p], ProducerRank);
      case Consume(k) =>
        assert s'.consumers == s.consumers[k := s'.consumers[k]];
        TotalUpdate(s.consumers, k, s'.consumers[k], ConsumerRank);
    }
  }

  function RunLength(c: Config): nat {
    6 * c.units + c.producers + c.consumers
  }

  lemma RankInit(c: Config, s: State)
    requires Init(c, s)
    ensures Rank(c, s) == RunLength(c)
  {
    TotalConstant(s.producers, ProducerRank, 1);
    TotalConstant(s.consumers, ConsumerRank, 1);
  }

  lemma {:induction false} RunInv(c: Config, run: seq<State>)
    requires IsRun(c, run)
    ensures forall i :: 0 <= i < |run| ==> Inv(c, run[i])
    ensures |run| - 1 + Rank(c, run[|run| - 1]) == RunLength(c)
  {
    hide Permits, Claims, UnitInv, Rank, Step, Apply;
    if |run| == 1 {
      InvInit(c, run[0]);
      RankInit(c, run[0]);
    } else {
      var n := |run| - 1;
      RunInv(c, run[..n]);
      assert Step(c, run[n - 1], run[n]);
      InvStep(c, run[n - 1], run[n]);
      RankDrops(c, run[n - 1], run[n]);
    }
  }

  // ---- Main results ----

  /** At every moment: whoever dequeues finds an element, and units leave the queue in the order they entered it. */
  lemma ConsumersFindUnits(c: Config, run: seq<State>)
    requires IsRun(c, run)
    ensures var s := run[|run| - 1];
            && (forall k :: 0 <= k < |s.consumers| && s.consumers[k].Dequeueing? ==> s.queue != [])
            && s.enqueued == s.consumed + s.queue
            && s.nextUnit <= c.units && s.consumedCount <= c.units
  {
    RunInv(c, run);
    var s := run[|run| - 1];
    forall k | 0 <= k < |s.consumers| && s.consumers[k].Dequeueing? ensures s.queue != [] {
      PermitHolds(c, s, k);
    }
  }

  /** When all have finished, the units 1 .. units have been consumed, each once, and nothing is left over. */
  lemma EveryUnitOnce(c: Config, run: seq<State>)
    requires IsRun(c, run) && Shape(c, run[|run| - 1]) && AllDone(c, run[|run| - 1])
    ensures var s := run[|run| - 1];
            && |s.consumed| == c.units && s.queue == [] && s.canConsume == 0
            && forall unit: nat :: Total(s.consumed, Is(unit)) == if 1 <= unit <= c.units then 1 else 0
  {
    RunInv(c, run);
    var s := run[|run| - 1];
    assert s.producers[0].Finished? && s.consumers[0].Gone?;
    TotalZero(s.consumers, HasReserved);
    TotalZero(s.producers, HasUnit);
    assert s.enqueued == s.consumed;
    forall unit: nat ensures Total(s.consumed, Is(unit)) == if 1 <= unit <= c.units then 1 else 0 {
      assert UnitInv(s, unit);
      TotalZero(s.producers, Holds(unit));
    }
  }

  lemma StuckIsDone(c: Config, s: State)
    requires Inv(c, s) && Stuck(c, s)
    ensures AllDone(c, s)
  {
    hide UnitInv;
    forall p | 0 <= p < c.producers ensures s.producers[p].Finished? {
      assert !Enabled(c, s, Produce(p));
    }
    assert s.producers[0].Finished?;
    TotalZero(s.producers, HasUnit);
    TotalZero(s.producers, HasToPost);
    forall k | 0 <= k < c.consumers ensures s.consumers[k].Gone? || (s.consumers[k].Awaiting? && s.canConsume == 0) {
      assert !Enabled(c, s, Consume(k));
    }
    TotalZero(s.consumers, HasPermit);
    forall k | 0 <= k < c.consumers ensures s.consumers[k].Gone? {
      TotalAtLeast(s.consumers, k, HasReserved);
    }
  }

  /** Every run that cannot go on has all threads finished, and all those runs have the same length. */
  lemma EveryoneFinishes(c: Config, run: seq<State>)
    requires IsRun(c, run)
    ensures Shape(c, run[|run| - 1]) && |run| - 1 <= 6 * c.units + c.producers + c.consumers
    ensures Stuck(c, run[|run| - 1]) <==> AllDone(c, run[|run| - 1])
    ensures AllDone(c, run[|run| - 1]) <==> |run| - 1 == 6 * c.units + c.producers + c.consumers
  {
    RunInv(c, run);
    var s := run[|run| - 1];
    TotalZero(s.producers, ProducerRank);
    TotalZero(s.consumers, ConsumerRank);
    if Stuck(c, s) {
      StuckIsDone(c, s);
    }
    if AllDone(c, s) {
      assert s.producers[0].Finished? && s.consumers[0].Gone?;
    }
  }
}
