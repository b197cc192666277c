/**
 * The runs of the cyclic network: how long they are, what is true in each of their states, and that the
 * detection of the end by two consecutive stops forgets nothing.
 */
module LossyRuns {
  import opened Messages
  import opened Sums
  import opened LossyCycle

  // ---- Counting stops ----

  lemma ThenStopHasOne(c: Config, q: seq<Message>)
    requires NearThenStop(c, q) || DataThenStop(c, q)
    ensures Total(q, IsStop) == 1
  {
    hide Total;
    var front := q[..|q| - 1];
    NoStops(front);
    TotalAppend(front, STOP, IsStop);
    assert front + [STOP] == q;
  }

  lemma StopsInQueues(c: Config, s: State, phase: Phase)
    requires PhaseInv(c, s, phase)
    ensures Total(s.dispQueue, IsStop) <= 1
    ensures !s.disp.Exited? ==> Total(s.asmQueue, IsStop) <= 1
    ensures !phase.Leaving? ==>
              Total(s.dispQueue, IsStop) + Total(s.asmQueue, IsStop)
              + (if s.disp.Stopping? then 1 else 0) + (if s.asm.Returning? then 1 else 0)
              == if s.producerDone then 1 else 0
  {
    hide Total, OneStop, NearThenStop, DataThenStop;
    var d, a := s.dispQueue, s.asmQueue;
    NoStops(d);
    NoStops(a);
    match phase {
      case Feeding =>
        if s.producerDone {
          OneStopHasOne(c, d);
        }
      case Back => ThenStopHasOne(c, d);
      case AtAsm1 => ThenStopHasOne(c, a);
      case _ =>
        LoadIsSize(d);
        LoadIsSize(a);
    }
  }

  // ---- A bound on every run ----

  /** Queue actions still ahead of a message: `far` for one that goes to the assembler first. */
  function Stage(c: Config, far: nat, near: nat): Message -> nat {
    (m: Message) => if m == STOP then 0 else if m.target == c.consumerCount + 1 then far else near
  }

  function DataRank(c: Config, s: State): int {
    8 * (c.packageCount - s.produced) + Total(s.dispQueue, Stage(c, 7, 3))
    + (if s.disp.Routing? then Stage(c, 6, 2)(s.disp.m) else 0)
    + Total(s.asmQueue, Stage(c, 5, 5)) + Stage(c, 4, 4)(AsmHand(s)) + Loads(s.consQueues, Stage(c, 1, 1))
  }

  /** Program points still ahead of the threads, were no more data to come. */
  function ThreadRank(c: Config, s: State): int {
    (if s.producerDone then 0 else 1)
    + (match s.disp
       case Receiving => c.consumerCount + (if s.dispStops == 0 then 8 else 6)
       case Routing(_) => c.consumerCount + (if s.dispStops == 0 then 8 else 6)
       case Stopping => c.consumerCount + (if s.dispStops == 0 then 7 else 5)
       case Broadcasting(key) => c.consumerCount + 2 - key
       case Exited => 0
       case Crashed(_) => 0)
    + (match s.asm
       case Collecting => if s.asmStops == 0 then 4 else 2
       case Working(_) => if s.asmStops == 0 then 4 else 2
       case Returning => if s.asmStops == 0 then 3 else 1
       case Gone => 0)
    + Total(s.consDone, Unfinished)
  }

  /** Data restarts the count of stops, but every move of data is worth more than that. */
  function Rank(c: Config, s: State): int {
    4 * DataRank(c, s) + ThreadRank(c, s)
  }

  lemma RankNotNegative(c: Config, s: State, phase: Phase)
    requires Inv(c, s, phase)
    ensures 0 <= Rank(c, s)
  {
  }

  /** The steps that move data on. */
  predicate MovesData(c: Config, s: State, e: Event)
    requires Shape(c, s) && Enabled(c, s, e)
  {
    match e
    case DispTake => s.dispQueue[0] != STOP
    case AsmTake => s.asmQueue[0] != STOP
    case Consume(i) => s.consQueues[i][0] != STOP
    case _ => e.Produce? || e.DispRoute? || e.AsmLose? || e.AsmForward?
  }

  lemma DataRankDispatcher(c: Config, s: State, e: Event)
    requires Shape(c, s) && Enabled(c, s, e)
    requires e.DispTake? || e.DispRoute? || e.DispReturnStop? || e.DispBroadcast?
    requires s.disp.Routing? ==> Data(c, s.disp.m)
    ensures DataRank(c, Apply(c, s, e)) <= DataRank(c, s) - (if MovesData(c, s, e) then 1 else 0)
  {
    hide Routes, Total, Loads;
    RoutesKeys(c);
    match e {
      case DispTake => TotalHead(s.dispQueue, Stage(c, 7, 3));
      case DispRoute =>
        var m := s.disp.m;
        if 1 <= m.target <= c.consumerCount {
          LoadsAppend(s.consQueues, m.target - 1, m, Stage(c, 1, 1));
        } else if m.target > 0 {
          TotalAppend(s.asmQueue, m, Stage(c, 5, 5));
        }
      case DispReturnStop => TotalAppend(s.asmQueue, STOP, Stage(c, 5, 5));
      case DispBroadcast =>
        if s.disp.key <= c.consumerCount {
          LoadsAppend(s.consQueues, s.disp.key - 1, STOP, Stage(c, 1, 1));
        } else {
          TotalAppend(s.asmQueue, STOP, Stage(c, 5, 5));
        }
    }
  }

  lemma DataRankOther(c: Config, s: State, e: Event)
    requires Shape(c, s) && Enabled(c, s, e)
    requires !(e.DispTake? || e.DispRoute? || e.DispReturnStop? || e.DispBroadcast?)
    requires s.asm.Working? ==> Data(c, s.asm.m)
    ensures DataRank(c, Apply(c, s, e)) <= DataRank(c, s) - (if MovesData(c, s, e) then 1 else 0)
  {
    hide Total, Loads;
    match e {
      case Produce(choice) => TotalAppend(s.dispQueue, Message(ProducerTarget(choice), 1, s.produced), Stage(c, 7, 3));
      case ProduceStop => TotalAppend(s.dispQueue, STOP, Stage(c, 7, 3));
      case AsmTake => TotalHead(s.asmQueue, Stage(c, 5, 5));
      case AsmLose =>
      case AsmForward(choice) => TotalAppend(s.dispQueue, s.asm.m.(target := Uint16(choice)), Stage(c, 7, 3));
      case AsmReturnStop => TotalAppend(s.dispQueue, STOP, Stage(c, 7, 3));
      case Consume(i) => LoadsTake(s.consQueues, i, Stage(c, 1, 1));
    }
  }

  lemma ThreadRankDispatcher(c: Config, s: State, phase: Phase, e: Event)
    requires Shape(c, s) && PhaseInv(c, s, phase) && Enabled(c, s, e)
    requires e.DispTake? || e.DispRoute? || e.DispReturnStop? || e.DispBroadcast?
    ensures ThreadRank(c, Apply(c, s, e)) <= ThreadRank(c, s) + (if MovesData(c, s, e) then 2 else -1)
  {
    hide Routes, Total, OneStop, NearThenStop, DataThenStop, AllNear;
    HandsHoldData(c, s, phase);
    RoutesKeys(c);
  }

  lemma ThreadRankOther(c: Config, s: State, phase: Phase, e: Event)
    requires Shape(c, s) && PhaseInv(c, s, phase) && Enabled(c, s, e)
    requires !(e.DispTake? || e.DispRoute? || e.DispReturnStop? || e.DispBroadcast?)
    ensures ThreadRank(c, Apply(c, s, e)) <= ThreadRank(c, s) + (if MovesData(c, s, e) then 2 else -1)
  {
    hide Routes, Room, Total, OneStop, NearThenStop, DataThenStop, AllNear, AllData;
    HandsHoldData(c, s, phase);
    if e.Consume? && s.consQueues[e.i][0] == STOP {
      TotalUpdate(s.consDone, e.i, true, Unfinished);
    }
  }

  lemma RankDrops(c: Config, s: State, phase: Phase, e: Event)
    requires Inv(c, s, phase) && Enabled(c, s, e)
    ensures Rank(c, Apply(c, s, e)) < Rank(c, s)
  {
    hide Apply, DataRank, ThreadRank, PhaseInv, ConsumerInv, Conserved, Routes;
    HandsHoldData(c, s, phase);
    if e.DispTake? || e.DispRoute? || e.DispReturnStop? || e.DispBroadcast? {
      DataRankDispatcher(c, s, e);
      ThreadRankDispatcher(c, s, phase, e);
    } else {
      DataRankOther(c, s, e);
      ThreadRankOther(c, s, phase, e);
    }
  }

  // ---- Main results, over every run ----

  lemma InitialRank(c: Config, s: State)
    requires Init(c, s)
    ensures Rank(c, s) == 32 * c.packageCount + 2 * c.consumerCount + 13
  {
    LoadsOfEmpty(s.consQueues, Stage(c, 1, 1));
    TotalConstant(s.consDone, Unfinished, 1);
  }

  lemma {:induction false} RunInv(c: Config, run: seq<State>) returns (phase: Phase)
    requires IsRun(c, run)
    ensures Inv(c, run[|run| - 1], phase)
    ensures |run| - 1 + Rank(c, run[|run| - 1]) <= Rank(c, run[0])
    decreases |run|
  {
    hide Inv, Init, Enabled, Apply, Rank;
    if |run| == 1 {
      InvInit(c, run[0]);
      phase := Feeding;
    } else {
      phase := RunInv(c, run[..|run| - 1]);
      var s, s' := run[|run| - 2], run[|run| - 1];
      assert Step(c, run[|run| - 2], run[|run| - 2 + 1]);
      var e :| Enabled(c, s, e) && s' == Apply(c, s, e);
      InvStep(c, s, phase, e);
      RankDrops(c, s, phase, e);
      phase := NextPhase(s, phase, e);
    }
  }

  lemma FinalState(c: Config, s: State, phase: Phase)
    requires Inv(c, s, phase) && AllDone(c, s)
    ensures AllStops(s.dispQueue) && AllStops(s.asmQueue)
    ensures forall i :: 0 <= i < c.consumerCount ==> s.consQueues[i] == []
    ensures forall i, m :: 0 <= i < c.consumerCount && m in s.received[i] ==> ForConsumer(m, i)
    ensures TotalSize(s.received) + |s.lost| == c.packageCount
    ensures forall k: nat :: Loads(s.received, HasNumber(k)) + Total(s.lost, HasNumber(k))
                             == if k < c.packageCount then 1 else 0
  {
    forall i | 0 <= i < c.consumerCount
      ensures s.consQueues[i] == [] && STOP !in s.received[i] && forall m :: m in s.received[i] ==> ForConsumer(m, i)
    {
      assert ConsumerInv(c, s, i);
    }
    NoStops(s.lost);
    LoadIsSize(s.lost);
    LoadsAreSize(s.received);
    OnlyStops(s.dispQueue, IsData);
    OnlyStops(s.asmQueue, IsData);
    LoadsOfEmpty(s.consQueues, IsData);
    forall k: nat
      ensures Loads(s.received, HasNumber(k)) + Total(s.lost, HasNumber(k)) == if k < c.packageCount then 1 else 0
    {
      OnlyStops(s.dispQueue, HasNumber(k));
      OnlyStops(s.asmQueue, HasNumber(k));
      LoadsOfEmpty(s.consQueues, HasNumber(k));
    }
  }

  /**
   * Termination detection loses nothing: once all threads have finished, no data message is left in
   * any queue, every message was consumed once by the consumer it was addressed to or lost once by
   * the assembler, and the counters the program prints add up to the number of packages.
   */
  lemma NothingIsForgotten(c: Config, run: seq<State>)
    requires IsRun(c, run)
    ensures Shape(c, run[|run| - 1])
    ensures AllDone(c, run[|run| - 1]) ==>
              var s := run[|run| - 1];
              && AllStops(s.dispQueue) && AllStops(s.asmQueue)
              && (forall i :: 0 <= i < c.consumerCount ==> s.consQueues[i] == [])
              && (forall i, m :: 0 <= i < c.consumerCount && m in s.received[i] ==> ForConsumer(m, i))
              && TotalSize(s.received) + |s.lost| == c.packageCount
              && forall k: nat :: Loads(s.received, HasNumber(k)) + Total(s.lost, HasNumber(k))
                                  == if k < c.packageCount then 1 else 0
  {
    var phase := RunInv(c, run);
    var s := run[|run| - 1];
    if AllDone(c, s) {
      FinalState(c, s, phase);
    }
  }

  /**
   * In every reachable state the dispatcher has found every key that fits 16 bits, and until it leaves its
   * loop exactly one stop token circulates once the producer has sent it.
   */
  lemma OneTokenCirculates(c: Config, run: seq<State>)
    requires IsRun(c, run)
    ensures var s := run[|run| - 1];
            && (c.Valid() ==> !s.disp.Crashed?)
            && (!s.disp.Broadcasting? && !s.disp.Exited? ==>
                  Total(s.dispQueue, IsStop) + Total(s.asmQueue, IsStop)
                  + (if s.disp.Stopping? then 1 else 0) + (if s.asm.Returning? then 1 else 0)
                  == if s.producerDone then 1 else 0)
  {
    var phase := RunInv(c, run);
    var s := run[|run| - 1];
    StopsInQueues(c, s, phase);
  }

  /** No run is longer than a bound in the numbers of packages and consumers. */
  lemma RunsAreBounded(c: Config, run: seq<State>)
    requires IsRun(c, run)
    ensures Shape(c, run[|run| - 1]) && |run| - 1 <= 32 * c.packageCount + 2 * c.consumerCount + 13
  {
    var phase := RunInv(c, run);
    RankNotNegative(c, run[|run| - 1], phase);
    InitialRank(c, run[0]);
  }

  // ---- A message that was sent back stays away from the assembler ----

  /** What is left of message number k is on its way to a consumer, or there. */
  ghost predicate Away(c: Config, s: State, k: nat) {
    && k < s.produced
    && (forall m :: m in s.dispQueue && m != STOP && m.number == k ==> Near(c, m))
    && (s.disp.Routing? && s.disp.m.number == k ==> Near(c, s.disp.m))
    && (forall m :: m in s.asmQueue && m != STOP ==> m.number != k)
    && (s.asm.Working? ==> s.asm.m.number != k)
  }

  lemma NumberIsElsewhere(q: seq<Message>, k: nat)
    requires Total(q, HasNumber(k)) == 0
    ensures forall m :: m in q && m != STOP ==> m.number != k
  {
    TotalZero(q, HasNumber(k));
    forall m | m in q && m != STOP ensures m.number != k {
      var i :| 0 <= i < |q| && q[i] == m;
      assert HasNumber(k)(q[i]) == 0;
    }
  }

  lemma PartsOfEverywhere(s: State, w: Message -> nat)
    ensures Total(s.dispQueue, w) + w(DispHand(s)) + Total(s.asmQueue, w) + w(AsmHand(s)) <= Everywhere(s, w)
  {
  }

  /** There is one message of each number, so when the assembler sends it back no other is about. */
  lemma SendingBackIsAway(c: Config, s: State, phase: Phase, choice: nat)
    requires Inv(c, s, phase) && Enabled(c, s, AsmForward(choice))
    ensures Away(c, Apply(c, s, AsmForward(choice)), s.asm.m.number)
  {
    hide ConsumerInv, Total, Loads, Everywhere;
    var k := s.asm.m.number;
    HandsHoldData(c, s, phase);
    PartsOfEverywhere(s, HasNumber(k));
    assert Everywhere(s, HasNumber(k)) == if k < s.produced then 1 else 0;
    NumberIsElsewhere(s.dispQueue, k);
    NumberIsElsewhere(s.asmQueue, k);
    assert Near(c, s.asm.m.(target := Uint16(choice)));
  }

  lemma AwayStep(c: Config, s: State, phase: Phase, e: Event, k: nat)
    requires Inv(c, s, phase) && Enabled(c, s, e) && Away(c, s, k)
    ensures Away(c, Apply(c, s, e), k)
  {
    hide ConsumerInv, Conserved, PhaseInv, Routes;
    HandsHoldData(c, s, phase);
    RoutesKeys(c);
    match e {
      case DispTake => TailMembers(s.dispQueue);
      case AsmTake => TailMembers(s.asmQueue);
      case DispReturnStop => ReturnStopEffect(c, s);
      case _ =>
    }
  }

  /** Once the assembler has sent a message back, neither its queue nor its hands ever see it again. */
  lemma {:induction false} SentBackStaysAway(c: Config, run: seq<State>, i: nat, choice: nat)
    requires IsRun(c, run) && i + 1 < |run| && Shape(c, run[i])
    requires Enabled(c, run[i], AsmForward(choice)) && run[i + 1] == Apply(c, run[i], AsmForward(choice))
    ensures var s := run[|run| - 1];
            && (forall m :: m in s.asmQueue && m != STOP ==> m.number != run[i].asm.m.number)
            && (s.asm.Working? ==> s.asm.m.number != run[i].asm.m.number)
    ensures Away(c, run[|run| - 1], run[i].asm.m.number)
  {
    hide Inv, Init, Apply;
    var front := run[..|run| - 1];
    var phase := RunInv(c, front);
    if i + 2 == |run| {
      SendingBackIsAway(c, run[i], phase, choice);
    } else {
      SentBackStaysAway(c, front, i, choice);
      var s, s' := run[|run| - 2], run[|run| - 1];
      assert Step(c, run[|run| - 2], run[|run| - 2 + 1]);
      var e :| Enabled(c, s, e) && s' == Apply(c, s, e);
      AwayStep(c, s, phase, e, run[i].asm.m.number);
    }
  }
}
