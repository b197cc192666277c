/**
 * How large the queues of the cyclic network must be: with too little room dispatcher and assembler wait
 * for each other forever, or the dispatcher for an assembler that has ended. With enough room every run
 * that cannot go on has ended all threads.
 */
module LossyCapacity {
  import opened Messages
  import opened Sums
  import opened LossyCycle
  import opened LossyRuns

  /** Two messages of room, and half as much as there are packages; one is enough when there are none. */
  predicate Spacious(c: Config) {
    if c.capacity >= 2 then c.packageCount <= 2 * c.capacity else c.capacity == 1 && c.packageCount == 0
  }

  /** Every message can be given a target, and every target has a key. */
  predicate Drawable(c: Config) {
    c.packageCount == 0 || 1 <= c.consumerCount <= 65534
  }

  // ---- Enough room ----

  /** Without packages nothing ever resets the count of stops, and the token goes round once only. */
  predicate QuietInv(s: State, phase: Phase) {
    match phase
    case Feeding => s.dispStops == 0
    case Held1 => s.dispStops == 0
    case AtAsm1 => s.dispStops == 1
    case AsmHeld1 => s.dispStops == 1
    case Back => s.dispStops == 1
    case Held2 => s.dispStops == 1
    case Leaving => s.disp.Broadcasting? && (s.asm.Returning? || s.asm.Gone?) ==> s.asmQueue == []
    case _ => false
  }

  /** Data messages in the loop of dispatcher and assembler are produced ones. */
  lemma LoopHoldsProduced(c: Config, s: State, phase: Phase)
    requires Inv(c, s, phase)
    ensures Total(s.dispQueue, IsData) + Total(s.asmQueue, IsData)
            + (if s.disp.Routing? then 1 else 0) + (if s.asm.Working? then 1 else 0) <= c.packageCount
  {
    hide ConsumerInv;
    HandsHoldData(c, s, phase);
  }

  lemma QuietStep(c: Config, s: State, phase: Phase, e: Event)
    requires Inv(c, s, phase) && Enabled(c, s, e) && c.packageCount == 0 && QuietInv(s, phase)
    ensures QuietInv(Apply(c, s, e), NextPhase(s, phase, e))
  {
    hide ConsumerInv, Conserved, Routes, Total;
    LoopHoldsProduced(c, s, phase);
    RoutesKeys(c);
    match e {
      case DispReturnStop => ReturnStopEffect(c, s);
      case DispBroadcast =>
        assert phase.Leaving?;
        assert s.disp.key <= c.consumerCount ==> Routes(c)[s.disp.key] == ToConsumer(s.disp.key - 1);
      case DispTake => assert s.dispQueue[0] in s.dispQueue;
      case AsmTake => assert |s.asmQueue| == 1 ==> s.asmQueue[1..] == [];
      case _ =>
    }
  }

  lemma QuietInit(c: Config, s: State)
    requires Init(c, s)
    ensures QuietInv(s, Feeding)
  {
  }

  lemma {:induction false} QuietRun(c: Config, run: seq<State>) returns (phase: Phase)
    requires IsRun(c, run) && c.packageCount == 0
    ensures Inv(c, run[|run| - 1], phase) && QuietInv(run[|run| - 1], phase)
    decreases |run|
  {
    hide Inv, Enabled, Apply, QuietInv;
    if |run| == 1 {
      InvInit(c, run[0]);
      phase := Feeding;
      QuietInit(c, run[0]);
    } else {
      phase := QuietRun(c, run[..|run| - 1]);
      var s, s' := run[|run| - 2], run[|run| - 1];
      assert Step(c, run[|run| - 2], run[|run| - 2 + 1]);
      var e :| Enabled(c, s, e) && s' == Apply(c, s, e);
      InvStep(c, s, phase, e);
      QuietStep(c, s, phase, e);
      phase := NextPhase(s, phase, e);
    }
  }

  /** In a stuck state the consumers have emptied their queues. */
  lemma ConsumersAreServed(c: Config, s: State, phase: Phase, i: nat)
    requires Inv(c, s, phase) && Stuck(c, s) && i < c.consumerCount
    ensures s.consQueues[i] == []
    ensures s.disp.Exited? ==> s.consDone[i]
  {
    assert !Enabled(c, s, Consume(i)) && ConsumerInv(c, s, i);
  }

  /** While data is around, dispatcher and assembler cannot both wait for room: there are too few messages. */
  lemma NotBothWait(c: Config, s: State, phase: Phase)
    requires Inv(c, s, phase) && !phase.Leaving? && c.packageCount <= 2 * c.capacity
    requires |s.dispQueue| >= c.capacity && |s.asmQueue| >= c.capacity
    ensures (s.disp.Routing? || s.disp.Stopping?) ==> !s.asm.Working? && !s.asm.Returning?
  {
    hide ConsumerInv, Conserved;
    LoopHoldsProduced(c, s, phase);
    StopsInQueues(c, s, phase);
    LoadIsSize(s.dispQueue);
    LoadIsSize(s.asmQueue);
  }

  /** When the dispatcher has nothing to take and the producer has ended, the assembler has something to do. */
  lemma TokenIsAtAssembler(c: Config, s: State, phase: Phase)
    requires Inv(c, s, phase) && !phase.Leaving? && s.disp.Receiving? && s.dispQueue == [] && s.producerDone
    ensures !s.asm.Gone? && (s.asm.Collecting? ==> s.asmQueue != [])
  {
    StopsInQueues(c, s, phase);
  }

  lemma AssemblerIsHere(c: Config, s: State, phase: Phase)
    requires Inv(c, s, phase) && !phase.Leaving? && (s.disp.Routing? || s.disp.Stopping?) && s.asmQueue != []
    ensures !s.asm.Gone?
  {
  }

  ghost predicate Moves(c: Config, s: State, e: Event)
    requires Shape(c, s)
  {
    Enabled(c, s, e) && !e.AsmLose?
  }

  lemma RoutingMoves(c: Config, s: State)
    requires c.Valid() && Shape(c, s) && DispatcherSane(c, s) && c.capacity >= 1
    requires (s.disp.Routing? || s.disp.Stopping?) && |s.asmQueue| < c.capacity
    requires forall i :: 0 <= i < c.consumerCount ==> s.consQueues[i] == []
    ensures exists e :: Moves(c, s, e)
  {
    hide Routes;
    RoutesKeys(c);
    if s.disp.Routing? {
      assert Moves(c, s, DispRoute);
    } else {
      assert Routes(c)[|Routes(c)|] == ToAssembler;
      assert Moves(c, s, DispReturnStop);
    }
  }

  lemma DispatcherIsInLoop(c: Config, s: State, phase: Phase)
    requires c.Valid() && PhaseInv(c, s, phase) && !phase.Leaving?
    ensures s.disp.Receiving? || s.disp.Routing? || s.disp.Stopping?
  {
  }

  /** Inside the loop somebody can move. */
  lemma LoopMoves(c: Config, s: State, phase: Phase)
    requires Inv(c, s, phase) && !phase.Leaving? && c.capacity >= 1 && c.packageCount <= 2 * c.capacity
    requires Drawable(c)
    requires forall i :: 0 <= i < c.consumerCount ==> s.consQueues[i] == []
    ensures exists e :: Moves(c, s, e)
  {
    hide PhaseInv, ConsumerInv, Conserved, Routes, DispatcherSane;
    HandsHoldData(c, s, phase);
    DispatcherIsInLoop(c, s, phase);
    if s.disp.Receiving? && s.dispQueue != [] {
      assert Moves(c, s, DispTake);
    } else if s.asm.Collecting? && s.asmQueue != [] {
      assert Moves(c, s, AsmTake);
    } else if s.asm.Working? && |s.dispQueue| < c.capacity {
      assert Moves(c, s, AsmForward(1));
    } else if s.asm.Returning? && |s.dispQueue| < c.capacity {
      assert Moves(c, s, AsmReturnStop);
    } else if s.disp.Receiving? && !s.producerDone {
      assert Moves(c, s, if s.produced < c.packageCount then Produce(0) else ProduceStop);
    } else if s.disp.Receiving? {
      TokenIsAtAssembler(c, s, phase);
    } else if |s.asmQueue| < c.capacity {
      RoutingMoves(c, s);
    } else {
      AssemblerIsHere(c, s, phase);
      NotBothWait(c, s, phase);
    }
  }

  /** After the loop, the broadcast goes on as long as the assembler's queue has room for its stops. */
  lemma BroadcastMoves(c: Config, s: State, phase: Phase)
    requires Inv(c, s, phase) && s.disp.Broadcasting? && c.capacity >= 1
    requires c.capacity >= 2 || QuietInv(s, phase)
    requires forall i :: 0 <= i < c.consumerCount ==> s.consQueues[i] == []
    ensures exists e :: Moves(c, s, e)
  {
    hide ConsumerInv, Conserved, Routes;
    RoutesKeys(c);
    assert phase.Leaving?;
    if s.disp.key <= c.consumerCount || |s.asmQueue| < c.capacity {
      assert Moves(c, s, DispBroadcast);
    } else {
      assert Moves(c, s, AsmTake);
    }
  }

  /** After the broadcast, the assembler takes its last token and ends. */
  lemma AssemblerEnds(c: Config, s: State, phase: Phase)
    requires Inv(c, s, phase) && s.disp.Exited? && !s.asm.Gone? && c.capacity >= 1
    ensures exists e :: Moves(c, s, e)
  {
    hide ConsumerInv, Conserved, Routes;
    assert phase.Leaving?;
    if s.asm.Collecting? {
      assert Moves(c, s, AsmTake);
    } else {
      assert Moves(c, s, AsmReturnStop);
    }
  }

  lemma LeavingFacts(c: Config, s: State, phase: Phase)
    requires Inv(c, s, phase) && phase.Leaving?
    ensures s.producerDone && (s.disp.Broadcasting? || s.disp.Exited?)
  {
  }

  /** With enough room, a run that cannot go on has ended all threads. */
  lemma SpaciousRunsEnd(c: Config, run: seq<State>)
    requires Spacious(c) && Drawable(c)
    requires IsRun(c, run) && Shape(c, run[|run| - 1]) && Stuck(c, run[|run| - 1])
    ensures AllDone(c, run[|run| - 1])
  {
    hide Inv, QuietInv, PhaseInv;
    var s := run[|run| - 1];
    var phase;
    if c.packageCount == 0 {
      phase := QuietRun(c, run);
    } else {
      phase := RunInv(c, run);
    }
    forall i | 0 <= i < c.consumerCount
      ensures s.consQueues[i] == [] && (s.disp.Exited? ==> s.consDone[i])
    {
      ConsumersAreServed(c, s, phase, i);
    }
    assert forall e :: !Moves(c, s, e);
    if !phase.Leaving? {
      LoopMoves(c, s, phase);
    } else {
      LeavingFacts(c, s, phase);
      if s.disp.Broadcasting? {
        BroadcastMoves(c, s, phase);
      } else if !s.asm.Gone? {
        AssemblerEnds(c, s, phase);
      }
    }
  }

  // ---- Too little room ----

  ghost predicate Reachable(c: Config, s: State) {
    exists run :: IsRun(c, run) && run[|run| - 1] == s
  }

  lemma ReachStep(c: Config, s: State, e: Event)
    requires Reachable(c, s) && Shape(c, s) && Enabled(c, s, e)
    ensures Reachable(c, Apply(c, s, e))
  {
    hide Apply, Enabled, Init;
    var run :| IsRun(c, run) && run[|run| - 1] == s;
    var longer := run + [Apply(c, s, e)];
    forall i | 0 <= i < |longer| - 1 ensures Step(c, longer[i], longer[i + 1]) {
      if i < |run| - 1 {
        assert Step(c, run[i], run[i + 1]);
      }
    }
    assert IsRun(c, longer);
  }

  ghost predicate Jam(c: Config, s: State) {
    Reachable(c, s) && Shape(c, s) && Stuck(c, s) && !AllDone(c, s)
  }

  /** A reachable state in which nothing moves although not all threads have ended. */
  ghost predicate Jams(c: Config) {
    exists s :: Jam(c, s)
  }

  function Start(c: Config): State {
    State(0, false, [], Receiving, 0, [], Collecting, 0, [],
          seq(c.consumerCount, _ => []), seq(c.consumerCount, _ => false), seq(c.consumerCount, _ => []), [], map[])
  }

  lemma StartIsReachable(c: Config)
    ensures Init(c, Start(c)) && Reachable(c, Start(c))
  {
    assert IsRun(c, [Start(c)]);
  }

  /** With no room at all nothing ever happens. */
  lemma NoRoomJams(c: Config)
    requires c.capacity == 0
    ensures Jams(c)
  {
    StartIsReachable(c);
    assert Jam(c, Start(c));
  }

  /** Nothing waits for the consumers, and the producer has not ended. */
  predicate Calm(c: Config, s: State) {
    && Shape(c, s) && !s.producerDone
    && forall i :: 0 <= i < c.consumerCount ==> s.consQueues[i] == [] && !s.consDone[i]
  }

  function Far(c: Config, number: nat): Message {
    Message(c.consumerCount + 1, 1, number)
  }

  /** The producer sends a message for the assembler. */
  lemma ProduceFar(c: Config, s: State) returns (s': State)
    requires c.Valid() && Reachable(c, s) && Shape(c, s) && s.produced < c.packageCount && |s.dispQueue| < c.capacity
    ensures Reachable(c, s')
    ensures s' == s.(produced := s.produced + 1, dispQueue := s.dispQueue + [Far(c, s.produced)],
                     drawn := s.drawn + [c.consumerCount])
  {
    ReachStep(c, s, Produce(c.consumerCount));
    s' := Apply(c, s, Produce(c.consumerCount));
  }

  /** The dispatcher takes the only message of its queue. */
  lemma TakeOnly(c: Config, s: State, m: Message) returns (s': State)
    requires Reachable(c, s) && Shape(c, s) && s.disp.Receiving? && s.dispQueue == [m]
    ensures Reachable(c, s')
    ensures s' == s.(dispQueue := [], disp := if m == STOP then Stopping else Routing(m))
  {
    ReachStep(c, s, DispTake);
    s' := Apply(c, s, DispTake);
    assert s.dispQueue[1..] == [];
  }

  lemma RouteFar(c: Config, s: State) returns (s': State)
    requires c.Valid() && Reachable(c, s) && Shape(c, s) && s.disp.Routing? && s.disp.m.target == c.consumerCount + 1
    requires |s.asmQueue| < c.capacity
    ensures Reachable(c, s') && s' == s.(asmQueue := s.asmQueue + [s.disp.m], disp := Receiving, dispStops := 0)
  {
    hide Routes;
    RoutesKeys(c);
    ReachStep(c, s, DispRoute);
    s' := Apply(c, s, DispRoute);
  }

  /** One message goes all the way to the assembler's queue. */
  lemma SendFar(c: Config, s: State) returns (s': State)
    requires c.Valid() && Reachable(c, s) && Shape(c, s) && s.produced < c.packageCount
    requires s.dispQueue == [] && s.disp.Receiving? && |s.asmQueue| < c.capacity
    ensures Reachable(c, s')
    ensures s' == s.(produced := s.produced + 1, asmQueue := s.asmQueue + [Far(c, s.produced)], dispStops := 0,
                     drawn := s.drawn + [c.consumerCount])
  {
    var m := Far(c, s.produced);
    s' := ProduceFar(c, s);
    assert s.dispQueue + [m] == [m];
    s' := TakeOnly(c, s', m);
    s' := RouteFar(c, s');
  }

  /** The assembler holds one message and has j more in its queue. */
  predicate Loaded(c: Config, s: State, j: nat) {
    Calm(c, s) && s.produced == j + 1 && s.dispQueue == [] && s.disp.Receiving? && s.asm.Working? && |s.asmQueue| == j
  }

  lemma {:induction false} LoadAssembler(c: Config, j: nat) returns (s: State)
    requires c.Valid() && j <= c.capacity && 1 <= c.capacity && j + 1 <= c.packageCount
    ensures Reachable(c, s) && Loaded(c, s, j)
  {
    if j == 0 {
      StartIsReachable(c);
      s := SendFar(c, Start(c));
      ReachStep(c, s, AsmTake);
      s := Apply(c, s, AsmTake);
    } else {
      s := LoadAssembler(c, j - 1);
      s := SendFar(c, s);
    }
  }

  /** The assembler's queue is full, the dispatcher waits for it, and its own queue holds k messages. */
  predicate Blocked(c: Config, s: State, k: nat) {
    && Shape(c, s) && (forall i :: 0 <= i < c.consumerCount ==> s.consQueues[i] == [] && !s.consDone[i])
    && s.disp.Routing? && s.disp.m.target == c.consumerCount + 1 && |s.asmQueue| == c.capacity && s.asm.Working?
    && |s.dispQueue| == k
  }

  lemma {:induction false} LoadDispatcher(c: Config, k: nat) returns (s: State)
    requires c.Valid() && 1 <= c.capacity && k <= c.capacity && c.capacity + 2 + k <= c.packageCount
    ensures Reachable(c, s) && Blocked(c, s, k) && s.produced == c.capacity + 2 + k && !s.producerDone
  {
    if k == 0 {
      s := LoadAssembler(c, c.capacity);
      var m := Far(c, s.produced);
      s := ProduceFar(c, s);
      s := TakeOnly(c, s, m);
    } else {
      s := LoadDispatcher(c, k - 1);
      s := ProduceFar(c, s);
    }
  }

  lemma BlockedJams(c: Config, s: State)
    requires c.Valid() && 1 <= c.capacity && Reachable(c, s) && Blocked(c, s, c.capacity)
    ensures Jam(c, s)
  {
    hide Routes, Reachable;
    RoutesKeys(c);
  }

  /** More packages than two queues and two hands can hold: everybody waits. */
  lemma CrowdJams(c: Config)
    requires c.Valid() && c.capacity >= 1 && c.packageCount > 2 * c.capacity
    ensures Jams(c)
  {
    var s;
    if c.packageCount >= 2 * c.capacity + 2 {
      s := LoadDispatcher(c, c.capacity);
    } else {
      s := LoadDispatcher(c, c.capacity - 1);
      ReachStep(c, s, ProduceStop);
      s := Apply(c, s, ProduceStop);
    }
    BlockedJams(c, s);
  }

  // ---- One slot: the last stop of the broadcast finds the queue of an assembler that has ended ----

  /** A message for the first consumer, from the dispatcher's queue to the consumer. */
  lemma HandOver(c: Config, s: State, m: Message) returns (s': State)
    requires c.Valid() && c.consumerCount >= 1 && c.capacity == 1 && Reachable(c, s) && Shape(c, s)
    requires s.disp.Receiving? && s.dispQueue == [m] && m != STOP && m.target == 1
    requires s.consQueues[0] == [] && !s.consDone[0]
    ensures Reachable(c, s')
    ensures s' == s.(dispQueue := [], dispStops := 0, received := s.received[0 := s.received[0] + [m]])
  {
    hide Routes, Reachable;
    RoutesKeys(c);
    s' := TakeOnly(c, s, m);
    ReachStep(c, s', DispRoute);
    s' := Apply(c, s', DispRoute);
    assert s'.consQueues[0] == [m];
    ReachStep(c, s', Consume(0));
    s' := Apply(c, s', Consume(0));
    assert s'.consQueues[0] == [];
    assert s'.consQueues == s.consQueues;
  }

  /** All packages but the last have gone to the first consumer. */
  predicate Idle(c: Config, s: State, j: nat) {
    && Calm(c, s) && s.produced == j && s.dispQueue == [] && s.disp.Receiving? && s.dispStops == 0
    && s.asmQueue == [] && s.asm.Collecting? && s.asmStops == 0
  }

  lemma {:induction false} ServeFirst(c: Config, j: nat) returns (s: State)
    requires c.Valid() && c.consumerCount >= 1 && c.capacity == 1 && j <= c.packageCount
    ensures Reachable(c, s) && Idle(c, s, j)
  {
    hide Routes, Reachable;
    if j == 0 {
      StartIsReachable(c);
      s := Start(c);
    } else {
      s := ServeFirst(c, j - 1);
      ReachStep(c, s, Produce(0));
      var m := Message(1, 1, s.produced);
      s := Apply(c, s, Produce(0));
      assert s.dispQueue == [m];
      s := HandOver(c, s, m);
    }
  }

  /** The dispatcher passes a stop token on to the assembler. */
  lemma PassToken(c: Config, s: State) returns (s': State)
    requires c.Valid() && c.consumerCount >= 1 && c.capacity == 1 && Reachable(c, s) && Shape(c, s)
    requires s.disp.Receiving? && s.dispQueue == [STOP] && s.asmQueue == []
    ensures Reachable(c, s')
    ensures s' == s.(dispQueue := [], asmQueue := [STOP], dispStops := s.dispStops + 1,
                     disp := if s.dispStops + 1 < 2 then Receiving else Broadcasting(1))
  {
    hide Routes, Reachable;
    s' := TakeOnly(c, s, STOP);
    RoutesKeys(c);
    assert Routes(c)[|Routes(c)|] == ToAssembler;
    ReachStep(c, s', DispReturnStop);
    ReturnStopEffect(c, s');
    s' := Apply(c, s', DispReturnStop);
  }

  /** The assembler returns a stop token. */
  lemma ReturnToken(c: Config, s: State) returns (s': State)
    requires c.Valid() && c.consumerCount >= 1 && c.capacity == 1 && Reachable(c, s) && Shape(c, s)
    requires s.asm.Collecting? && s.asmQueue == [STOP] && s.dispQueue == []
    ensures Reachable(c, s')
    ensures s' == s.(dispQueue := [STOP], asmQueue := [], asmStops := s.asmStops + 1,
                     asm := if s.asmStops + 1 < 2 then Collecting else Gone)
  {
    hide Reachable;
    ReachStep(c, s, AsmTake);
    s' := Apply(c, s, AsmTake);
    assert s'.asmQueue == [];
    ReachStep(c, s', AsmReturnStop);
    s' := Apply(c, s', AsmReturnStop);
  }

  /** The last package is with the assembler when the stop passes, and resets the dispatcher's count behind it. */
  lemma ResetBehindToken(c: Config) returns (s: State)
    requires c.Valid() && c.consumerCount >= 1 && c.capacity == 1 && c.packageCount >= 1
    ensures Reachable(c, s) && Shape(c, s) && s.producerDone && s.produced == c.packageCount
    ensures s.disp.Receiving? && s.dispQueue == [] && s.dispStops == 0
    ensures s.asm.Collecting? && s.asmQueue == [STOP] && s.asmStops == 0
    ensures forall i :: 0 <= i < c.consumerCount ==> s.consQueues[i] == [] && !s.consDone[i]
  {
    hide Routes, Reachable;
    s := ServeFirst(c, c.packageCount - 1);
    var m := Far(c, s.produced);
    s := SendFar(c, s);
    ReachStep(c, s, AsmTake);
    s := Apply(c, s, AsmTake);
    assert s.asmQueue == [];
    ReachStep(c, s, ProduceStop);
    s := Apply(c, s, ProduceStop);
    s := PassToken(c, s);
    ReachStep(c, s, AsmForward(1));
    s := Apply(c, s, AsmForward(1));
    s := HandOver(c, s, m.(target := 1));
  }

  /** The broadcast has served the consumers before `key`; nobody takes the stop that lies at the assembler. */
  predicate Broadcast(c: Config, s: State, key: nat) {
    && Shape(c, s) && s.producerDone && s.produced == c.packageCount && s.disp == Broadcasting(key)
    && s.asm.Gone? && s.asmQueue == [STOP]
    && forall i :: 0 <= i < c.consumerCount ==> s.consQueues[i] == [] && (s.consDone[i] <==> i + 1 < key)
  }

  /** The broadcast reaches a consumer. */
  lemma BroadcastEffect(c: Config, s: State, key: nat)
    requires Shape(c, s) && s.disp == Broadcasting(key) && 1 <= key <= c.consumerCount && c.capacity == 1
    requires s.consQueues[key - 1] == []
    ensures Enabled(c, s, DispBroadcast)
    ensures Apply(c, s, DispBroadcast)
         == s.(consQueues := s.consQueues[key - 1 := [STOP]], disp := Broadcasting(key + 1))
  {
    hide Routes;
    RoutesKeys(c);
    assert s.consQueues[key - 1] + [STOP] == [STOP];
  }

  lemma ServeStop(c: Config, s: State, key: nat) returns (s': State)
    requires c.Valid() && c.consumerCount >= 1 && c.capacity == 1
    requires Reachable(c, s) && Broadcast(c, s, key) && 1 <= key <= c.consumerCount
    ensures Reachable(c, s') && Broadcast(c, s', key + 1)
  {
    hide Routes, Reachable;
    BroadcastEffect(c, s, key);
    ReachStep(c, s, DispBroadcast);
    s' := s.(consQueues := s.consQueues[key - 1 := [STOP]], disp := Broadcasting(key + 1));
    ReachStep(c, s', Consume(key - 1));
    s' := Apply(c, s', Consume(key - 1));
    assert s'.consQueues[key - 1] == [];
  }

  lemma {:induction false} BroadcastUpTo(c: Config, key: nat) returns (s: State)
    requires c.Valid() && c.consumerCount >= 1 && c.capacity == 1 && c.packageCount >= 1
    requires 1 <= key <= c.consumerCount + 1
    ensures Reachable(c, s) && Broadcast(c, s, key)
  {
    hide Routes, Reachable;
    if key == 1 {
      s := ResetBehindToken(c);
      s := ReturnToken(c, s);
      s := PassToken(c, s);
      s := ReturnToken(c, s);
      s := PassToken(c, s);
    } else {
      s := BroadcastUpTo(c, key - 1);
      s := ServeStop(c, s, key - 1);
    }
  }

  lemma BroadcastJams(c: Config, s: State)
    requires c.Valid() && c.consumerCount >= 1 && c.capacity == 1
    requires Reachable(c, s) && Broadcast(c, s, c.consumerCount + 1)
    ensures Jam(c, s)
  {
    hide Routes, Reachable;
    RoutesKeys(c);
  }

  lemma OneSlotJams(c: Config)
    requires c.Valid() && c.consumerCount >= 1 && c.capacity == 1 && c.packageCount >= 1
    ensures Jams(c)
  {
    var s := BroadcastUpTo(c, c.consumerCount + 1);
    BroadcastJams(c, s);
  }

  // ---- Runs that fail without waiting ----

  /** The assembler has to draw a consumer where there are none. */
  predicate EmptyDraw(c: Config, s: State) {
    s.asm.Working? && c.consumerCount == 0
  }

  /** With packages and no consumers, the assembler is given a message to send back. */
  lemma NobodyToSendTo(c: Config) returns (s: State)
    requires c.packageCount >= 1 && c.consumerCount == 0 && c.capacity >= 1
    ensures Reachable(c, s) && EmptyDraw(c, s)
  {
    s := LoadAssembler(c, 0);
  }

  /** With more keys than 16 bits hold, a target can wrap to 0, for which there is no key. */
  lemma WrappedTargetCrashes(c: Config) returns (s: State)
    requires c.packageCount >= 1 && c.consumerCount + 1 > 65535 && c.capacity >= 1
    ensures Reachable(c, s) && s.disp.Crashed?
  {
    hide Routes, Reachable;
    RoutesKeys(c);
    StartIsReachable(c);
    var e := Produce(65535);
    ReachStep(c, Start(c), e);
    s := Apply(c, Start(c), e);
    var m := Message(0, 1, 0);
    assert s.dispQueue == [m];
    s := TakeOnly(c, s, m);
    ReachStep(c, s, DispRoute);
    s := Apply(c, s, DispRoute);
  }

  lemma NothingEnabled(c: Config, s: State)
    requires Init(c, s) && c.capacity == 0
    ensures forall s' :: !Step(c, s, s')
  {
  }

  /** Without room a run consists of its initial state. */
  lemma NoRoomNoStep(c: Config, run: seq<State>)
    requires IsRun(c, run) && c.capacity == 0
    ensures |run| == 1
  {
    hide Step;
    if |run| > 1 {
      assert Step(c, run[0], run[0 + 1]);
      NothingEnabled(c, run[0]);
    }
  }

  // ---- Main results ----

  /** The dispatcher can throw exactly when there are packages, room, and more keys than 16 bits hold. */
  lemma CrashesExactly(c: Config)
    ensures (exists s :: Reachable(c, s) && s.disp.Crashed?)
       <==> c.packageCount >= 1 && c.capacity >= 1 && c.consumerCount + 1 > 65535
  {
    if c.Valid() {
      forall s | Reachable(c, s) ensures !s.disp.Crashed? {
        var run :| IsRun(c, run) && run[|run| - 1] == s;
        OneTokenCirculates(c, run);
      }
    } else if c.capacity == 0 {
      forall s | Reachable(c, s) ensures !s.disp.Crashed? {
        var run :| IsRun(c, run) && run[|run| - 1] == s;
        NoRoomNoStep(c, run);
      }
    } else {
      var s := WrappedTargetCrashes(c);
    }
  }

  /** A thread throws, has nothing to draw from, or nothing moves although not all threads have ended. */
  ghost predicate Fails(c: Config, s: State)
    requires Shape(c, s)
  {
    s.disp.Crashed? || EmptyDraw(c, s) || (Stuck(c, s) && !AllDone(c, s))
  }

  lemma SpaciousNeverFails(c: Config, s: State)
    requires Spacious(c) && Drawable(c) && Reachable(c, s)
    ensures Shape(c, s) && !Fails(c, s)
  {
    hide Spacious;
    var run :| IsRun(c, run) && run[|run| - 1] == s;
    OneTokenCirculates(c, run);
    var phase := RunInv(c, run);
    LoopHoldsProduced(c, s, phase);
    if Stuck(c, s) {
      SpaciousRunsEnd(c, run);
    }
  }

  lemma NoPackagesSpacious(c: Config)
    requires c.packageCount == 0 && c.capacity >= 1
    ensures Spacious(c) && Drawable(c)
  {
  }

  lemma CrampedJams(c: Config)
    requires !Spacious(c) && c.capacity >= 1 && c.packageCount >= 1 && 1 <= c.consumerCount <= 65534
    ensures Jams(c)
  {
    if c.capacity == 1 {
      OneSlotJams(c);
    } else {
      CrowdJams(c);
    }
  }

  /**
   * No run fails, whatever is drawn and lost, exactly when the queues are spacious and every message can be
   * given a target with a key.
   */
  lemma NetworkEndsExactly(c: Config)
    ensures (forall s :: Reachable(c, s) ==> Shape(c, s) && !Fails(c, s)) <==> Spacious(c) && Drawable(c)
  {
    hide Stuck, AllDone, Spacious;
    if Spacious(c) && Drawable(c) {
      forall s | Reachable(c, s) ensures Shape(c, s) && !Fails(c, s) {
        SpaciousNeverFails(c, s);
      }
    } else if c.capacity == 0 {
      NoRoomJams(c);
    } else if c.packageCount == 0 {
      NoPackagesSpacious(c);
    } else if c.consumerCount == 0 {
      var s := NobodyToSendTo(c);
    } else if c.consumerCount > 65534 {
      var s := WrappedTargetCrashes(c);
    } else {
      CrampedJams(c);
    }
  }
}
