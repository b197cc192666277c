/**
 * The threads of the cyclic network as they call the queues: every queue action passes through the
 * semaphores, step by step, and what was proved of the network with atomic queues carries over.
 */
module LossyThreads {
  import opened Messages
  import opened Options
  import opened LossyCycle
  import opened LossyRuns
  import opened LossyCapacity
  import Q = SemaphoreQueue
  import N = QueueNetwork

  /** What the variables of a thread hold; the program shares none but the queues. */
  datatype Local =
    | Producer(produced: nat, ended: bool)
    | Dispatcher(disp: DispPc, dispStops: nat)
    | Assembler(asm: AsmPc, asmStops: nat, lost: seq<Message>)
    | Consumer(index: nat, done: bool, received: seq<Message>)

  // The threads: the producer, the dispatcher, the assembler, and then the consumers
  const PRODUCER: nat := 0
  const DISPATCHER: nat := 1
  const ASSEMBLER: nat := 2
  const CONSUMERS: nat := 3

  // The queues: that of the dispatcher, that of the assembler, and those of the consumers
  const DISP: nat := 0
  const ASM: nat := 1
  const CONS: nat := 2

  function QueueOf(d: Destination): nat {
    match d
    case ToConsumer(i) => CONS + i
    case ToAssembler => ASM
  }

  /** The queue of a key, if it has one. */
  function PutTo(c: Config, key: nat): N.Want {
    if key in Routes(c) then N.Put(QueueOf(Routes(c)[key])) else N.Nothing
  }

  function Wants(c: Config, l: Local): N.Want {
    match l
    case Producer(produced, ended) =>
      if produced < c.packageCount || (produced == c.packageCount && !ended) then N.Put(DISP) else N.Nothing
    case Dispatcher(pc, _) =>
      (match pc
       case Receiving => N.Take(DISP)
       case Routing(m) => PutTo(c, m.target)
       case Stopping => PutTo(c, |Routes(c)|)
       case Broadcasting(key) => PutTo(c, key)
       case _ => N.Nothing)
    case Assembler(pc, _, _) =>
      if pc.Collecting? then N.Take(ASM) else if pc.Gone? then N.Nothing else N.Put(DISP)
    case Consumer(i, done, _) => if done then N.Nothing else N.Take(CONS + i)
  }

  /** The producer and the assembler draw a target. */
  function Sends(c: Config, l: Local, choice: nat): Option<Message> {
    match l
    case Producer(produced, _) =>
      if produced == c.packageCount then Some(STOP)
      else if choice <= c.consumerCount then Some(Message(ProducerTarget(choice), 1, produced))
      else None
    case Dispatcher(pc, _) => Some(if pc.Routing? then pc.m else STOP)
    case Assembler(pc, _, _) =>
      if !pc.Working? then Some(STOP)
      else if 1 <= choice <= c.consumerCount then Some(pc.m.(target := Uint16(choice)))
      else None
    case Consumer(_, _, _) => None
  }

  /** The queue action of a thread has returned. */
  function After(c: Config, l: Local, op: Q.Op): Local {
    match l
    case Producer(produced, ended) =>
      if produced == c.packageCount then Producer(produced, true) else Producer(produced + 1, ended)
    case Dispatcher(pc, stops) =>
      (match pc
       case Receiving => Dispatcher(if op.value == STOP then Stopping else Routing(op.value), stops)
       case Routing(_) => Dispatcher(Receiving, 0)
       case Stopping => Dispatcher(if stops + 1 < 2 then Receiving else Broadcasting(1), stops + 1)
       case Broadcasting(key) => Dispatcher(if key + 1 in Routes(c) then Broadcasting(key + 1) else Exited, stops)
       case _ => l)
    case Assembler(pc, stops, lost) =>
      if pc.Collecting? then
        if op.value == STOP then Assembler(Returning, stops, lost) else Assembler(Working(op.value), 0, lost)
      else if pc.Working? then Assembler(Collecting, stops, lost)
      else Assembler(if stops + 1 < 2 then Collecting else Gone, stops + 1, lost)
    case Consumer(i, done, received) =>
      if op.value == STOP then Consumer(i, true, received) else Consumer(i, done, received + [op.value])
  }

  /** A message is lost, or a key is missing. */
  function Inner(c: Config, l: Local): Option<((), Local)> {
    match l
    case Assembler(pc, stops, lost) =>
      if pc.Working? then Some(((), Assembler(Collecting, stops, lost + [pc.m]))) else None
    case Dispatcher(pc, stops) =>
      if pc.Routing? && pc.m.target !in Routes(c) then Some(((), Dispatcher(Crashed(pc.m), stops))) else None
    case _ => None
  }

  function Code(c: Config): N.Program<(), Local> {
    N.Program(l => Wants(c, l), (l, choice) => Sends(c, l, choice), (l, op) => After(c, l, op),
              (_, l, _) => Inner(c, l))
  }

  function ConsumerAt(c: Config, locals: seq<Local>, i: nat): Local
    requires |locals| == CONSUMERS + c.consumerCount && i < c.consumerCount
  {
    locals[CONSUMERS + i]
  }

  /** All threads before their first step; a queue for the dispatcher, the assembler and each consumer. */
  predicate Starts(c: Config, s: N.State<(), Local>) {
    && |s.locals| == CONSUMERS + c.consumerCount && |s.queues| == CONS + c.consumerCount
    && s.locals[PRODUCER] == Producer(0, false)
    && s.locals[DISPATCHER] == Dispatcher(Receiving, 0)
    && s.locals[ASSEMBLER] == Assembler(Collecting, 0, [])
    && forall i :: 0 <= i < c.consumerCount ==> ConsumerAt(c, s.locals, i) == Consumer(i, false, [])
  }

  ghost predicate IsThreadRun(c: Config, run: seq<N.State<(), Local>>) {
    N.IsRun(Code(c), c.capacity, run) && Starts(c, run[0])
  }

  // ---- The network with atomic queues is the cyclic network ----

  predicate Mirrors(c: Config, n: N.Atomic<(), Local>, s: State) {
    && Shape(c, s) && |n.locals| == CONSUMERS + c.consumerCount && |n.queues| == CONS + c.consumerCount
    && n.queues[DISP] == s.dispQueue && n.queues[ASM] == s.asmQueue
    && (forall i :: 0 <= i < c.consumerCount ==> n.queues[CONS + i] == s.consQueues[i])
    && n.locals[PRODUCER] == Producer(s.produced, s.producerDone)
    && n.locals[DISPATCHER] == Dispatcher(s.disp, s.dispStops)
    && n.locals[ASSEMBLER] == Assembler(s.asm, s.asmStops, s.lost)
    && forall i :: 0 <= i < c.consumerCount ==>
                     ConsumerAt(c, n.locals, i) == Consumer(i, s.consDone[i], s.received[i])
  }

  function EventOf(c: Config, s: State, a: N.Action): Event {
    if a.t == PRODUCER then if s.produced == c.packageCount then ProduceStop else Produce(a.choice)
    else if a.t == DISPATCHER then
      if a.Inner? || s.disp.Routing? then DispRoute
      else if s.disp.Receiving? then DispTake
      else if s.disp.Stopping? then DispReturnStop
      else DispBroadcast
    else if a.t == ASSEMBLER then
      if a.Inner? then AsmLose
      else if s.asm.Collecting? then AsmTake
      else if s.asm.Working? then AsmForward(a.choice)
      else AsmReturnStop
    else Consume(a.t - CONSUMERS)
  }

  ghost predicate Follows(c: Config, n: N.Atomic<(), Local>, s: State, a: N.Action)
    requires Mirrors(c, n, s) && N.AtomicEnabled(Code(c), c.capacity, n, a)
  {
    var e := EventOf(c, s, a);
    Enabled(c, s, e) && Mirrors(c, N.AtomicApply(Code(c), c.capacity, n, a), Apply(c, s, e))
  }

  lemma ProducerFollows(c: Config, n: N.Atomic<(), Local>, s: State, a: N.Action)
    requires Mirrors(c, n, s) && N.AtomicEnabled(Code(c), c.capacity, n, a) && a.t == PRODUCER
    ensures Follows(c, n, s, a)
  {
    hide Routes;
  }

  lemma DispatcherTakes(c: Config, n: N.Atomic<(), Local>, s: State, a: N.Action)
    requires Mirrors(c, n, s) && N.AtomicEnabled(Code(c), c.capacity, n, a) && a.t == DISPATCHER
    requires s.disp.Receiving?
    ensures Follows(c, n, s, a)
  {
    hide Routes, Room;
  }

  lemma DispatcherRoutes(c: Config, n: N.Atomic<(), Local>, s: State, a: N.Action)
    requires Mirrors(c, n, s) && N.AtomicEnabled(Code(c), c.capacity, n, a) && a.t == DISPATCHER
    requires s.disp.Routing?
    ensures Follows(c, n, s, a)
  {
    hide Routes;
    RoutesKeys(c);
  }

  lemma DispatcherStops(c: Config, n: N.Atomic<(), Local>, s: State, a: N.Action)
    requires Mirrors(c, n, s) && N.AtomicEnabled(Code(c), c.capacity, n, a) && a.t == DISPATCHER
    requires s.disp.Stopping? || s.disp.Broadcasting?
    ensures Follows(c, n, s, a)
  {
    hide Routes;
    RoutesKeys(c);
  }

  lemma DispatcherFollows(c: Config, n: N.Atomic<(), Local>, s: State, a: N.Action)
    requires Mirrors(c, n, s) && N.AtomicEnabled(Code(c), c.capacity, n, a) && a.t == DISPATCHER
    ensures Follows(c, n, s, a)
  {
    hide Follows, Routes;
    if s.disp.Receiving? {
      DispatcherTakes(c, n, s, a);
    } else if s.disp.Routing? {
      DispatcherRoutes(c, n, s, a);
    } else {
      DispatcherStops(c, n, s, a);
    }
  }

  lemma AssemblerFollows(c: Config, n: N.Atomic<(), Local>, s: State, a: N.Action)
    requires Mirrors(c, n, s) && N.AtomicEnabled(Code(c), c.capacity, n, a) && a.t == ASSEMBLER
    ensures Follows(c, n, s, a)
  {
    hide Routes;
  }

  lemma ConsumerFollows(c: Config, n: N.Atomic<(), Local>, s: State, a: N.Action)
    requires Mirrors(c, n, s) && N.AtomicEnabled(Code(c), c.capacity, n, a) && a.t >= CONSUMERS
    ensures Follows(c, n, s, a)
  {
    hide Routes;
    var i := a.t - CONSUMERS;
    assert ConsumerAt(c, n.locals, i) == Consumer(i, s.consDone[i], s.received[i]);
  }

  /** What a thread does with atomic queues is an event of the cyclic network. */
  lemma ActionFollows(c: Config, n: N.Atomic<(), Local>, s: State, a: N.Action)
    requires Mirrors(c, n, s) && N.AtomicEnabled(Code(c), c.capacity, n, a)
    ensures Shape(c, s) && Follows(c, n, s, a)
  {
    hide N.AtomicApply, Follows, Routes;
    if a.t == PRODUCER {
      ProducerFollows(c, n, s, a);
    } else if a.t == DISPATCHER {
      DispatcherFollows(c, n, s, a);
    } else if a.t == ASSEMBLER {
      AssemblerFollows(c, n, s, a);
    } else {
      ConsumerFollows(c, n, s, a);
    }
  }

  /** What the threads with atomic queues do is a run of the cyclic network. */
  lemma {:induction false} RunMirrors(c: Config, atomic: seq<N.Atomic<(), Local>>) returns (run: seq<State>)
    requires N.IsAtomicRun(Code(c), c.capacity, atomic) && Mirrors(c, atomic[0], Start(c))
    ensures IsRun(c, run) && |run| == |atomic| && Mirrors(c, atomic[|atomic| - 1], run[|run| - 1])
    decreases |atomic|
  {
    hide Mirrors, N.AtomicApply, N.AtomicEnabled, Enabled, Apply, Reachable;
    if |atomic| == 1 {
      StartIsReachable(c);
      run := [Start(c)];
    } else {
      var n, n' := atomic[|atomic| - 2], atomic[|atomic| - 1];
      var before := RunMirrors(c, atomic[..|atomic| - 1]);
      var s := before[|before| - 1];
      assert N.AtomicStep(Code(c), c.capacity, atomic[|atomic| - 2], atomic[|atomic| - 2 + 1]);
      var a :| N.AtomicEnabled(Code(c), c.capacity, n, a) && n' == N.AtomicApply(Code(c), c.capacity, n, a);
      ActionFollows(c, n, s, a);
      var s' := Apply(c, s, EventOf(c, s, a));
      assert Step(c, s, s');
      run := before + [s'];
      forall i | 0 <= i < |run| - 1 ensures Step(c, run[i], run[i + 1]) {
        if i < |before| - 1 {
          assert Step(c, before[i], before[i + 1]);
        }
      }
    }
  }

  lemma StartMirrors(c: Config, s: N.State<(), Local>)
    requires N.Init(c.capacity, s) && Starts(c, s)
    ensures Mirrors(c, N.Abs(Code(c), s), Start(c))
  {
    hide Q.Fifo;
  }

  /** Which action of a thread an event is. */
  function ActionOf(c: Config, s: State, e: Event): N.Action {
    match e
    case Produce(choice) => N.Act(PRODUCER, choice)
    case ProduceStop => N.Act(PRODUCER, 0)
    case DispTake => N.Act(DISPATCHER, 0)
    case DispRoute =>
      if s.disp.Routing? && s.disp.m.target !in Routes(c) then N.Inner(DISPATCHER, 0) else N.Act(DISPATCHER, 0)
    case DispReturnStop => N.Act(DISPATCHER, 0)
    case DispBroadcast => N.Act(DISPATCHER, 0)
    case AsmTake => N.Act(ASSEMBLER, 0)
    case AsmLose => N.Inner(ASSEMBLER, 0)
    case AsmForward(choice) => N.Act(ASSEMBLER, choice)
    case AsmReturnStop => N.Act(ASSEMBLER, 0)
    case Consume(i) => N.Act(CONSUMERS + i, 0)
  }

  /** Only the assembler chooses between a queue action and another step. */
  lemma EventIsAction(c: Config, n: N.Atomic<(), Local>, s: State, e: Event)
    requires Mirrors(c, n, s) && Enabled(c, s, e)
    ensures var a := ActionOf(c, s, e);
            && N.AtomicEnabled(Code(c), c.capacity, n, a)
            && (a.Inner? && !e.AsmLose? ==> Code(c).wants(n.locals[a.t]).Nothing?)
  {
    hide Routes;
  }

  lemma MirrorsShape(c: Config, n: N.Atomic<(), Local>, s: State)
    requires Mirrors(c, n, s)
    ensures Shape(c, s)
  {
  }

  lemma StuckMirrors(c: Config, n: N.Atomic<(), Local>, s: State)
    requires Mirrors(c, n, s) && N.AtomicStuck(Code(c), c.capacity, n)
    ensures Shape(c, s) && Stuck(c, s)
  {
    hide Mirrors, Enabled, N.AtomicEnabled, Routes;
    MirrorsShape(c, n, s);
    forall e | Enabled(c, s, e) ensures e.AsmLose? {
      EventIsAction(c, n, s, e);
    }
  }

  // ---- Main results ----

  /** Every run of the threads through the semaphores is a run of the cyclic network. */
  lemma ThreadsRefineNetwork(c: Config, run: seq<N.State<(), Local>>) returns (atomic: seq<State>)
    requires IsThreadRun(c, run)
    ensures N.Shape(run[|run| - 1]) && N.Inv(Code(c), c.capacity, run[|run| - 1]) && IsRun(c, atomic)
    ensures Mirrors(c, N.Abs(Code(c), run[|run| - 1]), atomic[|atomic| - 1])
    ensures |run| - 1 <= 7 * (|atomic| - 1) + 5 * (CONSUMERS + c.consumerCount)
  {
    hide Mirrors, N.Init, N.Abs, N.Pcs, N.Ahead, IsRun;
    var seen := N.NetworkRefines(Code(c), c.capacity, run);
    StartMirrors(c, run[0]);
    atomic := RunMirrors(c, seen);
  }

  /** The received messages of each consumer. */
  function Received(c: Config, locals: seq<Local>): seq<seq<Message>>
    requires |locals| == CONSUMERS + c.consumerCount
  {
    seq(c.consumerCount, i requires 0 <= i < c.consumerCount =>
          if ConsumerAt(c, locals, i).Consumer? then ConsumerAt(c, locals, i).received else [])
  }

  /** All threads have ended, and what the consumers have received and the assembler lost makes up the packages. */
  predicate Ended(c: Config, locals: seq<Local>) {
    && |locals| == CONSUMERS + c.consumerCount
    && locals[PRODUCER].Producer? && locals[PRODUCER].ended
    && locals[DISPATCHER].Dispatcher? && locals[DISPATCHER].disp.Exited?
    && locals[ASSEMBLER].Assembler? && locals[ASSEMBLER].asm.Gone?
    && (forall i :: 0 <= i < c.consumerCount ==> ConsumerAt(c, locals, i).Consumer? && ConsumerAt(c, locals, i).done)
    && TotalSize(Received(c, locals)) + |locals[ASSEMBLER].lost| == c.packageCount
  }

  lemma MirroredEnd(c: Config, n: N.Atomic<(), Local>, s: State)
    requires Mirrors(c, n, s) && AllDone(c, s) && TotalSize(s.received) + |s.lost| == c.packageCount
    ensures Ended(c, n.locals)
  {
    assert Received(c, n.locals) == s.received;
  }

  /**
   * Through the semaphores too, every run is bounded; and with spacious queues and a key for every target, no
   * thread waits forever: a state in which none can move is one in which all have ended, and no message is
   * missing.
   */
  lemma ThreadsEnd(c: Config, run: seq<N.State<(), Local>>)
    requires IsThreadRun(c, run)
    ensures |run| - 1 <= 224 * c.packageCount + 19 * c.consumerCount + 106
    ensures N.Shape(run[|run| - 1])
    ensures Spacious(c) && Drawable(c) && N.Stuck(Code(c), run[|run| - 1]) ==> Ended(c, run[|run| - 1].locals)
  {
    hide Mirrors, Stuck, AllDone, Spacious, N.Inv, N.AtomicStuck;
    var atomic := ThreadsRefineNetwork(c, run);
    RunsAreBounded(c, atomic);
    NothingIsForgotten(c, atomic);
    var s, n := run[|run| - 1], N.Abs(Code(c), run[|run| - 1]);
    if Spacious(c) && Drawable(c) && N.Stuck(Code(c), s) {
      N.StuckOnlyWhereAtomic(Code(c), c.capacity, s);
      StuckMirrors(c, n, atomic[|atomic| - 1]);
      SpaciousRunsEnd(c, atomic);
      MirroredEnd(c, n, atomic[|atomic| - 1]);
    }
  }
}
