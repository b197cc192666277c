/**
 * The threads of the bounded network as they call the queues: every queue action passes through the
 * semaphores, step by step, and what was proved of the network with atomic queues carries over.
 */
module BoundThreads {
  import opened Messages
  import opened Options
  import opened BoundPipeline
  import Q = SemaphoreQueue
  import N = QueueNetwork

  /** What the variables of a thread hold. */
  datatype Local =
    | Producer(producer: ProducerPc)
    | Assembler(asm: AsmPc, lost: seq<Message>)
    | Dispatcher(disp: DispPc)
    | Consumer(index: nat, done: bool, received: seq<Message>)

  // The queues: that of the assembler, that of the dispatcher, and those of the consumers
  const ASM: nat := 0
  const DISP: nat := 1
  const CONS: nat := 2

  function Wants(c: Config, l: Local): N.Want {
    match l
    case Producer(pc) => if pc.Holding? || pc.HoldingStop? then N.Put(ASM) else N.Nothing
    case Assembler(pc, _) =>
      if pc.Collecting? then N.Take(ASM) else if pc.Gone? then N.Nothing else N.Put(DISP)
    case Dispatcher(pc) =>
      (match pc
       case Receiving => N.Take(DISP)
       case Routing(m) => if Registered(c, m.target) then N.Put(CONS + m.target - 1) else N.Nothing
       case Broadcasting(key) => if Registered(c, key) then N.Put(CONS + key - 1) else N.Nothing
       case _ => N.Nothing)
    case Consumer(i, done, _) => if done then N.Nothing else N.Take(CONS + i)
  }

  function Sends(l: Local): Option<Message> {
    match l
    case Producer(pc) => Some(Held(pc))
    case Assembler(pc, _) => Some(if pc.Working? then pc.m else STOP)
    case Dispatcher(pc) => Some(if pc.Routing? then pc.m else STOP)
    case Consumer(_, _, _) => None
  }

  /** The queue action of a thread has returned. */
  function After(c: Config, l: Local, op: Q.Op): Local {
    match l
    case Producer(pc) => Producer(if pc.Holding? then Drawing else Finished)
    case Assembler(pc, lost) =>
      Assembler(if pc.Collecting? then (if op.value == STOP then Returning else Working(op.value))
                else if pc.Working? then Collecting else Gone, lost)
    case Dispatcher(pc) =>
      Dispatcher(match pc
                 case Receiving =>
                   if op.value != STOP then Routing(op.value) else if Registered(c, 1) then Broadcasting(1) else Exited
                 case Routing(_) => Receiving
                 case Broadcasting(key) => if Registered(c, key + 1) then Broadcasting(key + 1) else Exited
                 case _ => pc)
    case Consumer(i, done, received) =>
      if op.value == STOP then Consumer(i, true, received) else Consumer(i, done, received + [op.value])
  }

  /** A ticket is drawn, a message is lost, or a key is missing. */
  function Inner(c: Config, produced: nat, l: Local, choice: nat): Option<(nat, Local)> {
    match l
    case Producer(pc) =>
      if pc.Drawing? && (produced < c.packageCount ==> choice < c.consumerCount)
      then Some((produced + 1, Producer(Drawn(c, produced + 1, choice)))) else None
    case Assembler(pc, lost) =>
      if pc.Working? then Some((produced, Assembler(Collecting, lost + [pc.m]))) else None
    case Dispatcher(pc) =>
      if pc.Routing? && !Registered(c, pc.m.target) then Some((produced, Dispatcher(Crashed(pc.m)))) else None
    case Consumer(_, _, _) => None
  }

  function Code(c: Config): N.Program<nat, Local> {
    N.Program(l => Wants(c, l), (l, _) => Sends(l), (l, op) => After(c, l, op),
              (produced, l, choice) => Inner(c, produced, l, choice))
  }

  function ConsumerAt(c: Config, locals: seq<Local>, i: nat): Local
    requires |locals| == c.producerCount + 2 + c.consumerCount && i < c.consumerCount
  {
    locals[c.producerCount + 2 + i]
  }

  /** All threads before their first step; a queue for the assembler, the dispatcher and each consumer. */
  predicate Starts(c: Config, s: N.State<nat, Local>) {
    && s.shared == 0 && |s.locals| == c.producerCount + 2 + c.consumerCount && |s.queues| == CONS + c.consumerCount
    && (forall p :: 0 <= p < c.producerCount ==> s.locals[p] == Producer(Drawing))
    && s.locals[c.producerCount] == Assembler(Collecting, [])
    && s.locals[c.producerCount + 1] == Dispatcher(Receiving)
    && forall i :: 0 <= i < c.consumerCount ==> ConsumerAt(c, s.locals, i) == Consumer(i, false, [])
  }

  ghost predicate IsThreadRun(c: Config, run: seq<N.State<nat, Local>>) {
    N.IsRun(Code(c), c.capacity, run) && Starts(c, run[0])
  }

  // ---- The network with atomic queues is the bounded network ----

  predicate Mirrors(c: Config, n: N.Atomic<nat, Local>, s: State) {
    && Shape(c, s) && n.shared == s.producedCount
    && |n.locals| == c.producerCount + 2 + c.consumerCount && |n.queues| == CONS + c.consumerCount
    && n.queues[ASM] == s.asmQueue && n.queues[DISP] == s.dispQueue
    && (forall i :: 0 <= i < c.consumerCount ==> n.queues[CONS + i] == s.consQueues[i])
    && (forall p :: 0 <= p < c.producerCount ==> n.locals[p] == Producer(s.producers[p]))
    && n.locals[c.producerCount] == Assembler(s.asm, s.lost)
    && n.locals[c.producerCount + 1] == Dispatcher(s.disp)
    && forall i :: 0 <= i < c.consumerCount ==>
                     ConsumerAt(c, n.locals, i) == Consumer(i, s.consDone[i], s.received[i])
  }

  function EventOf(c: Config, s: State, a: N.Action): Event {
    if a.t < c.producerCount then if a.Inner? then Draw(a.t, a.choice) else Enqueue(a.t)
    else if a.t == c.producerCount then
      if a.Inner? then AsmLose
      else if s.asm.Collecting? then AsmTake
      else if s.asm.Working? then AsmForward
      else AsmStop
    else if a.t == c.producerCount + 1 then
      if a.Inner? || s.disp.Routing? then DispRoute
      else if s.disp.Receiving? then DispTake
      else DispBroadcast
    else Consume(a.t - c.producerCount - 2)
  }

  ghost predicate Follows(c: Config, n: N.Atomic<nat, Local>, s: State, a: N.Action)
    requires Mirrors(c, n, s) && N.AtomicEnabled(Code(c), c.capacity, n, a)
  {
    var e := EventOf(c, s, a);
    Enabled(c, s, e) && Mirrors(c, N.AtomicApply(Code(c), c.capacity, n, a), Apply(c, s, e))
  }

  lemma ProducerFollows(c: Config, n: N.Atomic<nat, Local>, s: State, a: N.Action)
    requires Mirrors(c, n, s) && N.AtomicEnabled(Code(c), c.capacity, n, a) && a.t < c.producerCount
    ensures Follows(c, n, s, a)
  {
  }

  lemma AssemblerFollows(c: Config, n: N.Atomic<nat, Local>, s: State, a: N.Action)
    requires Mirrors(c, n, s) && N.AtomicEnabled(Code(c), c.capacity, n, a) && a.t == c.producerCount
    ensures Follows(c, n, s, a)
  {
  }

  lemma DispatcherTakes(c: Config, n: N.Atomic<nat, Local>, s: State, a: N.Action)
    requires Mirrors(c, n, s) && N.AtomicEnabled(Code(c), c.capacity, n, a) && a.t == c.producerCount + 1
    requires s.disp.Receiving?
    ensures Follows(c, n, s, a)
  {
  }

  lemma DispatcherDelivers(c: Config, n: N.Atomic<nat, Local>, s: State, a: N.Action)
    requires Mirrors(c, n, s) && N.AtomicEnabled(Code(c), c.capacity, n, a) && a.t == c.producerCount + 1
    requires !s.disp.Receiving?
    ensures Follows(c, n, s, a)
  {
  }

  lemma DispatcherFollows(c: Config, n: N.Atomic<nat, Local>, s: State, a: N.Action)
    requires Mirrors(c, n, s) && N.AtomicEnabled(Code(c), c.capacity, n, a) && a.t == c.producerCount + 1
    ensures Follows(c, n, s, a)
  {
    hide Follows;
    if s.disp.Receiving? {
      DispatcherTakes(c, n, s, a);
    } else {
      DispatcherDelivers(c, n, s, a);
    }
  }

  lemma ConsumerFollows(c: Config, n: N.Atomic<nat, Local>, s: State, a: N.Action)
    requires Mirrors(c, n, s) && N.AtomicEnabled(Code(c), c.capacity, n, a) && a.t >= c.producerCount + 2
    ensures Follows(c, n, s, a)
  {
    var i := a.t - c.producerCount - 2;
    assert ConsumerAt(c, n.locals, i) == Consumer(i, s.consDone[i], s.received[i]);
  }

  lemma ActionFollows(c: Config, n: N.Atomic<nat, Local>, s: State, a: N.Action)
    requires Mirrors(c, n, s) && N.AtomicEnabled(Code(c), c.capacity, n, a)
    ensures Shape(c, s) && Follows(c, n, s, a)
  {
    hide N.AtomicApply, Follows;
    if a.t < c.producerCount {
      ProducerFollows(c, n, s, a);
    } else if a.t == c.producerCount {
      AssemblerFollows(c, n, s, a);
    } else if a.t == c.producerCount + 1 {
      DispatcherFollows(c, n, s, a);
    } else {
      ConsumerFollows(c, n, s, a);
    }
  }

  /** What the threads with atomic queues do is a run of the bounded network. */
  lemma {:induction false} RunMirrors(c: Config, atomic: seq<N.Atomic<nat, Local>>) returns (run: seq<State>)
    requires N.IsAtomicRun(Code(c), c.capacity, atomic) && Mirrors(c, atomic[0], Start(c))
    ensures IsRun(c, run) && |run| == |atomic| && Mirrors(c, atomic[|atomic| - 1], run[|run| - 1])
    decreases |atomic|
  {
    hide Mirrors, N.AtomicApply, N.AtomicEnabled, Enabled, Apply, Reachable;
    if |atomic| == 1 {
      StartIsReachable(c);
      run := [Start(c)];
    } else {
      var n, n' := atomic[|atomic| - 2], atomic[|atomic| - 1];
      var before := RunMirrors(c, atomic[..|atomic| - 1]);
      var s := before[|before| - 1];
      assert N.AtomicStep(Code(c), c.capacity, atomic[|atomic| - 2], atomic[|atomic| - 2 + 1]);
      var a :| N.AtomicEnabled(Code(c), c.capacity, n, a) && n' == N.AtomicApply(Code(c), c.capacity, n, a);
      ActionFollows(c, n, s, a);
      var s' := Apply(c, s, EventOf(c, s, a));
      assert Step(c, s, s');
      run := before + [s'];
      forall i | 0 <= i < |run| - 1 ensures Step(c, run[i], run[i + 1]) {
        if i < |before| - 1 {
          assert Step(c, before[i], before[i + 1]);
        }
      }
    }
  }

  lemma StartMirrors(c: Config, s: N.State<nat, Local>)
    requires N.Init(c.capacity, s) && Starts(c, s)
    ensures Mirrors(c, N.Abs(Code(c), s), Start(c))
  {
    hide Q.Fifo;
  }

  /** Which action of a thread an event is. */
  function ActionOf(c: Config, s: State, e: Event): N.Action {
    match e
    case Draw(p, choice) => N.Inner(p, choice)
    case Enqueue(p) => N.Act(p, 0)
    case AsmLose => N.Inner(c.producerCount, 0)
    case AsmTake => N.Act(c.producerCount, 0)
    case AsmForward => N.Act(c.producerCount, 0)
    case AsmStop => N.Act(c.producerCount, 0)
    case DispRoute =>
      if s.disp.Routing? && !Registered(c, s.disp.m.target) then N.Inner(c.producerCount + 1, 0)
      else N.Act(c.producerCount + 1, 0)
    case DispTake => N.Act(c.producerCount + 1, 0)
    case DispBroadcast => N.Act(c.producerCount + 1, 0)
    case Consume(i) => N.Act(c.producerCount + 2 + i, 0)
  }

  /** Only the assembler chooses between a queue action and another step. */
  lemma EventIsAction(c: Config, n: N.Atomic<nat, Local>, s: State, e: Event)
    requires Mirrors(c, n, s) && Enabled(c, s, e)
    ensures var a := ActionOf(c, s, e);
            && N.AtomicEnabled(Code(c), c.capacity, n, a)
            && (a.Inner? && !e.AsmLose? ==> Code(c).wants(n.locals[a.t]).Nothing?)
  {
  }

  lemma MirrorsShape(c: Config, n: N.Atomic<nat, Local>, s: State)
    requires Mirrors(c, n, s)
    ensures Shape(c, s)
  {
  }

  lemma StuckMirrors(c: Config, n: N.Atomic<nat, Local>, s: State)
    requires Mirrors(c, n, s) && N.AtomicStuck(Code(c), c.capacity, n)
    ensures Shape(c, s) && Stuck(c, s)
  {
    hide Mirrors, Enabled, N.AtomicEnabled;
    MirrorsShape(c, n, s);
    forall e | Enabled(c, s, e) ensures e.AsmLose? {
      EventIsAction(c, n, s, e);
    }
  }

  // ---- Main results ----

  /** Every run of the threads through the semaphores is a run of the bounded network. */
  lemma ThreadsRefinePipeline(c: Config, run: seq<N.State<nat, Local>>) returns (atomic: seq<State>)
    requires IsThreadRun(c, run)
    ensures N.Shape(run[|run| - 1]) && N.Inv(Code(c), c.capacity, run[|run| - 1]) && IsRun(c, atomic)
    ensures Mirrors(c, N.Abs(Code(c), run[|run| - 1]), atomic[|atomic| - 1])
    ensures |run| - 1 <= 7 * (|atomic| - 1) + 5 * (c.producerCount + 2 + c.consumerCount)
  {
    hide Mirrors, N.Init, N.Abs, N.Pcs, N.Ahead, IsRun;
    var seen := N.NetworkRefines(Code(c), c.capacity, run);
    StartMirrors(c, run[0]);
    atomic := RunMirrors(c, seen);
  }

  /** The received messages of each consumer. */
  function Received(c: Config, locals: seq<Local>): seq<seq<Message>>
    requires |locals| == c.producerCount + 2 + c.consumerCount
  {
    seq(c.consumerCount, i requires 0 <= i < c.consumerCount =>
          if ConsumerAt(c, locals, i).Consumer? then ConsumerAt(c, locals, i).received else [])
  }

  /** All threads have ended, and what the consumers have received and the assembler lost makes up the packages. */
  predicate Ended(c: Config, locals: seq<Local>) {
    && |locals| == c.producerCount + 2 + c.consumerCount
    && (forall p :: 0 <= p < c.producerCount ==> locals[p] == Producer(Finished))
    && locals[c.producerCount].Assembler? && locals[c.producerCount].asm.Gone?
    && locals[c.producerCount + 1] == Dispatcher(Exited)
    && (forall i :: 0 <= i < c.consumerCount ==> ConsumerAt(c, locals, i).Consumer? && ConsumerAt(c, locals, i).done)
    && TotalSize(Received(c, locals)) + |locals[c.producerCount].lost| == c.packageCount
  }

  lemma MirroredEnd(c: Config, n: N.Atomic<nat, Local>, s: State)
    requires Mirrors(c, n, s) && AllDone(c, s) && TotalSize(s.received) + |s.lost| == c.packageCount
    ensures Ended(c, n.locals)
  {
    assert Received(c, n.locals) == s.received;
  }

  /**
   * Through the semaphores too, every run is bounded; and with room in the queues and consumers for the
   * packages, no thread waits forever: a state in which none can move is one in which all have ended, and no
   * package is missing.
   */
  lemma ThreadsEnd(c: Config, run: seq<N.State<nat, Local>>)
    requires IsThreadRun(c, run)
    ensures |run| - 1 <= 56 * c.packageCount + 61 * c.producerCount + 19 * c.consumerCount + 38
    ensures N.Shape(run[|run| - 1])
    ensures c.Roomy() && N.Stuck(Code(c), run[|run| - 1]) ==> Ended(c, run[|run| - 1].locals)
  {
    hide Mirrors, Stuck, AllDone, N.Inv, N.AtomicStuck;
    var atomic := ThreadsRefinePipeline(c, run);
    PipelineEnds(c, atomic);
    PipelineDelivers(c, atomic);
    var s, n := run[|run| - 1], N.Abs(Code(c), run[|run| - 1]);
    if c.Roomy() && N.Stuck(Code(c), s) {
      N.StuckOnlyWhereAtomic(Code(c), c.capacity, s);
      StuckMirrors(c, n, atomic[|atomic| - 1]);
      MirroredEnd(c, n, atomic[|atomic| - 1]);
    }
  }
}
