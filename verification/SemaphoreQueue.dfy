/**
 * The queue that the network simulations share: any number of threads call `enqueue` and `dequeue`, each
 * made of a wait on one semaphore, a critical section, and a signal of the other semaphore. One step is
 * one action of one thread.
 */
module SemaphoreQueue {
  import opened Messages
  import opened Options
  import opened Sums

  datatype Op = Enqueued(value: Message) | Dequeued(value: Message)

  /** An operation of a thread, at the moment it takes effect. */
  datatype Entry = Entry(thread: nat, op: Op)

  // ---- The specification: an atomic FIFO of bounded capacity ----

  /** The operations `log`, in this order, take an empty FIFO of the given capacity to the contents `q`. */
  ghost predicate Fifo(capacity: nat, log: seq<Entry>, q: seq<Message>)
    decreases |log|
  {
    if log == [] then q == []
    else
      var before := log[..|log| - 1];
      match log[|log| - 1].op
      case Enqueued(x) => 0 < |q| <= capacity && q[|q| - 1] == x && Fifo(capacity, before, q[..|q| - 1])
      case Dequeued(x) => |q| < capacity && Fifo(capacity, before, [x] + q)
  }

  function EnqueuedValues(log: seq<Entry>): seq<Message> {
    if log == [] then []
    else
      var last := log[|log| - 1].op;
      EnqueuedValues(log[..|log| - 1]) + (if last.Enqueued? then [last.value] else [])
  }

  function DequeuedValues(log: seq<Entry>): seq<Message> {
    if log == [] then []
    else
      var last := log[|log| - 1].op;
      DequeuedValues(log[..|log| - 1]) + (if last.Dequeued? then [last.value] else [])
  }

  /** The operations of one thread, in order. */
  function Project(log: seq<Entry>, t: nat): seq<Op> {
    if log == [] then []
    else
      var last := log[|log| - 1];
      Project(log[..|log| - 1], t) + (if last.thread == t then [last.op] else [])
  }

  /** A FIFO gives back its values in the order in which it got them, and holds the others. */
  lemma {:induction false} FifoOrder(capacity: nat, log: seq<Entry>, q: seq<Message>)
    requires Fifo(capacity, log, q)
    ensures EnqueuedValues(log) == DequeuedValues(log) + q
    ensures |q| <= capacity
    decreases |log|
  {
    if log != [] {
      var before := log[..|log| - 1];
      match log[|log| - 1].op {
        case Enqueued(x) =>
          FifoOrder(capacity, before, q[..|q| - 1]);
          assert q[..|q| - 1] + [x] == q;
        case Dequeued(x) =>
          FifoOrder(capacity, before, [x] + q);
      }
    }
  }

  // ---- The threads ----

  datatype Pc =
    | Idle
    | AwaitRoom(x: Message) | LockToPush(x: Message) | Push(x: Message)
    | UnlockPushed(x: Message) | SignalPushed(x: Message)
    | AwaitItem | LockToPop | Front | Pop(result: Message)
    | UnlockPopped(result: Message) | SignalPopped(result: Message)

  datatype State = State(
    canProduce: nat, canConsume: nat, mutex: Option<nat>, queue: seq<Message>, threads: seq<Pc>,
    log: seq<Entry>,       // history: operations in the order in which they change the queue
    done: seq<seq<Op>>)    // history: operations that each thread has completed

  datatype Event = CallEnqueue(t: nat, x: Message) | CallDequeue(t: nat) | Move(t: nat)

  predicate Shape(s: State) {
    |s.threads| == |s.done|
  }

  predicate Enabled(s: State, e: Event) {
    e.t < |s.threads| &&
    if !e.Move? then s.threads[e.t].Idle?
    else
      match s.threads[e.t]
      case Idle => false
      case AwaitRoom(_) => s.canProduce > 0
      case AwaitItem => s.canConsume > 0
      case LockToPush(_) => s.mutex.None?
      case LockToPop => s.mutex.None?
      case Front => s.queue != []
      case Pop(_) => s.queue != []
      case _ => true
  }

  function Apply(s: State, e: Event): (s': State)
    requires Shape(s) && Enabled(s, e)
    ensures Shape(s') && |s'.threads| == |s.threads|
  {
    var t := e.t;
    match e
    case CallEnqueue(_, x) => s.(threads := s.threads[t := AwaitRoom(x)])
    case CallDequeue(_) => s.(threads := s.threads[t := AwaitItem])
    case Move(_) =>
      match s.threads[t]
      case AwaitRoom(x) => s.(canProduce := s.canProduce - 1, threads := s.threads[t := LockToPush(x)])
      case LockToPush(x) => s.(mutex := Some(t), threads := s.threads[t := Push(x)])
      case Push(x) =>
        s.(queue := s.queue + [x], threads := s.threads[t := UnlockPushed(x)], log := s.log + [Entry(t, Enqueued(x))])
      case UnlockPushed(x) => s.(mutex := None, threads := s.threads[t := SignalPushed(x)])
      case SignalPushed(x) =>
        s.(canConsume := s.canConsume + 1, threads := s.threads[t := Idle],
            done := s.done[t := s.done[t] + [Enqueued(x)]])
      case AwaitItem => s.(canConsume := s.canConsume - 1, threads := s.threads[t := LockToPop])
      case LockToPop => s.(mutex := Some(t), threads := s.threads[t := Front])
      case Front => s.(threads := s.threads[t := Pop(s.queue[0])])
      case Pop(r) =>
        s.(queue := s.queue[1..], threads := s.threads[t := UnlockPopped(r)], log := s.log + [Entry(t, Dequeued(r))])
      case UnlockPopped(r) => s.(mutex := None, threads := s.threads[t := SignalPopped(r)])
      case SignalPopped(r) =>
        s.(canProduce := s.canProduce + 1, threads := s.threads[t := Idle],
            done := s.done[t := s.done[t] + [Dequeued(r)]])
  }

  ghost predicate Step(s: State, s': State) {
    Shape(s) && exists e :: Enabled(s, e) && s' == Apply(s, e)
  }

  predicate Init(capacity: nat, s: State) {
    && Shape(s) && s.canProduce == capacity && s.canConsume == 0 && s.mutex.None? && s.queue == [] && s.log == []
    && forall t :: 0 <= t < |s.threads| ==> s.threads[t].Idle? && s.done[t] == []
  }

  ghost predicate IsRun(capacity: nat, run: seq<State>) {
    && |run| > 0 && Init(capacity, run[0])
    && forall i :: 0 <= i < |run| - 1 ==> Step(run[i], run[i + 1])
  }

  // ---- The invariant ----

  /** Has taken a permit to produce that is not yet an element of the queue. */
  function Pushing(pc: Pc): nat {
    if pc.LockToPush? || pc.Push? then 1 else 0
  }

  function Pushed(pc: Pc): nat {
    if pc.UnlockPushed? || pc.SignalPushed? then 1 else 0
  }

  /** Has taken a permit to consume, and its element is still in the queue. */
  function Popping(pc: Pc): nat {
    if pc.LockToPop? || pc.Front? || pc.Pop? then 1 else 0
  }

  function Popped(pc: Pc): nat {
    if pc.UnlockPopped? || pc.SignalPopped? then 1 else 0
  }

  /** Every unit of capacity is a permit, an element, or in the hands of a thread. */
  predicate Permits(capacity: nat, s: State) {
    && s.canProduce + Total(s.threads, Pushing) + |s.queue| + Total(s.threads, Popped) == capacity
    && s.canConsume + Total(s.threads, Pushed) + Total(s.threads, Popping) == |s.queue|
  }

  predicate InSection(pc: Pc) {
    pc.Push? || pc.UnlockPushed? || pc.Front? || pc.Pop? || pc.UnlockPopped?
  }

  /** What a thread has done to the queue and not yet returned. */
  function Pending(pc: Pc): seq<Op> {
    match pc
    case UnlockPushed(x) => [Enqueued(x)]
    case SignalPushed(x) => [Enqueued(x)]
    case UnlockPopped(r) => [Dequeued(r)]
    case SignalPopped(r) => [Dequeued(r)]
    case _ => []
  }

  predicate Recorded(s: State, t: nat)
    requires Shape(s) && t < |s.threads|
  {
    Project(s.log, t) == s.done[t] + Pending(s.threads[t])
  }

  predicate ThreadInv(s: State, t: nat)
    requires Shape(s) && t < |s.threads|
  {
    && (InSection(s.threads[t]) <==> s.mutex == Some(t))
    && (s.threads[t].Pop? ==> s.queue != [] && s.threads[t].result == s.queue[0])
    && Recorded(s, t)
  }

  ghost predicate Inv(capacity: nat, s: State) {
    && Shape(s) && Permits(capacity, s) && Fifo(capacity, s.log, s.queue)
    && (s.mutex.Some? ==> s.mutex.value < |s.threads|)
    && forall t :: 0 <= t < |s.threads| ==> ThreadInv(s, t)
  }

  lemma InvInit(capacity: nat, s: State)
    requires Init(capacity, s)
    ensures Inv(capacity, s)
  {
    TotalZero(s.threads, Pushing);
    TotalZero(s.threads, Pushed);
    TotalZero(s.threads, Popping);
    TotalZero(s.threads, Popped);
  }

  /** The sums survive when permits and elements change as one thread does. */
  lemma PermitsUpdate(capacity: nat, s: State, s': State, t: nat)
    requires Permits(capacity, s) && t < |s.threads| == |s'.threads| && s'.threads == s.threads[t := s'.threads[t]]
    requires s'.canProduce + Pushing(s'.threads[t]) + |s'.queue| + Popped(s'.threads[t])
          == s.canProduce + Pushing(s.threads[t]) + |s.queue| + Popped(s.threads[t])
    requires s'.canConsume + Pushed(s'.threads[t]) + Popping(s'.threads[t]) + |s.queue|
          == s.canConsume + Pushed(s.threads[t]) + Popping(s.threads[t]) + |s'.queue|
    ensures Permits(capacity, s')
  {
    hide Pushing, Pushed, Popping, Popped, Total;
    TotalUpdate(s.threads, t, s'.threads[t], Pushing);
    TotalUpdate(s.threads, t, s'.threads[t], Pushed);
    TotalUpdate(s.threads, t, s'.threads[t], Popping);
    TotalUpdate(s.threads, t, s'.threads[t], Popped);
  }

  lemma PermitsStep(capacity: nat, s: State, e: Event)
    requires Shape(s) && Permits(capacity, s) && Enabled(s, e)
    ensures Permits(capacity, Apply(s, e))
  {
    hide Permits;
    PermitsUpdate(capacity, s, Apply(s, e), e.t);
  }

  /** A thread past the first semaphore finds room, or an element. */
  lemma PermitHolds(capacity: nat, s: State, t: nat)
    requires Shape(s) && Permits(capacity, s) && t < |s.threads|
    ensures Pushing(s.threads[t]) == 1 ==> |s.queue| < capacity
    ensures Popping(s.threads[t]) == 1 ==> s.queue != []
  {
    TotalAtLeast(s.threads, t, Pushing);
    TotalAtLeast(s.threads, t, Popping);
  }

  lemma FifoStep(capacity: nat, s: State, e: Event)
    requires Inv(capacity, s) && Enabled(s, e)
    ensures Fifo(capacity, Apply(s, e).log, Apply(s, e).queue)
  {
    hide Permits, Project;
    var s' := Apply(s, e);
    PermitHolds(capacity, s, e.t);
    assert ThreadInv(s, e.t);
    if s'.log != s.log {
      assert s'.log[..|s'.log| - 1] == s.log;
      if s.threads[e.t].Push? {
        assert s'.queue[..|s'.queue| - 1] == s.queue;
      } else {
        assert [s.threads[e.t].result] + s'.queue == s.queue;
        FifoOrder(capacity, s.log, s.queue);
      }
    }
  }

  lemma ProjectAppend(log: seq<Entry>, entry: Entry, t: nat)
    ensures Project(log + [entry], t) == Project(log, t) + (if entry.thread == t then [entry.op] else [])
  {
    assert (log + [entry])[..|log|] == log;
  }

  /** What a thread has done is recorded once: pending when it takes effect, done when the call returns. */
  lemma RecordedStep(s: State, e: Event, t: nat)
    requires Shape(s) && Enabled(s, e) && t < |s.threads| && Recorded(s, t)
    ensures Recorded(Apply(s, e), t)
  {
    hide Project;
    var pc := s.threads[e.t];
    if e.Move? && pc.Push? {
      ProjectAppend(s.log, Entry(e.t, Enqueued(pc.x)), t);
    } else if e.Move? && pc.Pop? {
      ProjectAppend(s.log, Entry(e.t, Dequeued(pc.result)), t);
    } else {
      assert Apply(s, e).log == s.log;
    }
  }

  lemma ThreadsStep(s: State, e: Event, t: nat)
    requires Shape(s) && Enabled(s, e) && t < |s.threads| && ThreadInv(s, t) && ThreadInv(s, e.t)
    ensures ThreadInv(Apply(s, e), t)
  {
    hide Recorded;
    RecordedStep(s, e, t);
  }

  lemma InvStep(capacity: nat, s: State, s': State)
    requires Inv(capacity, s) && Step(s, s')
    ensures Inv(capacity, s')
  {
    hide Permits, Fifo, ThreadInv;
    var e :| Enabled(s, e) && s' == Apply(s, e);
    PermitsStep(capacity, s, e);
    FifoStep(capacity, s, e);
    forall t | 0 <= t < |s'.threads| ensures ThreadInv(s', t) {
      ThreadsStep(s, e, t);
    }
  }

  lemma {:induction false} RunInv(capacity: nat, run: seq<State>)
    requires IsRun(capacity, run)
    ensures forall i :: 0 <= i < |run| ==> Inv(capacity, run[i])
  {
    hide Inv, Init, Step;
    if |run| == 1 {
      InvInit(capacity, run[0]);
    } else {
      var n := |run| - 1;
      RunInv(capacity, run[..n]);
      assert Step(run[n - 1], run[n]);
      InvStep(capacity, run[n - 1], run[n]);
    }
  }

  // ---- Main results ----

  /**
   * The queue refines an atomic bounded FIFO: whatever the interleaving, the operations, in the order in
   * which they take effect, are a run of the FIFO that ends with the actual contents; and that order
   * holds, for every thread, what the thread has returned, plus at most the operation it is about to return.
   */
  lemma QueueIsLinearizable(capacity: nat, run: seq<State>)
    requires IsRun(capacity, run)
    ensures var s := run[|run| - 1];
            && Shape(s) && Fifo(capacity, s.log, s.queue)
            && |s.queue| <= capacity && EnqueuedValues(s.log) == DequeuedValues(s.log) + s.queue
            && forall t :: 0 <= t < |s.threads| ==> Project(s.log, t) == s.done[t] + Pending(s.threads[t])
  {
    RunInv(capacity, run);
    var s := run[|run| - 1];
    FifoOrder(capacity, s.log, s.queue);
    forall t | 0 <= t < |s.threads| ensures Project(s.log, t) == s.done[t] + Pending(s.threads[t]) {
      assert ThreadInv(s, t);
    }
  }

  /** The order of effects only grows. */
  lemma {:induction false} LogGrows(capacity: nat, run: seq<State>, i: nat)
    requires IsRun(capacity, run) && i < |run|
    ensures run[i].log <= run[|run| - 1].log
  {
    var n := |run| - 1;
    if i < n {
      LogGrows(capacity, run[..n], i);
      assert Step(run[n - 1], run[n]);
    }
  }

  /** How many operations of the same thread come before an entry. */
  function Number(log: seq<Entry>, a: nat): nat
    requires a < |log|
  {
    |Project(log[..a], log[a].thread)|
  }

  lemma {:induction false} ProjectGrows(log: seq<Entry>, a: nat, t: nat)
    requires a <= |log|
    ensures |Project(log[..a], t)| <= |Project(log, t)|
    ensures a < |log| && log[a].thread == t ==> |Project(log[..a], t)| < |Project(log, t)|
  {
    if a < |log| {
      var n := |log| - 1;
      assert log[..n][..a] == log[..a];
      if a < n {
        ProjectGrows(log[..n], a, t);
      }
    } else {
      assert log[..a] == log;
    }
  }

  /** An entry lies in a prefix of the log exactly when the prefix has more operations of its thread than precede it. */
  lemma InPrefix(log: seq<Entry>, prefix: seq<Entry>, a: nat)
    requires prefix <= log && a < |log|
    ensures a < |prefix| <==> Number(log, a) < |Project(prefix, log[a].thread)|
  {
    var t := log[a].thread;
    if a < |prefix| {
      assert prefix[..a] == log[..a] && prefix[a] == log[a];
      ProjectGrows(prefix, a, t);
    } else {
      assert log[..a][..|prefix|] == prefix;
      ProjectGrows(log[..a], |prefix|, t);
    }
  }

  lemma RecordedIn(capacity: nat, s: State, t: nat)
    requires Inv(capacity, s) && t < |s.threads|
    ensures Project(s.log, t) == s.done[t] + Pending(s.threads[t])
  {
    assert ThreadInv(s, t);
  }

  /**
   * Real time is respected: an operation that has returned by state i takes effect before every operation that
   * is called in state j or later, where j is not before i.
   */
  lemma RealTimeOrder(capacity: nat, run: seq<State>, i: nat, j: nat, a: nat, b: nat)
    requires IsRun(capacity, run) && i <= j < |run|
    requires Shape(run[i]) && Shape(run[j])
    requires var log := run[|run| - 1].log;
             && a < |log| && log[a].thread < |run[i].threads| && Number(log, a) < |run[i].done[log[a].thread]|
             && b < |log| && log[b].thread < |run[j].threads| && run[j].threads[log[b].thread].Idle?
             && Number(log, b) >= |run[j].done[log[b].thread]|
    ensures a < b
  {
    hide Inv, Init, Step, Project;
    var log := run[|run| - 1].log;
    RunInv(capacity, run);
    LogGrows(capacity, run, i);
    LogGrows(capacity, run, j);
    LogGrows(capacity, run[..j + 1], i);
    RecordedIn(capacity, run[i], log[a].thread);
    RecordedIn(capacity, run[j], log[b].thread);
    InPrefix(log, run[i].log, a);
    InPrefix(log, run[j].log, b);
  }

  /** At most one thread is inside the critical section, and the front is never taken of an empty queue. */
  lemma SectionIsSafe(capacity: nat, run: seq<State>)
    requires IsRun(capacity, run)
    ensures var s := run[|run| - 1];
            && (forall t, u ::
                  0 <= t < |s.threads| && 0 <= u < |s.threads| && InSection(s.threads[t]) && InSection(s.threads[u]) ==>
                    t == u)
            && forall t :: 0 <= t < |s.threads| && (s.threads[t].Front? || s.threads[t].Pop?) ==> s.queue != []
  {
    RunInv(capacity, run);
    var s := run[|run| - 1];
    forall t | 0 <= t < |s.threads| && (s.threads[t].Front? || s.threads[t].Pop?) ensures s.queue != [] {
      PermitHolds(capacity, s, t);
    }
    forall t, u | 0 <= t < |s.threads| && 0 <= u < |s.threads| && InSection(s.threads[t]) && InSection(s.threads[u])
      ensures t == u
    {
      assert ThreadInv(s, t) && ThreadInv(s, u);
    }
  }

  /** No thread can move on without a new call. */
  ghost predicate Blocked(s: State) {
    forall t: nat :: !Enabled(s, Move(t))
  }

  /** The thread waits for nothing, or to dequeue from an empty queue, or to enqueue into a full one. */
  predicate GoodReason(capacity: nat, s: State, t: nat)
    requires t < |s.threads|
  {
    match s.threads[t]
    case Idle => true
    case AwaitItem => s.queue == []
    case AwaitRoom(_) => |s.queue| == capacity
    case _ => false
  }

  lemma NobodyInside(capacity: nat, s: State)
    requires Inv(capacity, s) && Blocked(s)
    ensures forall t :: 0 <= t < |s.threads| ==>
              s.threads[t].Idle? || s.threads[t].AwaitItem? || s.threads[t].AwaitRoom?
  {
    if s.mutex.Some? {
      var h := s.mutex.value;
      assert ThreadInv(s, h) && !Enabled(s, Move(h));
      PermitHolds(capacity, s, h);
    }
    forall t | 0 <= t < |s.threads|
      ensures s.threads[t].Idle? || s.threads[t].AwaitItem? || s.threads[t].AwaitRoom?
    {
      assert ThreadInv(s, t) && !Enabled(s, Move(t));
    }
  }

  lemma BlockedState(capacity: nat, s: State)
    requires Inv(capacity, s) && Blocked(s)
    ensures forall t :: 0 <= t < |s.threads| ==> GoodReason(capacity, s, t)
  {
    NobodyInside(capacity, s);
    TotalZero(s.threads, Pushing);
    TotalZero(s.threads, Pushed);
    TotalZero(s.threads, Popping);
    TotalZero(s.threads, Popped);
    forall t | 0 <= t < |s.threads| ensures GoodReason(capacity, s, t) {
      assert !Enabled(s, Move(t));
    }
  }

  /**
   * When nothing moves, every thread that is not idle waits for a good reason: to dequeue from an empty
   * queue, or to enqueue into a full one.
   */
  lemma BlockedForAReason(capacity: nat, run: seq<State>)
    requires IsRun(capacity, run) && Blocked(run[|run| - 1])
    ensures var s := run[|run| - 1];
            forall t :: 0 <= t < |s.threads| ==> GoodReason(capacity, s, t)
  {
    hide Inv, GoodReason, Blocked;
    RunInv(capacity, run);
    BlockedState(capacity, run[|run| - 1]);
  }
}
