/**
 * Networks of threads and bounded queues, whatever the threads do between their queue actions. In one
 * model a queue action is one step; in the other it is a call whose waits, lock and signals are steps of
 * their own. The second refines the first, and is stuck only where the first is.
 */
module QueueNetwork {
  import opened Messages
  import opened Options
  import opened Sums
  import Q = SemaphoreQueue

  /** What a thread does next with the queues. */
  datatype Want = Nothing | Put(queue: nat) | Take(queue: nat)

  /** The code of the threads, on their shared state and the own state of each; a choice is a random number. */
  datatype Program<!G, !L> = Program(
    wants: L -> Want,
    sends: (L, nat) -> Option<Message>,      // what it puts, if it may choose this
    after: (L, Q.Op) -> L,                   // when the queue action has returned
    inner: (G, L, nat) -> Option<(G, L)>)    // a step without a queue, if it has one

  // ---- Queue actions in one step ----

  datatype Atomic<G, L> = Atomic(shared: G, locals: seq<L>, queues: seq<seq<Message>>)

  datatype Action = Inner(t: nat, choice: nat) | Act(t: nat, choice: nat)

  predicate AtomicEnabled<G, L>(p: Program<G, L>, capacity: nat, n: Atomic<G, L>, a: Action) {
    a.t < |n.locals| &&
    var l := n.locals[a.t];
    if a.Inner? then p.inner(n.shared, l, a.choice).Some?
    else
      match p.wants(l)
      case Nothing => false
      case Put(q) => q < |n.queues| && |n.queues[q]| < capacity && p.sends(l, a.choice).Some?
      case Take(q) => q < |n.queues| && n.queues[q] != []
  }

  function AtomicApply<G, L>(p: Program<G, L>, capacity: nat, n: Atomic<G, L>, a: Action): (n': Atomic<G, L>)
    requires AtomicEnabled(p, capacity, n, a)
    ensures |n'.locals| == |n.locals| && |n'.queues| == |n.queues|
  {
    var l := n.locals[a.t];
    if a.Inner? then
      var (shared, l') := p.inner(n.shared, l, a.choice).value;
      n.(shared := shared, locals := n.locals[a.t := l'])
    else if p.wants(l).Put? then
      var q, m := p.wants(l).queue, p.sends(l, a.choice).value;
      n.(queues := n.queues[q := n.queues[q] + [m]], locals := n.locals[a.t := p.after(l, Q.Enqueued(m))])
    else
      var q := p.wants(l).queue;
      var m := n.queues[q][0];
      n.(queues := n.queues[q := n.queues[q][1..]], locals := n.locals[a.t := p.after(l, Q.Dequeued(m))])
  }

  ghost predicate AtomicStep<G, L>(p: Program<G, L>, capacity: nat, n: Atomic<G, L>, n': Atomic<G, L>) {
    exists a :: AtomicEnabled(p, capacity, n, a) && n' == AtomicApply(p, capacity, n, a)
  }

  ghost predicate IsAtomicRun<G, L>(p: Program<G, L>, capacity: nat, run: seq<Atomic<G, L>>) {
    |run| > 0 && forall i :: 0 <= i < |run| - 1 ==> AtomicStep(p, capacity, run[i], run[i + 1])
  }

  /** Nothing can happen, save steps of threads that may have decided for a queue action instead. */
  ghost predicate AtomicStuck<G, L>(p: Program<G, L>, capacity: nat, n: Atomic<G, L>) {
    forall a :: AtomicEnabled(p, capacity, n, a) ==> a.Inner? && !p.wants(n.locals[a.t]).Nothing?
  }

  // ---- Queue actions through semaphores ----

  datatype State<G, L> = State(
    shared: G, locals: seq<L>,
    calls: seq<Option<nat>>,    // the queue in whose operation a thread is
    queues: seq<Q.State>)

  datatype Event = Work(t: nat, choice: nat) | Call(t: nat, choice: nat) | Move(t: nat)

  predicate Shape<G, L>(s: State<G, L>) {
    && |s.calls| == |s.locals|
    && (forall t :: 0 <= t < |s.calls| && s.calls[t].Some? ==> s.calls[t].value < |s.queues|)
    && forall q :: 0 <= q < |s.queues| ==> Q.Shape(s.queues[q]) && |s.queues[q].threads| == |s.locals|
  }

  predicate CanCall<G, L>(s: State<G, L>, t: nat, q: nat)
    requires Shape(s) && t < |s.locals|
  {
    q < |s.queues| && s.queues[q].threads[t].Idle?
  }

  predicate Enabled<G, L>(p: Program<G, L>, s: State<G, L>, e: Event)
    requires Shape(s)
  {
    e.t < |s.locals| &&
    var l := s.locals[e.t];
    match e
    case Work(t, choice) => s.calls[t].None? && p.inner(s.shared, l, choice).Some?
    case Call(t, choice) =>
      && s.calls[t].None?
      && (match p.wants(l)
          case Nothing => false
          case Put(q) => CanCall(s, t, q) && p.sends(l, choice).Some?
          case Take(q) => CanCall(s, t, q))
    case Move(t) => s.calls[t].Some? && Q.Enabled(s.queues[s.calls[t].value], Q.Move(t))
  }

  function Apply<G, L>(p: Program<G, L>, s: State<G, L>, e: Event): (s': State<G, L>)
    requires Shape(s) && Enabled(p, s, e)
    ensures Shape(s') && |s'.locals| == |s.locals| && |s'.queues| == |s.queues|
  {
    var l := s.locals[e.t];
    match e
    case Work(t, choice) =>
      var (shared, l') := p.inner(s.shared, l, choice).value;
      s.(shared := shared, locals := s.locals[t := l'])
    case Call(t, choice) =>
      var q := p.wants(l).queue;
      var call := if p.wants(l).Put? then Q.CallEnqueue(t, p.sends(l, choice).value) else Q.CallDequeue(t);
      s.(calls := s.calls[t := Some(q)], queues := s.queues[q := Q.Apply(s.queues[q], call)])
    case Move(t) =>
      var q := s.calls[t].value;
      var pc := s.queues[q].threads[t];
      var s' := s.(queues := s.queues[q := Q.Apply(s.queues[q], Q.Move(t))]);
      if pc.SignalPushed? || pc.SignalPopped?
      then s'.(calls := s.calls[t := None], locals := s.locals[t := p.after(l, Q.Pending(pc)[0])])
      else s'
  }

  ghost predicate Step<G, L>(p: Program<G, L>, s: State<G, L>, s': State<G, L>) {
    Shape(s) && exists e :: Enabled(p, s, e) && s' == Apply(p, s, e)
  }

  predicate Init<G, L>(capacity: nat, s: State<G, L>) {
    && Shape(s)
    && (forall t :: 0 <= t < |s.calls| ==> s.calls[t].None?)
    && forall q :: 0 <= q < |s.queues| ==> Q.Init(capacity, s.queues[q])
  }

  ghost predicate IsRun<G, L>(p: Program<G, L>, capacity: nat, run: seq<State<G, L>>) {
    && |run| > 0 && Init(capacity, run[0])
    && forall i :: 0 <= i < |run| - 1 ==> Step(p, run[i], run[i + 1])
  }

  /** No thread can move. */
  ghost predicate Stuck<G, L>(p: Program<G, L>, s: State<G, L>)
    requires Shape(s)
  {
    forall e :: !Enabled(p, s, e)
  }

  // ---- What an atomic observer sees ----

  function PcOf<G, L>(s: State<G, L>, t: nat): Q.Pc
    requires Shape(s) && t < |s.locals|
  {
    if s.calls[t].Some? then s.queues[s.calls[t].value].threads[t] else Q.Idle
  }

  /** An operation that has taken effect counts as returned. */
  function Seen<G, L>(p: Program<G, L>, l: L, pc: Q.Pc): L {
    if Q.Pending(pc) == [] then l else p.after(l, Q.Pending(pc)[0])
  }

  function Abs<G, L>(p: Program<G, L>, s: State<G, L>): (n: Atomic<G, L>)
    requires Shape(s)
    ensures |n.locals| == |s.locals| && |n.queues| == |s.queues|
  {
    Atomic(s.shared,
           seq(|s.locals|, t requires 0 <= t < |s.locals| => Seen(p, s.locals[t], PcOf(s, t))),
           seq(|s.queues|, q requires 0 <= q < |s.queues| => s.queues[q].queue))
  }

  // ---- The invariant ----

  function Carried(pc: Q.Pc): Option<Message> {
    match pc
    case AwaitRoom(x) => Some(x)
    case LockToPush(x) => Some(x)
    case Push(x) => Some(x)
    case UnlockPushed(x) => Some(x)
    case SignalPushed(x) => Some(x)
    case _ => None
  }

  ghost predicate MaySend<G, L>(p: Program<G, L>, l: L, m: Message) {
    exists choice :: p.sends(l, choice) == Some(m)
  }

  /** A thread inside an operation is there because it wanted to. */
  ghost predicate Committed<G, L>(p: Program<G, L>, l: L, q: nat, pc: Q.Pc) {
    !pc.Idle? &&
    match Carried(pc)
    case Some(m) => p.wants(l) == Put(q) && MaySend(p, l, m)
    case None => p.wants(l) == Take(q)
  }

  ghost predicate ThreadInv<G, L>(p: Program<G, L>, s: State<G, L>, t: nat)
    requires Shape(s) && t < |s.locals|
  {
    && (forall q :: 0 <= q < |s.queues| && s.calls[t] != Some(q) ==> s.queues[q].threads[t].Idle?)
    && (s.calls[t].Some? ==> Committed(p, s.locals[t], s.calls[t].value, PcOf(s, t)))
  }

  ghost predicate Inv<G, L>(p: Program<G, L>, capacity: nat, s: State<G, L>) {
    && Shape(s)
    && (forall q :: 0 <= q < |s.queues| ==> Q.Inv(capacity, s.queues[q]))
    && forall t :: 0 <= t < |s.locals| ==> ThreadInv(p, s, t)
  }

  lemma InvInit<G, L>(p: Program<G, L>, capacity: nat, s: State<G, L>)
    requires Init(capacity, s)
    ensures Inv(p, capacity, s)
  {
    hide Q.Inv;
    forall q | 0 <= q < |s.queues| ensures Q.Inv(capacity, s.queues[q]) {
      Q.InvInit(capacity, s.queues[q]);
    }
  }

  lemma QueueShape(capacity: nat, s: Q.State)
    requires Q.Inv(capacity, s)
    ensures Q.Shape(s)
  {
  }

  /** An event of a queue is an event of one thread, and leaves the queue in order. */
  lemma QueueStep(capacity: nat, s: Q.State, e: Q.Event)
    requires Q.Inv(capacity, s) && Q.Enabled(s, e)
    ensures var s' := Q.Apply(s, e);
            Q.Inv(capacity, s') && s'.threads == s.threads[e.t := s'.threads[e.t]]
  {
    hide Q.Inv;
    assert Q.Shape(s) by {
      QueueShape(capacity, s);
    }
    assert Q.Step(s, Q.Apply(s, e));
    Q.InvStep(capacity, s, Q.Apply(s, e));
  }

  lemma CallKeepsInv<G, L>(p: Program<G, L>, capacity: nat, s: State<G, L>, t: nat, choice: nat)
    requires Inv(p, capacity, s) && Enabled(p, s, Call(t, choice))
    ensures Inv(p, capacity, Apply(p, s, Call(t, choice)))
  {
    hide Q.Inv;
    var l := s.locals[t];
    var q := p.wants(l).queue;
    var call := if p.wants(l).Put? then Q.CallEnqueue(t, p.sends(l, choice).value) else Q.CallDequeue(t);
    QueueStep(capacity, s.queues[q], call);
    var s' := Apply(p, s, Call(t, choice));
    forall u | 0 <= u < |s.locals| ensures ThreadInv(p, s', u) {
      assert ThreadInv(p, s, u);
      if u == t && p.wants(l).Put? {
        assert MaySend(p, l, p.sends(l, choice).value);
      }
    }
  }

  /** To the atomic observer, a call is nothing. */
  lemma CallIsNotSeen<G, L>(p: Program<G, L>, capacity: nat, s: State<G, L>, t: nat, choice: nat)
    requires Inv(p, capacity, s) && Enabled(p, s, Call(t, choice))
    ensures Abs(p, Apply(p, s, Call(t, choice))) == Abs(p, s)
  {
    hide Q.Inv;
  }

  lemma WorkKeepsInv<G, L>(p: Program<G, L>, capacity: nat, s: State<G, L>, t: nat, choice: nat)
    requires Inv(p, capacity, s) && Enabled(p, s, Work(t, choice))
    ensures Inv(p, capacity, Apply(p, s, Work(t, choice)))
    ensures AtomicEnabled(p, capacity, Abs(p, s), Inner(t, choice))
    ensures Abs(p, Apply(p, s, Work(t, choice))) == AtomicApply(p, capacity, Abs(p, s), Inner(t, choice))
  {
    hide Q.Inv;
    var s' := Apply(p, s, Work(t, choice));
    forall u | 0 <= u < |s.locals| ensures ThreadInv(p, s', u) {
      assert ThreadInv(p, s, u);
    }
  }

  // ---- One action of a thread inside an operation ----

  predicate Returns(pc: Q.Pc) {
    pc.SignalPushed? || pc.SignalPopped?
  }

  /** The action at which an operation takes effect. */
  predicate TakesEffect(pc: Q.Pc) {
    pc.Push? || pc.Pop?
  }

  /** What a move does to the queue and to the position of the thread. */
  lemma MoveOfQueue(capacity: nat, s: Q.State, t: nat)
    requires Q.Inv(capacity, s) && Q.Enabled(s, Q.Move(t))
    ensures var s', pc := Q.Apply(s, Q.Move(t)), s.threads[t];
            var pc' := s'.threads[t];
            && (Returns(pc) <==> pc'.Idle?)
            && (!Returns(pc) ==> Carried(pc') == Carried(pc))
            && (pc.Push? ==> |s.queue| < capacity && s'.queue == s.queue + [pc.x] && Q.Pending(pc) == []
                             && Q.Pending(pc') == [Q.Enqueued(pc.x)])
            && (pc.Pop? ==> s.queue == [pc.result] + s'.queue && Q.Pending(pc) == []
                            && Q.Pending(pc') == [Q.Dequeued(pc.result)])
            && (!TakesEffect(pc) ==> s'.queue == s.queue)
            && (!TakesEffect(pc) && !Returns(pc) ==> Q.Pending(pc') == Q.Pending(pc))
  {
    hide Q.Fifo, Q.Recorded, Q.Permits;
    Q.PermitHolds(capacity, s, t);
    assert Q.ThreadInv(s, t);
  }

  lemma MoveKeepsInv<G, L>(p: Program<G, L>, capacity: nat, s: State<G, L>, t: nat)
    requires Inv(p, capacity, s) && Enabled(p, s, Move(t))
    ensures Inv(p, capacity, Apply(p, s, Move(t)))
  {
    hide Q.Inv, Q.Enabled, Q.Apply;
    var q := s.calls[t].value;
    QueueShape(capacity, s.queues[q]);
    QueueStep(capacity, s.queues[q], Q.Move(t));
    MoveOfQueue(capacity, s.queues[q], t);
    var s' := Apply(p, s, Move(t));
    forall u | 0 <= u < |s.locals| ensures ThreadInv(p, s', u) {
      assert ThreadInv(p, s, u);
    }
  }

  /** An action that takes effect is the whole operation to the atomic observer, any other is nothing. */
  lemma MoveIsSeen<G, L>(p: Program<G, L>, capacity: nat, s: State<G, L>, t: nat)
    requires Inv(p, capacity, s) && Enabled(p, s, Move(t))
    ensures var n, n' := Abs(p, s), Abs(p, Apply(p, s, Move(t)));
            if TakesEffect(PcOf(s, t))
            then exists choice :: AtomicEnabled(p, capacity, n, Act(t, choice))
                                  && n' == AtomicApply(p, capacity, n, Act(t, choice))
            else n' == n
  {
    hide Q.Inv, Q.Enabled, Q.Apply;
    var q := s.calls[t].value;
    QueueShape(capacity, s.queues[q]);
    QueueStep(capacity, s.queues[q], Q.Move(t));
    MoveOfQueue(capacity, s.queues[q], t);
    assert ThreadInv(p, s, t);
    var l, pc := s.locals[t], PcOf(s, t);
    if TakesEffect(pc) {
      var choice: nat := 0;
      if pc.Push? {
        assert MaySend(p, l, pc.x);
        choice :| p.sends(l, choice) == Some(pc.x);
      }
      var a := Act(t, choice);
      assert AtomicEnabled(p, capacity, Abs(p, s), a);
      assert Abs(p, Apply(p, s, Move(t))) == AtomicApply(p, capacity, Abs(p, s), a);
    }
  }

  // ---- How many actions an operation takes ----

  function Pcs<G, L>(s: State<G, L>): (pcs: seq<Q.Pc>)
    requires Shape(s)
    ensures |pcs| == |s.locals|
  {
    seq(|s.locals|, t requires 0 <= t < |s.locals| => PcOf(s, t))
  }

  /** Bounds the actions up to the next effect: all but that one make it smaller. */
  function Ahead(pc: Q.Pc): nat {
    match pc
    case UnlockPushed(_) => 7
    case UnlockPopped(_) => 7
    case SignalPushed(_) => 6
    case SignalPopped(_) => 6
    case Idle => 5
    case AwaitRoom(_) => 4
    case AwaitItem => 4
    case LockToPush(_) => 3
    case LockToPop => 3
    case Push(_) => 2
    case Front => 2
    case Pop(_) => 1
  }

  /** Whether an event is a step to the atomic observer. */
  predicate IsSeen<G, L>(s: State<G, L>, e: Event)
    requires Shape(s) && e.t < |s.locals|
  {
    e.Work? || (e.Move? && TakesEffect(PcOf(s, e.t)))
  }

  lemma MoveCounts(s: Q.State, t: nat)
    requires Q.Shape(s) && Q.Enabled(s, Q.Move(t))
    ensures var pc, pc' := s.threads[t], Q.Apply(s, Q.Move(t)).threads[t];
            1 + Ahead(pc') <= Ahead(pc) + (if TakesEffect(pc) then 7 else 0)
  {
  }

  lemma CallCounts<G, L>(p: Program<G, L>, capacity: nat, s: State<G, L>, t: nat, choice: nat)
    requires Inv(p, capacity, s) && Enabled(p, s, Call(t, choice))
    ensures var s' := Apply(p, s, Call(t, choice));
            Pcs(s') == Pcs(s)[t := PcOf(s', t)] && 1 + Ahead(PcOf(s', t)) <= Ahead(PcOf(s, t))
  {
    hide Q.Inv;
  }

  lemma PcsOfEvent<G, L>(p: Program<G, L>, capacity: nat, s: State<G, L>, e: Event)
    requires Inv(p, capacity, s) && Enabled(p, s, e)
    ensures var s' := Apply(p, s, e);
            && Pcs(s') == Pcs(s)[e.t := PcOf(s', e.t)]
            && 1 + Ahead(PcOf(s', e.t)) <= Ahead(PcOf(s, e.t)) + (if IsSeen(s, e) then 7 else 0)
  {
    hide Q.Inv, Q.Enabled, Q.Apply, Ahead;
    match e {
      case Work(t, choice) =>
      case Call(t, choice) =>
        CallCounts(p, capacity, s, t, choice);
      case Move(t) =>
        var q := s.calls[t].value;
        QueueShape(capacity, s.queues[q]);
        QueueStep(capacity, s.queues[q], Q.Move(t));
        MoveOfQueue(capacity, s.queues[q], t);
        MoveCounts(s.queues[q], t);
    }
  }

  lemma EventCounts<G, L>(p: Program<G, L>, capacity: nat, s: State<G, L>, e: Event)
    requires Inv(p, capacity, s) && Enabled(p, s, e)
    ensures 1 + Total(Pcs(Apply(p, s, e)), Ahead) <= Total(Pcs(s), Ahead) + (if IsSeen(s, e) then 7 else 0)
  {
    hide Apply, Ahead, Q.Inv, Q.Enabled, PcOf, IsSeen;
    PcsOfEvent(p, capacity, s, e);
    TotalUpdate(Pcs(s), e.t, PcOf(Apply(p, s, e), e.t), Ahead);
  }

  // ---- Main results ----

  /** Every event keeps the invariant, and is nothing or one step to the atomic observer. */
  lemma EventRefines<G, L>(p: Program<G, L>, capacity: nat, s: State<G, L>, e: Event)
    requires Inv(p, capacity, s) && Enabled(p, s, e)
    ensures Inv(p, capacity, Apply(p, s, e))
    ensures if IsSeen(s, e) then AtomicStep(p, capacity, Abs(p, s), Abs(p, Apply(p, s, e)))
            else Abs(p, Apply(p, s, e)) == Abs(p, s)
  {
    hide Q.Inv, Q.Enabled, Q.Apply, AtomicApply, AtomicEnabled, Inv, Abs;
    match e {
      case Work(t, choice) =>
        WorkKeepsInv(p, capacity, s, t, choice);
      case Call(t, choice) =>
        CallKeepsInv(p, capacity, s, t, choice);
        CallIsNotSeen(p, capacity, s, t, choice);
      case Move(t) =>
        MoveKeepsInv(p, capacity, s, t);
        MoveIsSeen(p, capacity, s, t);
    }
  }

  lemma InitCounts<G, L>(capacity: nat, s: State<G, L>)
    requires Init(capacity, s)
    ensures Total(Pcs(s), Ahead) == |s.locals| * 5
  {
    TotalConstant(Pcs(s), Ahead, 5);
  }

  /**
   * Every run with semaphores is, to the atomic observer, a run in which each queue action is one step, of at
   * least a seventh of the length.
   */
  lemma {:induction false} NetworkRefines<G, L>(p: Program<G, L>, capacity: nat, run: seq<State<G, L>>)
    returns (atomic: seq<Atomic<G, L>>)
    requires IsRun(p, capacity, run)
    ensures Inv(p, capacity, run[|run| - 1]) && IsAtomicRun(p, capacity, atomic)
    ensures atomic[0] == Abs(p, run[0]) && atomic[|atomic| - 1] == Abs(p, run[|run| - 1])
    ensures |run| - 1 + Total(Pcs(run[|run| - 1]), Ahead) <= 7 * (|atomic| - 1) + 5 * |run[0].locals|
    decreases |run|
  {
    hide Abs, Init, Apply, AtomicStep, IsSeen, Pcs, Q.Inv, Q.Enabled;
    InvInit(p, capacity, run[0]);
    if |run| == 1 {
      atomic := [Abs(p, run[0])];
      InitCounts(capacity, run[0]);
    } else {
      var s, s' := run[|run| - 2], run[|run| - 1];
      var before := NetworkRefines(p, capacity, run[..|run| - 1]);
      assert Step(p, run[|run| - 2], run[|run| - 2 + 1]);
      var e :| Enabled(p, s, e) && s' == Apply(p, s, e);
      EventRefines(p, capacity, s, e);
      EventCounts(p, capacity, s, e);
      atomic := if IsSeen(s, e) then before + [Abs(p, s')] else before;
    }
  }

  lemma QueuesAreBlocked<G, L>(p: Program<G, L>, capacity: nat, s: State<G, L>, q: nat)
    requires Inv(p, capacity, s) && Stuck(p, s) && q < |s.queues|
    ensures forall t :: 0 <= t < |s.locals| ==> Q.GoodReason(capacity, s.queues[q], t)
  {
    hide Q.Inv, Q.GoodReason;
    forall t: nat ensures !Q.Enabled(s.queues[q], Q.Move(t)) {
      if t < |s.locals| {
        assert ThreadInv(p, s, t) && !Enabled(p, s, Move(t));
      }
    }
    Q.BlockedState(capacity, s.queues[q]);
  }

  /** A thread inside an operation waits, where an atomic one would. */
  lemma WaitsInCall<G, L>(p: Program<G, L>, capacity: nat, s: State<G, L>, t: nat)
    requires Inv(p, capacity, s) && Stuck(p, s) && t < |s.locals| && s.calls[t].Some?
    ensures var q := s.calls[t].value;
            && Seen(p, s.locals[t], PcOf(s, t)) == s.locals[t]
            && match p.wants(s.locals[t])
               case Nothing => false
               case Put(q') => q' == q && |s.queues[q].queue| == capacity
               case Take(q') => q' == q && s.queues[q].queue == []
  {
    hide Q.Inv, Stuck;
    QueuesAreBlocked(p, capacity, s, s.calls[t].value);
    assert Q.GoodReason(capacity, s.queues[s.calls[t].value], t);
    assert ThreadInv(p, s, t);
  }

  /** A thread outside can start what an atomic one can do. */
  lemma StartsWhatAtomicDoes<G, L>(p: Program<G, L>, capacity: nat, s: State<G, L>, a: Action)
    requires Inv(p, capacity, s) && AtomicEnabled(p, capacity, Abs(p, s), a) && s.calls[a.t].None?
    ensures Enabled(p, s, if a.Inner? then Work(a.t, a.choice) else Call(a.t, a.choice))
  {
    hide Q.Inv;
    assert ThreadInv(p, s, a.t);
  }

  /** Where no thread can move through the semaphores, nothing can happen to the atomic observer. */
  lemma StuckOnlyWhereAtomic<G, L>(p: Program<G, L>, capacity: nat, s: State<G, L>)
    requires Inv(p, capacity, s) && Stuck(p, s)
    ensures AtomicStuck(p, capacity, Abs(p, s)) && Abs(p, s).locals == s.locals
  {
    hide Q.Inv;
    var n := Abs(p, s);
    forall t | 0 <= t < |s.locals| ensures n.locals[t] == s.locals[t] {
      if s.calls[t].Some? {
        WaitsInCall(p, capacity, s, t);
      }
    }
    forall a | AtomicEnabled(p, capacity, n, a) ensures a.Inner? && !p.wants(n.locals[a.t]).Nothing? {
      if s.calls[a.t].Some? {
        WaitsInCall(p, capacity, s, a.t);
      } else {
        StartsWhatAtomicDoes(p, capacity, s, a);
      }
    }
  }
}
