/**
 * The cyclic network: the producer feeds the dispatcher, the dispatcher feeds the consumers and the
 * assembler, and the assembler loses messages or sends them back to the dispatcher with a new target.
 * Dispatcher and assembler detect the end with two consecutive stop messages. One step is one queue
 * action of one thread; targets and losses are arbitrary within the ranges the program passes.
 */
module LossyCycle {
  import opened Messages
  import opened Sums

  datatype Config = Config(packageCount: nat, consumerCount: nat, capacity: nat) {
    /** Keys that fit the 16 bits of a target, unless there are no messages. */
    predicate Valid() {
      packageCount == 0 || consumerCount + 1 <= 65535
    }
  }

  // ---- The routing table of the dispatcher ----

  datatype Destination = ToConsumer(index: nat) | ToAssembler

  /** Registration of the first `count` consumers, under the keys 1, 2, ... */
  function Registered(count: nat): map<nat, Destination> {
    if count == 0 then map[] else Registered(count - 1)[count := ToConsumer(count - 1)]
  }

  function Routes(c: Config): map<nat, Destination> {
    Registered(c.consumerCount)[c.consumerCount + 1 := ToAssembler]
  }

  lemma {:induction false} RegisteredKeys(count: nat)
    ensures |Registered(count)| == count
    ensures forall k: nat :: k in Registered(count) <==> 1 <= k <= count
    ensures forall k: nat :: 1 <= k <= count ==> Registered(count)[k] == ToConsumer(k - 1)
  {
    if count > 0 {
      RegisteredKeys(count - 1);
      var before := Registered(count - 1);
      assert count !in before;
      assert Registered(count).Keys == before.Keys + {count};
    }
  }

  lemma RoutesKeys(c: Config)
    ensures |Routes(c)| == c.consumerCount + 1
    ensures forall k: nat :: k in Routes(c) <==> 1 <= k <= c.consumerCount + 1
    ensures forall k: nat :: 1 <= k <= c.consumerCount ==> Routes(c)[k] == ToConsumer(k - 1)
    ensures Routes(c)[c.consumerCount + 1] == ToAssembler
  {
    RegisteredKeys(c.consumerCount);
    var before := Registered(c.consumerCount);
    assert c.consumerCount + 1 !in before;
    assert Routes(c).Keys == before.Keys + {c.consumerCount + 1};
  }

  /** The target of a message, from the random number that the producer draws in 0 .. consumerCount. */
  function ProducerTarget(choice: nat): nat {
    Uint16(1 + choice)
  }

  /** Every target the producer can draw has a key, exactly when the keys fit the 16 bits of a target. */
  lemma TargetsAreRoutable(c: Config)
    ensures (forall choice: nat :: choice <= c.consumerCount ==> ProducerTarget(choice) in Routes(c))
       <==> c.consumerCount + 1 <= 65535
  {
    RoutesKeys(c);
    if c.consumerCount + 1 > 65535 {
      assert ProducerTarget(65535) == 0;
    }
  }

  /** A message that the assembler sends back has a consumer's key: it never returns to the assembler. */
  lemma RetargetedGoesToConsumer(c: Config, choice: nat)
    requires c.consumerCount + 1 <= 65535 && 1 <= choice <= c.consumerCount
    ensures Uint16(choice) in Routes(c) && Routes(c)[Uint16(choice)] == ToConsumer(choice - 1)
  {
    RoutesKeys(c);
  }

  // ---- States and steps ----

  datatype DispPc =
    | Receiving
    | Routing(m: Message)      // holds a data message
    | Stopping                 // holds a stop message
    | Broadcasting(key: nat)   // has left its loop
    | Exited
    | Crashed(m: Message)      // threw: queue's key not found

  datatype AsmPc = Collecting | Working(m: Message) | Returning | Gone

  datatype State = State(
    produced: nat, producerDone: bool,
    dispQueue: seq<Message>, disp: DispPc, dispStops: nat,
    asmQueue: seq<Message>, asm: AsmPc, asmStops: nat,
    lost: seq<Message>,  // the program counts these
    consQueues: seq<seq<Message>>, consDone: seq<bool>,
    received: seq<seq<Message>>,  // and these
    drawn: seq<nat>,              // history: the random number drawn for each message
    redrawn: map<nat, nat>)       // history: those drawn for the messages that were sent back

  datatype Event =
    | Produce(choice: nat) | ProduceStop
    | DispTake | DispRoute | DispReturnStop | DispBroadcast
    | AsmTake | AsmLose | AsmForward(choice: nat) | AsmReturnStop
    | Consume(i: nat)

  predicate Shape(c: Config, s: State) {
    |s.consQueues| == |s.consDone| == |s.received| == c.consumerCount
  }

  /** There is room at the destination. */
  predicate Room(c: Config, s: State, d: Destination)
    requires Shape(c, s)
  {
    match d
    case ToConsumer(i) => i < c.consumerCount && |s.consQueues[i]| < c.capacity
    case ToAssembler => |s.asmQueue| < c.capacity
  }

  function Deliver(c: Config, s: State, d: Destination, m: Message): State
    requires Shape(c, s) && Room(c, s, d)
  {
    match d
    case ToConsumer(i) => s.(consQueues := s.consQueues[i := s.consQueues[i] + [m]])
    case ToAssembler => s.(asmQueue := s.asmQueue + [m])
  }

  predicate Enabled(c: Config, s: State, e: Event)
    requires Shape(c, s)
  {
    match e
    case Produce(choice) => s.produced < c.packageCount && choice <= c.consumerCount && |s.dispQueue| < c.capacity
    case ProduceStop => s.produced == c.packageCount && !s.producerDone && |s.dispQueue| < c.capacity
    case DispTake => s.disp.Receiving? && s.dispQueue != []
    case DispRoute => s.disp.Routing? && (s.disp.m.target in Routes(c) ==> Room(c, s, Routes(c)[s.disp.m.target]))
    case DispReturnStop => s.disp.Stopping? && |Routes(c)| in Routes(c) && Room(c, s, Routes(c)[|Routes(c)|])
    case DispBroadcast => s.disp.Broadcasting? && s.disp.key in Routes(c) && Room(c, s, Routes(c)[s.disp.key])
    case AsmTake => s.asm.Collecting? && s.asmQueue != []
    case AsmLose => s.asm.Working?
    case AsmForward(choice) => s.asm.Working? && 1 <= choice <= c.consumerCount && |s.dispQueue| < c.capacity
    case AsmReturnStop => s.asm.Returning? && |s.dispQueue| < c.capacity
    case Consume(i) => i < c.consumerCount && !s.consDone[i] && s.consQueues[i] != []
  }

  function Apply(c: Config, s: State, e: Event): (s': State)
    requires Shape(c, s) && Enabled(c, s, e)
    ensures Shape(c, s')
  {
    match e
    case Produce(choice) =>
      s.(produced := s.produced + 1, dispQueue := s.dispQueue + [Message(ProducerTarget(choice), 1, s.produced)],
         drawn := s.drawn + [choice])
    case ProduceStop => s.(producerDone := true, dispQueue := s.dispQueue + [STOP])
    case DispTake =>
      var m := s.dispQueue[0];
      s.(dispQueue := s.dispQueue[1..], disp := if m == STOP then Stopping else Routing(m))
    case DispRoute =>
      if s.disp.m.target in Routes(c)
      then Deliver(c, s, Routes(c)[s.disp.m.target], s.disp.m).(disp := Receiving, dispStops := 0)
      else s.(disp := Crashed(s.disp.m))
    case DispReturnStop =>
      Deliver(c, s, Routes(c)[|Routes(c)|], STOP)
      .(dispStops := s.dispStops + 1, disp := if s.dispStops + 1 < 2 then Receiving else Broadcasting(1))
    case DispBroadcast =>
      Deliver(c, s, Routes(c)[s.disp.key], STOP)
      .(disp := if s.disp.key + 1 in Routes(c) then Broadcasting(s.disp.key + 1) else Exited)
    case AsmTake =>
      var m := s.asmQueue[0];
      if m == STOP then s.(asmQueue := s.asmQueue[1..], asm := Returning)
      else s.(asmQueue := s.asmQueue[1..], asm := Working(m), asmStops := 0)
    case AsmLose => s.(asm := Collecting, lost := s.lost + [s.asm.m])
    case AsmForward(choice) =>
      s.(asm := Collecting, dispQueue := s.dispQueue + [s.asm.m.(target := Uint16(choice))],
         redrawn := s.redrawn[s.asm.m.number := choice])
    case AsmReturnStop =>
      s.(asmStops := s.asmStops + 1, dispQueue := s.dispQueue + [STOP],
         asm := if s.asmStops + 1 < 2 then Collecting else Gone)
    case Consume(i) =>
      var m := s.consQueues[i][0];
      var s' := s.(consQueues := s.consQueues[i := s.consQueues[i][1..]]);
      if m == STOP then s'.(consDone := s.consDone[i := true])
      else s'.(received := s.received[i := s.received[i] + [m]])
  }

  ghost predicate Step(c: Config, s: State, s': State) {
    Shape(c, s) && exists e :: Enabled(c, s, e) && s' == Apply(c, s, e)
  }

  predicate Init(c: Config, s: State) {
    && Shape(c, s)
    && s.produced == 0 && !s.producerDone
    && s.dispQueue == [] && s.disp == Receiving && s.dispStops == 0
    && s.asmQueue == [] && s.asm == Collecting && s.asmStops == 0 && s.lost == []
    && s.drawn == [] && s.redrawn == map[]
    && forall i :: 0 <= i < c.consumerCount ==> s.consQueues[i] == [] && !s.consDone[i] && s.received[i] == []
  }

  ghost predicate IsRun(c: Config, run: seq<State>) {
    && |run| > 0 && Init(c, run[0])
    && forall i :: 0 <= i < |run| - 1 ==> Step(c, run[i], run[i + 1])
  }

  predicate AllDone(c: Config, s: State)
    requires Shape(c, s)
  {
    s.producerDone && s.disp.Exited? && s.asm.Gone? && forall i :: 0 <= i < c.consumerCount ==> s.consDone[i]
  }

  /**
   * No thread can move. The assembler decides whether to lose a message before it enqueues, so in a
   * state where only a loss could happen it may have decided to send the message back.
   */
  ghost predicate Stuck(c: Config, s: State)
    requires Shape(c, s)
  {
    forall e :: Enabled(c, s, e) ==> e.AsmLose?
  }

  // ---- Conservation of messages ----

  function DispHand(s: State): Message {
    if s.disp.Routing? || s.disp.Crashed? then s.disp.m else STOP
  }

  function AsmHand(s: State): Message {
    if s.asm.Working? then s.asm.m else STOP
  }

  /** What all messages together weigh, wherever they are. */
  function Everywhere(s: State, w: Message -> nat): nat {
    Total(s.dispQueue, w) + w(DispHand(s)) + Total(s.asmQueue, w) + w(AsmHand(s)) + Loads(s.consQueues, w)
    + Loads(s.received, w) + Total(s.lost, w)
  }

  /** A weight that ignores stops and does not depend on where a message goes. */
  ghost predicate TargetBlind(w: Message -> nat) {
    w(STOP) == 0 && forall m: Message, t: nat :: m.source == 1 ==> w(m.(target := t)) == w(m)
  }

  lemma DeliverConserves(c: Config, s: State, d: Destination, m: Message, w: Message -> nat)
    requires Shape(c, s) && Room(c, s, d)
    ensures var s' := Deliver(c, s, d, m);
            Total(s'.asmQueue, w) + Loads(s'.consQueues, w) == Total(s.asmQueue, w) + Loads(s.consQueues, w) + w(m)
  {
    match d {
      case ToConsumer(i) => LoadsAppend(s.consQueues, i, m, w);
      case ToAssembler => TotalAppend(s.asmQueue, m, w);
    }
  }

  lemma DispatcherConserves(c: Config, s: State, e: Event, w: Message -> nat)
    requires Shape(c, s) && Enabled(c, s, e) && w(STOP) == 0
    requires e.DispTake? || e.DispRoute? || e.DispReturnStop? || e.DispBroadcast?
    ensures Everywhere(Apply(c, s, e), w) == Everywhere(s, w)
  {
    hide Routes;
    match e {
      case DispTake =>
      case DispRoute =>
        if s.disp.m.target in Routes(c) {
          DeliverConserves(c, s, Routes(c)[s.disp.m.target], s.disp.m, w);
        }
      case DispReturnStop => DeliverConserves(c, s, Routes(c)[|Routes(c)|], STOP, w);
      case DispBroadcast => DeliverConserves(c, s, Routes(c)[s.disp.key], STOP, w);
    }
  }

  lemma OthersConserve(c: Config, s: State, e: Event, w: Message -> nat)
    requires Shape(c, s) && Enabled(c, s, e) && TargetBlind(w)
    requires !(e.DispTake? || e.DispRoute? || e.DispReturnStop? || e.DispBroadcast?)
    requires s.asm.Working? ==> s.asm.m.source == 1
    ensures Everywhere(Apply(c, s, e), w) == Everywhere(s, w) + (if e.Produce? then w(Message(0, 1, s.produced)) else 0)
  {
    hide Total, Loads;
    match e {
      case Produce(choice) =>
        var m := Message(0, 1, s.produced);
        TotalAppend(s.dispQueue, m.(target := ProducerTarget(choice)), w);
      case ProduceStop => TotalAppend(s.dispQueue, STOP, w);
      case AsmTake => TotalHead(s.asmQueue, w);
      case AsmLose => TotalAppend(s.lost, s.asm.m, w);
      case AsmForward(choice) => TotalAppend(s.dispQueue, s.asm.m.(target := Uint16(choice)), w);
      case AsmReturnStop => TotalAppend(s.dispQueue, STOP, w);
      case Consume(i) =>
        LoadsTake(s.consQueues, i, w);
        if s.consQueues[i][0] != STOP {
          LoadsAppend(s.received, i, s.consQueues[i][0], w);
        }
    }
  }

  /** No step creates, destroys or renumbers a message, save that the producer makes the next one. */
  lemma StepConserves(c: Config, s: State, e: Event, w: Message -> nat)
    requires Shape(c, s) && Enabled(c, s, e) && TargetBlind(w)
    requires s.disp.Routing? ==> s.disp.m != STOP
    requires s.asm.Working? ==> s.asm.m.source == 1
    ensures Everywhere(Apply(c, s, e), w) == Everywhere(s, w) + (if e.Produce? then w(Message(0, 1, s.produced)) else 0)
  {
    hide Routes, Apply, Enabled, Everywhere;
    if e.DispTake? || e.DispRoute? || e.DispReturnStop? || e.DispBroadcast? {
      DispatcherConserves(c, s, e, w);
    } else {
      OthersConserve(c, s, e, w);
    }
  }

  // ---- Who may hold what: the phases of the stop token ----

  predicate Data(c: Config, m: Message) {
    && c.packageCount > 0 && m.source == 1 && m.target <= c.consumerCount + 1
    && (c.Valid() ==> m.target >= 1)
  }

  /** A message for a consumer, never for the assembler. */
  predicate Near(c: Config, m: Message) {
    && c.packageCount > 0 && m.source == 1 && m.target <= c.consumerCount
    && (c.Valid() ==> m.target >= 1)
  }

  predicate AllData(c: Config, q: seq<Message>) {
    forall m :: m in q ==> Data(c, m)
  }

  predicate AllNear(c: Config, q: seq<Message>) {
    forall m :: m in q ==> Near(c, m)
  }

  /** One stop: whatever precedes it may go anywhere, whatever follows it goes to consumers. */
  predicate OneStop(c: Config, q: seq<Message>) {
    q != [] && if q[0] == STOP then AllNear(c, q[1..]) else Data(c, q[0]) && OneStop(c, q[1..])
  }

  predicate NearThenStop(c: Config, q: seq<Message>) {
    q != [] && q[|q| - 1] == STOP && AllNear(c, q[..|q| - 1])
  }

  predicate DataThenStop(c: Config, q: seq<Message>) {
    q != [] && q[|q| - 1] == STOP && AllData(c, q[..|q| - 1])
  }

  predicate AllStops(q: seq<Message>) {
    forall m :: m in q ==> m == STOP
  }

  /** Where the only stop token is, until the dispatcher leaves its loop. */
  datatype Phase =
    | Feeding     // not sent yet, or on its first way to the dispatcher
    | Held1       // the dispatcher holds it for the first time
    | AtAsm1      // on its first way to the assembler
    | AsmHeld1
    | Back        // on its second way to the dispatcher; the assembler will see no more data
    | Held2
    | AtAsm2      // data had come between: a second round, with no data left but in consumer queues
    | AsmHeld2
    | BackAgain
    | Held3
    | Leaving     // the dispatcher has left its loop

  predicate DispBusy(c: Config, s: State, near: bool) {
    match s.disp
    case Receiving => true
    case Routing(m) => if near then Near(c, m) else Data(c, m)
    case Crashed(m) => !c.Valid() && if near then Near(c, m) else Data(c, m)
    case _ => false
  }

  predicate AsmBusy(c: Config, s: State) {
    s.asm.Collecting? || (s.asm.Working? && Data(c, s.asm.m))
  }

  predicate PhaseInv(c: Config, s: State, phase: Phase) {
    && (!phase.Feeding? ==> s.producerDone)
    && match phase
       case Feeding =>
         && s.dispStops == 0 && s.asmStops == 0 && DispBusy(c, s, false) && AsmBusy(c, s)
         && AllData(c, s.asmQueue)
         && (if s.producerDone then OneStop(c, s.dispQueue) else AllData(c, s.dispQueue))
       case Held1 =>
         && s.dispStops == 0 && s.asmStops == 0 && s.disp.Stopping? && AsmBusy(c, s)
         && AllData(c, s.asmQueue) && AllNear(c, s.dispQueue)
       case AtAsm1 =>
         && s.dispStops <= 1 && s.asmStops == 0 && DispBusy(c, s, true) && AsmBusy(c, s)
         && DataThenStop(c, s.asmQueue) && AllNear(c, s.dispQueue)
       case AsmHeld1 =>
         && s.dispStops <= 1 && s.asmStops == 0 && DispBusy(c, s, true) && s.asm.Returning?
         && s.asmQueue == [] && AllNear(c, s.dispQueue)
       case Back =>
         && s.dispStops <= 1 && s.asmStops == 1 && DispBusy(c, s, true) && s.asm.Collecting?
         && s.asmQueue == [] && NearThenStop(c, s.dispQueue)
       case Held2 =>
         && s.dispStops <= 1 && s.asmStops == 1 && s.disp.Stopping? && s.asm.Collecting?
         && s.asmQueue == [] && s.dispQueue == []
       case AtAsm2 =>
         && s.dispStops == 1 && s.asmStops == 1 && s.disp.Receiving? && s.asm.Collecting?
         && s.asmQueue == [STOP] && s.dispQueue == []
       case AsmHeld2 =>
         && s.dispStops == 1 && s.asmStops == 1 && s.disp.Receiving? && s.asm.Returning?
         && s.asmQueue == [] && s.dispQueue == []
       case BackAgain =>
         && s.dispStops == 1 && s.disp.Receiving? && s.asm.Gone?
         && s.asmQueue == [] && s.dispQueue == [STOP]
       case Held3 =>
         && s.dispStops == 1 && s.disp.Stopping? && s.asm.Gone?
         && s.asmQueue == [] && s.dispQueue == []
       case Leaving =>
         && (s.disp.Exited? || (s.disp.Broadcasting? && 1 <= s.disp.key <= c.consumerCount + 1))
         && AllStops(s.dispQueue) && AllStops(s.asmQueue)
         && |s.asmQueue| <= (if s.disp.Exited? then 2 else 1)
         && match s.asm
            case Collecting => s.asmStops == 1 && s.dispQueue == [] && s.asmQueue != []
            case Returning => s.asmStops == 1 && s.dispQueue == []
            case Gone => |s.dispQueue| <= 1
            case Working(_) => false
  }

  function NextPhase(s: State, phase: Phase, e: Event): Phase {
    match e
    case DispTake =>
      if s.dispQueue == [] || s.dispQueue[0] != STOP then phase
      else if phase.Feeding? then Held1 else if phase.Back? then Held2 else Held3
    case DispReturnStop =>
      if phase.Held1? then AtAsm1 else if phase.Held2? && s.dispStops == 0 then AtAsm2 else Leaving
    case AsmTake =>
      if s.asmQueue == [] || s.asmQueue[0] != STOP then phase
      else if phase.AtAsm1? then AsmHeld1 else if phase.AtAsm2? then AsmHeld2 else phase
    case AsmReturnStop =>
      if phase.AsmHeld1? then Back else if phase.AsmHeld2? then BackAgain else phase
    case _ => phase
  }

  lemma {:induction false} OneStopAppend(c: Config, q: seq<Message>, m: Message)
    requires (AllData(c, q) && m == STOP) || (OneStop(c, q) && Near(c, m))
    ensures OneStop(c, q + [m])
  {
    if q == [] {
      assert q + [m] == [m];
    } else {
      assert (q + [m])[1..] == q[1..] + [m];
      assert forall x :: x in q[1..] ==> x in q;
      assert forall x :: x in q[1..] + [m] ==> x in q[1..] || x == m;
      if q[0] != STOP {
        assert q[0] in q;
        OneStopAppend(c, q[1..], m);
      }
    }
  }

  lemma {:induction false} OneStopHasOne(c: Config, q: seq<Message>)
    requires OneStop(c, q)
    ensures Total(q, IsStop) == 1
  {
    if q[0] == STOP {
      NoStops(q[1..]);
    } else {
      OneStopHasOne(c, q[1..]);
    }
  }

  lemma ThenStopTail(c: Config, q: seq<Message>)
    requires q != []
    ensures NearThenStop(c, q) && q[0] != STOP ==> Near(c, q[0]) && NearThenStop(c, q[1..])
    ensures NearThenStop(c, q) && q[0] == STOP ==> q[1..] == []
    ensures DataThenStop(c, q) && q[0] != STOP ==> Data(c, q[0]) && DataThenStop(c, q[1..])
    ensures DataThenStop(c, q) && q[0] == STOP ==> q[1..] == []
  {
    var front := q[..|q| - 1];
    if |q| > 1 {
      assert q[0] == front[0] && front[0] in front;
      assert q[1..][..|q[1..]| - 1] == front[1..];
      TailMembers(front);
    }
  }

  lemma PhaseDispTake(c: Config, s: State, phase: Phase)
    requires Shape(c, s) && PhaseInv(c, s, phase) && Enabled(c, s, DispTake)
    ensures PhaseInv(c, Apply(c, s, DispTake), NextPhase(s, phase, DispTake))
  {
    hide DataThenStop;
    TailMembers(s.dispQueue);
    ThenStopTail(c, s.dispQueue);
  }

  lemma PhaseDispRoute(c: Config, s: State, phase: Phase)
    requires Shape(c, s) && PhaseInv(c, s, phase) && Enabled(c, s, DispRoute)
    ensures PhaseInv(c, Apply(c, s, DispRoute), phase)
  {
    hide Routes, OneStop, DataThenStop, NearThenStop;
    RoutesKeys(c);
  }

  lemma ReturnStopEffect(c: Config, s: State)
    requires Shape(c, s) && Enabled(c, s, DispReturnStop)
    ensures Apply(c, s, DispReturnStop)
         == s.(asmQueue := s.asmQueue + [STOP], dispStops := s.dispStops + 1,
               disp := if s.dispStops + 1 < 2 then Receiving else Broadcasting(1))
  {
    hide Routes;
    RoutesKeys(c);
    assert Routes(c)[|Routes(c)|] == ToAssembler;
  }

  lemma ThenStopAppend(c: Config, q: seq<Message>)
    requires AllData(c, q)
    ensures DataThenStop(c, q + [STOP])
  {
    assert (q + [STOP])[..|q|] == q;
  }

  lemma PhaseDispReturnStop(c: Config, s: State, phase: Phase)
    requires Shape(c, s) && PhaseInv(c, s, phase) && Enabled(c, s, DispReturnStop)
    ensures PhaseInv(c, Apply(c, s, DispReturnStop), NextPhase(s, phase, DispReturnStop))
  {
    hide Routes, Apply, OneStop, NearThenStop, DataThenStop, AllNear, AllData, Room, Near, Data;
    ReturnStopEffect(c, s);
    assert phase.Held1? || phase.Held2? || phase.Held3?;
    if phase.Held1? {
      ThenStopAppend(c, s.asmQueue);
    }
  }

  lemma PhaseDispBroadcast(c: Config, s: State, phase: Phase)
    requires Shape(c, s) && PhaseInv(c, s, phase) && Enabled(c, s, DispBroadcast)
    ensures PhaseInv(c, Apply(c, s, DispBroadcast), phase)
  {
    hide Routes, OneStop, NearThenStop, DataThenStop;
    RoutesKeys(c);
    assert phase.Leaving?;
  }

  lemma PhaseAsmTake(c: Config, s: State, phase: Phase)
    requires Shape(c, s) && PhaseInv(c, s, phase) && Enabled(c, s, AsmTake)
    ensures PhaseInv(c, Apply(c, s, AsmTake), NextPhase(s, phase, AsmTake))
  {
    hide AllNear, OneStop;
    TailMembers(s.asmQueue);
    ThenStopTail(c, s.asmQueue);
  }

  lemma PhaseAsmForward(c: Config, s: State, phase: Phase, choice: nat)
    requires Shape(c, s) && PhaseInv(c, s, phase) && Enabled(c, s, AsmForward(choice))
    ensures PhaseInv(c, Apply(c, s, AsmForward(choice)), phase)
  {
    hide OneStop, DataThenStop, NearThenStop;
    var m := s.asm.m.(target := Uint16(choice));
    assert Near(c, m);
    if phase.Feeding? && s.producerDone {
      OneStopAppend(c, s.dispQueue, m);
    }
  }

  lemma PhaseAsmRest(c: Config, s: State, phase: Phase, e: Event)
    requires Shape(c, s) && PhaseInv(c, s, phase) && Enabled(c, s, e)
    requires e.AsmLose? || e.AsmReturnStop?
    ensures PhaseInv(c, Apply(c, s, e), NextPhase(s, phase, e))
  {
    hide OneStop, DataThenStop;
    assert (s.dispQueue + [STOP])[..|s.dispQueue|] == s.dispQueue;
  }

  lemma PhaseStepOther(c: Config, s: State, phase: Phase, e: Event)
    requires Shape(c, s) && PhaseInv(c, s, phase) && Enabled(c, s, e)
    requires e.Produce? || e.ProduceStop? || e.Consume?
    requires s.producerDone ==> s.produced == c.packageCount
    ensures PhaseInv(c, Apply(c, s, e), NextPhase(s, phase, e))
  {
    hide OneStop, NearThenStop, DataThenStop, AllNear, AllStops;
    if e.ProduceStop? {
      OneStopAppend(c, s.dispQueue, STOP);
    }
  }

  lemma PhaseStep(c: Config, s: State, phase: Phase, e: Event)
    requires Shape(c, s) && PhaseInv(c, s, phase) && Enabled(c, s, e)
    requires s.producerDone ==> s.produced == c.packageCount
    ensures PhaseInv(c, Apply(c, s, e), NextPhase(s, phase, e))
  {
    hide PhaseInv, Enabled, Apply;
    match e {
      case DispTake => PhaseDispTake(c, s, phase);
      case DispRoute => PhaseDispRoute(c, s, phase);
      case DispReturnStop => PhaseDispReturnStop(c, s, phase);
      case DispBroadcast => PhaseDispBroadcast(c, s, phase);
      case AsmTake => PhaseAsmTake(c, s, phase);
      case AsmForward(choice) => PhaseAsmForward(c, s, phase, choice);
      case AsmLose => PhaseAsmRest(c, s, phase, e);
      case AsmReturnStop => PhaseAsmRest(c, s, phase, e);
      case _ => PhaseStepOther(c, s, phase, e);
    }
  }

  // ---- The consumers ----

  predicate ForConsumer(m: Message, i: nat) {
    m.source == 1 && m.target == i + 1
  }

  /** The broadcast has served consumer i. */
  predicate Served(s: State, i: nat) {
    s.disp.Exited? || (s.disp.Broadcasting? && i + 1 < s.disp.key)
  }

  /** Consumer i gets its own messages only, and its stop message comes last. */
  ghost predicate ConsumerInv(c: Config, s: State, i: nat)
    requires Shape(c, s) && i < c.consumerCount
  {
    var q := s.consQueues[i];
    && (forall m :: m in s.received[i] ==> ForConsumer(m, i))
    && if s.consDone[i] then Served(s, i) && q == []
       else if Served(s, i) then q != [] && q[|q| - 1] == STOP && forall m :: m in q[..|q| - 1] ==> ForConsumer(m, i)
       else forall m :: m in q ==> ForConsumer(m, i)
  }

  /** The facts about the dispatcher that its consumers rely on. */
  predicate DispatcherSane(c: Config, s: State) {
    && (s.disp.Routing? ==> Data(c, s.disp.m))
    && (s.disp.Broadcasting? ==> 1 <= s.disp.key <= c.consumerCount + 1)
  }

  lemma ConsumerStepRoute(c: Config, s: State, i: nat)
    requires Shape(c, s) && DispatcherSane(c, s) && Enabled(c, s, DispRoute)
    requires i < c.consumerCount && ConsumerInv(c, s, i)
    ensures ConsumerInv(c, Apply(c, s, DispRoute), i)
  {
    hide Routes;
    RoutesKeys(c);
  }

  lemma ConsumerStepBroadcast(c: Config, s: State, i: nat)
    requires Shape(c, s) && DispatcherSane(c, s) && Enabled(c, s, DispBroadcast)
    requires i < c.consumerCount && ConsumerInv(c, s, i)
    ensures ConsumerInv(c, Apply(c, s, DispBroadcast), i)
  {
    hide Routes;
    RoutesKeys(c);
    var q := s.consQueues[i];
    assert (q + [STOP])[..|q|] == q;
  }

  lemma ConsumerStepLoop(c: Config, s: State, e: Event, i: nat)
    requires Shape(c, s) && Enabled(c, s, e) && (e.DispTake? || e.DispReturnStop?)
    requires i < c.consumerCount && ConsumerInv(c, s, i)
    ensures ConsumerInv(c, Apply(c, s, e), i)
  {
    hide Routes;
    RoutesKeys(c);
    assert e.DispReturnStop? ==> Routes(c)[|Routes(c)|] == ToAssembler;
  }

  lemma ConsumerStepConsume(c: Config, s: State, j: nat, i: nat)
    requires Shape(c, s) && Enabled(c, s, Consume(j)) && i < c.consumerCount && ConsumerInv(c, s, i)
    ensures ConsumerInv(c, Apply(c, s, Consume(j)), i)
  {
    if i == j {
      var q := s.consQueues[i];
      var front := q[..|q| - 1];
      TailMembers(q);
      if |q| == 1 {
        assert q[1..] == [];
      } else {
        assert q[0] in front;
        assert q[1..][..|q[1..]| - 1] == front[1..];
        TailMembers(front);
        assert ForConsumer(q[0], i);
      }
    }
  }

  lemma ConsumerStep(c: Config, s: State, e: Event, i: nat)
    requires Shape(c, s) && DispatcherSane(c, s) && Enabled(c, s, e)
    requires i < c.consumerCount && ConsumerInv(c, s, i)
    ensures ConsumerInv(c, Apply(c, s, e), i)
  {
    match e {
      case DispTake => ConsumerStepLoop(c, s, e, i);
      case DispReturnStop => ConsumerStepLoop(c, s, e, i);
      case DispRoute => ConsumerStepRoute(c, s, i);
      case DispBroadcast => ConsumerStepBroadcast(c, s, i);
      case Consume(j) => ConsumerStepConsume(c, s, j, i);
      case _ =>
    }
  }

  // ---- The invariant ----

  ghost predicate Conserved(s: State) {
    && Everywhere(s, IsData) == s.produced
    && forall k: nat :: Everywhere(s, HasNumber(k)) == if k < s.produced then 1 else 0
  }

  ghost predicate Inv(c: Config, s: State, phase: Phase) {
    && Shape(c, s) && PhaseInv(c, s, phase)
    && s.produced <= c.packageCount && (s.producerDone ==> s.produced == c.packageCount)
    && AllData(c, s.lost)
    && (forall i :: 0 <= i < c.consumerCount ==> ConsumerInv(c, s, i))
    && Conserved(s)
  }

  lemma InvInit(c: Config, s: State)
    requires Init(c, s)
    ensures Inv(c, s, Feeding)
  {
    LoadsOfEmpty(s.consQueues, IsData);
    LoadsOfEmpty(s.received, IsData);
    forall k: nat ensures Everywhere(s, HasNumber(k)) == 0 {
      LoadsOfEmpty(s.consQueues, HasNumber(k));
      LoadsOfEmpty(s.received, HasNumber(k));
    }
  }

  lemma HandsHoldData(c: Config, s: State, phase: Phase)
    requires PhaseInv(c, s, phase)
    ensures DispatcherSane(c, s)
    ensures s.asm.Working? ==> Data(c, s.asm.m)
  {
  }

  lemma ConservedStep(c: Config, s: State, phase: Phase, e: Event)
    requires Shape(c, s) && PhaseInv(c, s, phase) && Enabled(c, s, e) && Conserved(s)
    ensures Conserved(Apply(c, s, e))
  {
    hide PhaseInv, Everywhere, Routes;
    HandsHoldData(c, s, phase);
    RoutesKeys(c);
    StepConserves(c, s, e, IsData);
    var s' := Apply(c, s, e);
    forall k: nat ensures Everywhere(s', HasNumber(k)) == if k < s'.produced then 1 else 0 {
      StepConserves(c, s, e, HasNumber(k));
    }
  }

  lemma InvStep(c: Config, s: State, phase: Phase, e: Event)
    requires Inv(c, s, phase) && Enabled(c, s, e)
    ensures Inv(c, Apply(c, s, e), NextPhase(s, phase, e))
  {
    hide PhaseInv, ConsumerInv, Conserved, NextPhase, Routes;
    PhaseStep(c, s, phase, e);
    ConservedStep(c, s, phase, e);
    HandsHoldData(c, s, phase);
    var s' := Apply(c, s, e);
    forall i | 0 <= i < c.consumerCount ensures ConsumerInv(c, s', i) {
      ConsumerStep(c, s, e, i);
    }
  }
}
