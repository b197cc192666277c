/**
 * The bounded network: producers draw tickets from a shared counter and feed an assembler that may
 * lose messages, the assembler feeds a dispatcher, and the dispatcher feeds the consumers, all through
 * bounded queues. The producer that draws the last ticket sends the stop message. One step is one
 * draw or one queue action of one thread.
 */
module BoundPipeline {
  import opened Messages
  import opened Sums

  datatype Config = Config(packageCount: nat, producerCount: nat, consumerCount: nat, capacity: nat) {
    /** Somebody to send the stop, and keys that fit the 16 bits of a target unless there are no messages. */
    predicate Valid() {
      producerCount >= 1 && (packageCount == 0 || consumerCount <= 65535)
    }

    /** Room in the queues, and consumers for the packages. */
    predicate Roomy() {
      Valid() && capacity >= 1 && (packageCount == 0 || consumerCount >= 1)
    }

    /** The last ticket: one past the packages for every producer. */
    function LastTicket(): nat {
      packageCount + producerCount
    }
  }

  datatype ProducerPc =
    | Drawing                // about to take a ticket
    | Holding(m: Message)    // enqueues outside the lock
    | HoldingStop
    | Finished

  datatype AsmPc = Collecting | Working(m: Message) | Returning | Gone

  datatype DispPc = Receiving | Routing(m: Message) | Broadcasting(key: nat) | Exited | Crashed(m: Message)

  datatype State = State(
    producedCount: nat, producers: seq<ProducerPc>,
    asmQueue: seq<Message>, asm: AsmPc, lost: seq<Message>,
    dispQueue: seq<Message>, disp: DispPc,
    consQueues: seq<seq<Message>>, consDone: seq<bool>, received: seq<seq<Message>>,
    drawn: seq<nat>,          // history: the random number drawn for each package
    enqueued: seq<Message>,   // history: everything the producers have enqueued, in order
    forwarded: seq<Message>)  // history: everything the assembler has passed on, in order

  datatype Event =
    | Draw(p: nat, choice: nat) | Enqueue(p: nat)
    | AsmTake | AsmLose | AsmForward | AsmStop
    | DispTake | DispRoute | DispBroadcast
    | Consume(i: nat)

  predicate Shape(c: Config, s: State) {
    && |s.producers| == c.producerCount
    && |s.consQueues| == |s.consDone| == |s.received| == c.consumerCount
  }

  /** Keys 1 .. consumerCount are registered, key k for consumer k - 1. */
  predicate Registered(c: Config, key: nat) {
    1 <= key <= c.consumerCount
  }

  /** Whether a target fits depends on the 16 bits it is kept in. */
  function Target(choice: nat): nat {
    Uint16(1 + choice)
  }

  lemma TargetsAreRegistered(c: Config)
    requires c.consumerCount >= 1
    ensures (forall choice: nat :: choice < c.consumerCount ==> Registered(c, Target(choice)))
            <==> c.consumerCount <= 65535
  {
    if c.consumerCount > 65535 {
      assert Target(65535) == 0;
    }
  }

  predicate Enabled(c: Config, s: State, e: Event)
    requires Shape(c, s)
  {
    match e
    case Draw(p, choice) =>
      && p < c.producerCount && s.producers[p].Drawing?
      && (s.producedCount < c.packageCount ==> choice < c.consumerCount)
    case Enqueue(p) =>
      p < c.producerCount && (s.producers[p].Holding? || s.producers[p].HoldingStop?) && |s.asmQueue| < c.capacity
    case AsmTake => s.asm.Collecting? && s.asmQueue != []
    case AsmLose => s.asm.Working?
    case AsmForward => s.asm.Working? && |s.dispQueue| < c.capacity
    case AsmStop => s.asm.Returning? && |s.dispQueue| < c.capacity
    case DispTake => s.disp.Receiving? && s.dispQueue != []
    case DispRoute =>
      s.disp.Routing? && (Registered(c, s.disp.m.target) ==> |s.consQueues[s.disp.m.target - 1]| < c.capacity)
    case DispBroadcast =>
      s.disp.Broadcasting? && Registered(c, s.disp.key) && |s.consQueues[s.disp.key - 1]| < c.capacity
    case Consume(i) => i < c.consumerCount && !s.consDone[i] && s.consQueues[i] != []
  }

  function Deliver(c: Config, s: State, key: nat, m: Message): State
    requires Shape(c, s) && Registered(c, key)
  {
    s.(consQueues := s.consQueues[key - 1 := s.consQueues[key - 1] + [m]])
  }

  /** What a producer does with its ticket. */
  function Drawn(c: Config, ticket: nat, choice: nat): ProducerPc {
    if ticket <= c.packageCount then Holding(Message(Target(choice), 1, ticket))
    else if ticket == c.LastTicket() then HoldingStop
    else Finished
  }

  function Held(pc: ProducerPc): Message {
    if pc.Holding? then pc.m else STOP
  }

  function Apply(c: Config, s: State, e: Event): (s': State)
    requires Shape(c, s) && Enabled(c, s, e)
    ensures Shape(c, s')
  {
    match e
    case Draw(p, choice) =>
      s.(producedCount := s.producedCount + 1, producers := s.producers[p := Drawn(c, s.producedCount + 1, choice)],
         drawn := if s.producedCount < c.packageCount then s.drawn + [choice] else s.drawn)
    case Enqueue(p) =>
      var m := Held(s.producers[p]);
      s.(asmQueue := s.asmQueue + [m], enqueued := s.enqueued + [m],
         producers := s.producers[p := if s.producers[p].Holding? then Drawing else Finished])
    case AsmTake =>
      var m := s.asmQueue[0];
      s.(asmQueue := s.asmQueue[1..], asm := if m == STOP then Returning else Working(m))
    case AsmLose => s.(asm := Collecting, lost := s.lost + [s.asm.m])
    case AsmForward => s.(asm := Collecting, dispQueue := s.dispQueue + [s.asm.m], forwarded := s.forwarded + [s.asm.m])
    case AsmStop => s.(asm := Gone, dispQueue := s.dispQueue + [STOP], forwarded := s.forwarded + [STOP])
    case DispTake =>
      var m := s.dispQueue[0];
      s.(dispQueue := s.dispQueue[1..], disp := if m != STOP then Routing(m)
          else if Registered(c, 1) then Broadcasting(1) else Exited)
    case DispRoute =>
      if Registered(c, s.disp.m.target) then Deliver(c, s, s.disp.m.target, s.disp.m).(disp := Receiving)
      else s.(disp := Crashed(s.disp.m))
    case DispBroadcast =>
      Deliver(c, s, s.disp.key, STOP)
      .(disp := if Registered(c, s.disp.key + 1) then Broadcasting(s.disp.key + 1) else Exited)
    case Consume(i) =>
      var m := s.consQueues[i][0];
      var s' := s.(consQueues := s.consQueues[i := s.consQueues[i][1..]]);
      if m == STOP then s'.(consDone := s.consDone[i := true])
      else s'.(received := s.received[i := s.received[i] + [m]])
  }

  ghost predicate Step(c: Config, s: State, s': State) {
    Shape(c, s) && exists e :: Enabled(c, s, e) && s' == Apply(c, s, e)
  }

  predicate Init(c: Config, s: State) {
    && Shape(c, s)
    && s.producedCount == 0 && (forall p :: 0 <= p < c.producerCount ==> s.producers[p].Drawing?)
    && s.asmQueue == [] && s.asm == Collecting && s.lost == []
    && s.dispQueue == [] && s.disp == Receiving
    && (forall i :: 0 <= i < c.consumerCount ==> s.consQueues[i] == [] && !s.consDone[i] && s.received[i] == [])
    && s.drawn == [] && s.enqueued == [] && s.forwarded == []
  }

  ghost predicate IsRun(c: Config, run: seq<State>) {
    && |run| > 0 && Init(c, run[0])
    && forall i :: 0 <= i < |run| - 1 ==> Step(c, run[i], run[i + 1])
  }

  predicate AllDone(c: Config, s: State)
    requires Shape(c, s)
  {
    && (forall p :: 0 <= p < c.producerCount ==> s.producers[p].Finished?)
    && s.asm.Gone? && s.disp.Exited?
    && forall i :: 0 <= i < c.consumerCount ==> s.consDone[i]
  }

  /**
   * No thread can move. The assembler decides whether to lose a message before it enqueues, so in a
   * state where only a loss could happen it may have decided to pass the message on.
   */
  ghost predicate Stuck(c: Config, s: State)
    requires Shape(c, s)
  {
    forall e :: Enabled(c, s, e) ==> e.AsmLose?
  }

  // ---- Sums over the producers ----

  lemma {:induction false} OverEach(ps: seq<ProducerPc>, f: ProducerPc -> nat)
    requires forall p :: 0 <= p < |ps| ==> f(ps[p]) <= 1
    ensures Total(ps, f) <= |ps|
    ensures Total(ps, f) == |ps| <==> forall p :: 0 <= p < |ps| ==> f(ps[p]) == 1
    ensures Total(ps, f) == 0 <==> forall p :: 0 <= p < |ps| ==> f(ps[p]) == 0
  {
    if ps != [] {
      OverEach(ps[1..], f);
      assert forall p :: 0 < p < |ps| ==> ps[p] == ps[1..][p - 1];
    }
  }

  /** The producer drew a ticket beyond the packages. */
  function Late(pc: ProducerPc): nat {
    if pc.HoldingStop? || pc.Finished? then 1 else 0
  }

  function HoldsStop(pc: ProducerPc): nat {
    if pc.HoldingStop? then 1 else 0
  }

  function HoldsWeight(w: Message -> nat): ProducerPc -> nat {
    (pc: ProducerPc) => if pc.Holding? then w(pc.m) else 0
  }

  // ---- The invariant ----

  /** A target that has wrapped to 0 has no key. */
  predicate Data(c: Config, m: Message) {
    c.packageCount > 0 && m.source == 1 && m.target <= c.consumerCount && (c.consumerCount <= 65535 ==> m.target >= 1)
  }

  ghost predicate AllData(c: Config, q: seq<Message>) {
    forall m :: m in q ==> Data(c, m)
  }

  ghost predicate DataThenStop(c: Config, q: seq<Message>) {
    q != [] && q[|q| - 1] == STOP && AllData(c, q[..|q| - 1])
  }

  /** Tickets beyond the packages are the producers' last ones, so the stop is drawn when nobody holds data. */
  ghost predicate TicketInv(c: Config, s: State)
    requires Shape(c, s)
  {
    && s.producedCount <= c.LastTicket()
    && Total(s.producers, Late) == (if s.producedCount <= c.packageCount then 0 else s.producedCount - c.packageCount)
    && (forall p :: 0 <= p < c.producerCount && s.producers[p].Holding? ==> Data(c, s.producers[p].m))
    && Total(s.producers, HoldsStop) + Total(s.enqueued, IsStop)
       == (if c.producerCount > 0 && s.producedCount == c.LastTicket() then 1 else 0)
    && (if STOP in s.enqueued then DataThenStop(c, s.enqueued) else AllData(c, s.enqueued))
    && (STOP in s.enqueued ==> s.producedCount == c.LastTicket())
  }

  function DrawnPackages(c: Config, s: State): nat {
    if s.producedCount <= c.packageCount then s.producedCount else c.packageCount
  }

  /** Each number up to the counter has been drawn once. */
  ghost predicate NumberInv(c: Config, s: State)
    requires Shape(c, s)
  {
    && Total(s.producers, HoldsWeight(IsData)) + Total(s.enqueued, IsData) == DrawnPackages(c, s)
    && forall k: nat :: Total(s.producers, HoldsWeight(HasNumber(k))) + Total(s.enqueued, HasNumber(k))
                        == if 1 <= k <= DrawnPackages(c, s) then 1 else 0
  }

  /** Where the stop message is. */
  datatype Phase = NotSent | AtAssembler | AssemblerHolds | AtDispatcher | Leaving

  ghost predicate AsmBusy(c: Config, s: State) {
    s.asm.Collecting? || (s.asm.Working? && Data(c, s.asm.m))
  }

  ghost predicate DispBusy(c: Config, s: State) {
    match s.disp
    case Receiving => true
    case Routing(m) => Data(c, m)
    case Crashed(m) => Data(c, m) && !Registered(c, m.target)
    case _ => false
  }

  ghost predicate PhaseInv(c: Config, s: State, phase: Phase) {
    && (phase.NotSent? <==> STOP !in s.enqueued)
    && match phase
       case NotSent => AsmBusy(c, s) && DispBusy(c, s) && AllData(c, s.asmQueue) && AllData(c, s.dispQueue)
       case AtAssembler => AsmBusy(c, s) && DispBusy(c, s) && DataThenStop(c, s.asmQueue) && AllData(c, s.dispQueue)
       case AssemblerHolds => s.asm.Returning? && DispBusy(c, s) && s.asmQueue == [] && AllData(c, s.dispQueue)
       case AtDispatcher => s.asm.Gone? && DispBusy(c, s) && s.asmQueue == [] && DataThenStop(c, s.dispQueue)
       case Leaving =>
         && s.asm.Gone? && s.asmQueue == [] && s.dispQueue == []
         && (s.disp.Exited? || (s.disp.Broadcasting? && Registered(c, s.disp.key)))
  }

  function NextPhase(s: State, phase: Phase, e: Event): Phase {
    match e
    case Enqueue(p) => if p < |s.producers| && s.producers[p].HoldingStop? then AtAssembler else phase
    case AsmTake => if s.asmQueue != [] && s.asmQueue[0] == STOP then AssemblerHolds else phase
    case AsmStop => AtDispatcher
    case DispTake => if s.dispQueue != [] && s.dispQueue[0] == STOP then Leaving else phase
    case _ => phase
  }

  function AsmHand(s: State): Message {
    if s.asm.Working? then s.asm.m else STOP
  }

  function DispHand(s: State): Message {
    if s.disp.Routing? || s.disp.Crashed? then s.disp.m else STOP
  }

  /** The assembler passes on or loses what it takes. */
  ghost predicate FlowInv(s: State, w: Message -> nat) {
    Total(s.enqueued, w) == Total(s.asmQueue, w) + w(AsmHand(s)) + Total(s.lost, w) + Total(s.forwarded, w)
  }

  /** Counts the messages without a key. */
  function HasNoKey(c: Config): Message -> nat {
    (m: Message) => if m != STOP && !Registered(c, m.target) then 1 else 0
  }

  /** The dispatcher delivers nothing without a key. */
  ghost predicate KeyInv(c: Config, s: State) {
    Total(s.forwarded, HasNoKey(c)) == Total(s.dispQueue, HasNoKey(c)) + HasNoKey(c)(DispHand(s))
  }

  /** The messages of a queue that are addressed to consumer i, in order. */
  function Addressed(q: seq<Message>, i: nat): seq<Message> {
    if q == [] then [] else (if q[0].target == i + 1 then [q[0]] else []) + Addressed(q[1..], i)
  }

  predicate Served(s: State, i: nat) {
    s.disp.Exited? || (s.disp.Broadcasting? && i + 1 < s.disp.key)
  }

  ghost predicate ForConsumer(c: Config, m: Message, i: nat) {
    Data(c, m) && m.target == i + 1
  }

  ghost predicate AllForConsumer(c: Config, q: seq<Message>, i: nat) {
    forall m :: m in q ==> ForConsumer(c, m, i)
  }

  /** Consumer i receives what the assembler forwarded to it, in that order, and then its stop. */
  ghost predicate ConsumerInv(c: Config, s: State, i: nat)
    requires Shape(c, s) && i < c.consumerCount
  {
    var q := s.consQueues[i];
    && AllForConsumer(c, s.received[i], i)
    && (if s.consDone[i] then Served(s, i) && q == []
        else if Served(s, i) then q != [] && q[|q| - 1] == STOP && AllForConsumer(c, q[..|q| - 1], i)
        else AllForConsumer(c, q, i))
    && Addressed(s.forwarded, i)
       == s.received[i] + Addressed(q, i) + Addressed([DispHand(s)], i) + Addressed(s.dispQueue, i)
  }

  ghost predicate DataOrStop(c: Config, q: seq<Message>) {
    forall m :: m in q ==> m == STOP || Data(c, m)
  }

  ghost predicate Inv(c: Config, s: State, phase: Phase) {
    && Shape(c, s) && TicketInv(c, s) && NumberInv(c, s) && PhaseInv(c, s, phase) && KeyInv(c, s)
    && FlowInv(s, IsData) && (forall k: nat :: FlowInv(s, HasNumber(k)))
    && AllData(c, s.lost) && DataOrStop(c, s.forwarded)
    && forall i :: 0 <= i < c.consumerCount ==> ConsumerInv(c, s, i)
  }

  // ---- Sequences of messages ----

  lemma ThenStopTail(c: Config, q: seq<Message>)
    requires DataThenStop(c, q)
    ensures q[0] != STOP ==> Data(c, q[0]) && DataThenStop(c, q[1..])
    ensures q[0] == STOP ==> q[1..] == []
  {
    var front := q[..|q| - 1];
    if |q| > 1 {
      assert q[0] == front[0] && front[0] in front;
      assert q[1..][..|q[1..]| - 1] == front[1..];
      TailMembers(front);
    }
  }

  lemma ThenStopAppend(c: Config, q: seq<Message>)
    requires AllData(c, q)
    ensures DataThenStop(c, q + [STOP])
  {
    assert (q + [STOP])[..|q|] == q;
  }

  lemma AddressedOne(m: Message, i: nat)
    ensures Addressed([], i) == []
    ensures Addressed([m], i) == if m.target == i + 1 then [m] else []
  {
    assert [m][1..] == [];
  }

  lemma AddressedHead(q: seq<Message>, i: nat)
    requires q != []
    ensures Addressed(q, i) == Addressed([q[0]], i) + Addressed(q[1..], i)
  {
    AddressedOne(q[0], i);
  }

  lemma {:induction false} AddressedAppend(q: seq<Message>, m: Message, i: nat)
    ensures Addressed(q + [m], i) == Addressed(q, i) + Addressed([m], i)
  {
    hide Addressed;
    if q == [] {
      AddressedOne(m, i);
      assert q + [m] == [m];
    } else {
      assert (q + [m])[1..] == q[1..] + [m];
      AddressedHead(q, i);
      AddressedHead(q + [m], i);
      AddressedAppend(q[1..], m, i);
    }
  }

  // ---- Producers ----

  lemma DrawKeepsTickets(c: Config, s: State, p: nat, choice: nat)
    requires Shape(c, s) && Enabled(c, s, Draw(p, choice)) && TicketInv(c, s)
    ensures TicketInv(c, Apply(c, s, Draw(p, choice)))
  {
    hide AllData, DataThenStop;
    var pc := Drawn(c, s.producedCount + 1, choice);
    TotalUpdate(s.producers, p, pc, Late);
    TotalUpdate(s.producers, p, pc, HoldsStop);
    OverEach(s.producers, Late);
    // p itself is not late, so not all tickets beyond the packages have been drawn
    assert Late(s.producers[p]) == 0;
  }

  lemma StopIsNotData(c: Config)
    ensures !Data(c, STOP)
  {
  }

  /** A producer that still holds a package has a ticket to draw, so the stop is not in yet. */
  lemma DataEnqueueKeepsTickets(c: Config, s: State, p: nat)
    requires Shape(c, s) && Enabled(c, s, Enqueue(p)) && TicketInv(c, s) && s.producers[p].Holding?
    ensures TicketInv(c, Apply(c, s, Enqueue(p)))
    ensures STOP !in s.enqueued
  {
    hide Data;
    var m := s.producers[p].m;
    TotalUpdate(s.producers, p, Drawing, Late);
    TotalUpdate(s.producers, p, Drawing, HoldsStop);
    OverEach(s.producers, Late);
    TotalAppend(s.enqueued, m, IsStop);
    StopIsNotData(c);
    assert Late(s.producers[p]) == 0;
  }

  /** While a producer holds the stop it is not in. */
  lemma StopIsStillHeld(c: Config, s: State, p: nat)
    requires Shape(c, s) && TicketInv(c, s) && p < c.producerCount && s.producers[p].HoldingStop?
    ensures STOP !in s.enqueued
  {
    hide Data, AllData, DataThenStop, Total;
    TotalAtLeast(s.producers, p, HoldsStop);
    NoStops(s.enqueued);
  }

  lemma StopEnqueueKeepsTickets(c: Config, s: State, p: nat)
    requires Shape(c, s) && Enabled(c, s, Enqueue(p)) && TicketInv(c, s) && s.producers[p].HoldingStop?
    ensures TicketInv(c, Apply(c, s, Enqueue(p)))
    ensures STOP !in s.enqueued
  {
    hide Data, AllData, DataThenStop, Total;
    StopIsStillHeld(c, s, p);
    ThenStopAppend(c, s.enqueued);
    TotalUpdate(s.producers, p, Finished, Late);
    TotalUpdate(s.producers, p, Finished, HoldsStop);
    TotalAppend(s.enqueued, STOP, IsStop);
  }

  lemma EnqueueKeepsTickets(c: Config, s: State, p: nat)
    requires Shape(c, s) && Enabled(c, s, Enqueue(p)) && TicketInv(c, s)
    ensures TicketInv(c, Apply(c, s, Enqueue(p)))
    ensures STOP !in s.enqueued
  {
    if s.producers[p].Holding? {
      DataEnqueueKeepsTickets(c, s, p);
    } else {
      StopEnqueueKeepsTickets(c, s, p);
    }
  }

  lemma ProducersKeepTickets(c: Config, s: State, e: Event)
    requires Shape(c, s) && Enabled(c, s, e) && TicketInv(c, s)
    requires e.Draw? || e.Enqueue?
    ensures TicketInv(c, Apply(c, s, e))
  {
    if e.Draw? {
      DrawKeepsTickets(c, s, e.p, e.choice);
    } else {
      EnqueueKeepsTickets(c, s, e.p);
    }
  }

  lemma ProducersKeepNumbers(c: Config, s: State, e: Event, w: Message -> nat)
    requires Shape(c, s) && Enabled(c, s, e) && TicketInv(c, s)
    requires e.Draw? || e.Enqueue?
    requires w(STOP) == 0
    ensures var s' := Apply(c, s, e);
            Total(s'.producers, HoldsWeight(w)) + Total(s'.enqueued, w)
            == Total(s.producers, HoldsWeight(w)) + Total(s.enqueued, w)
               + (if e.Draw? && s.producedCount < c.packageCount
                  then w(Message(Target(e.choice), 1, s.producedCount + 1)) else 0)
  {
    match e {
      case Draw(p, choice) =>
        TotalUpdate(s.producers, p, Drawn(c, s.producedCount + 1, choice), HoldsWeight(w));
      case Enqueue(p) =>
        TotalUpdate(s.producers, p, if s.producers[p].Holding? then Drawing else Finished, HoldsWeight(w));
        TotalAppend(s.enqueued, Held(s.producers[p]), w);
    }
  }

  lemma NumberStep(c: Config, s: State, e: Event)
    requires Shape(c, s) && Enabled(c, s, e) && TicketInv(c, s) && NumberInv(c, s)
    ensures NumberInv(c, Apply(c, s, e))
  {
    hide TicketInv, Total;
    if e.Draw? || e.Enqueue? {
      var s' := Apply(c, s, e);
      ProducersKeepNumbers(c, s, e, IsData);
      forall k: nat
        ensures Total(s'.producers, HoldsWeight(HasNumber(k))) + Total(s'.enqueued, HasNumber(k))
             == if 1 <= k <= DrawnPackages(c, s') then 1 else 0
      {
        ProducersKeepNumbers(c, s, e, HasNumber(k));
      }
    }
  }

  // ---- Phases ----

  lemma TicketData(c: Config, s: State, p: nat)
    requires Shape(c, s) && TicketInv(c, s) && p < c.producerCount
    ensures s.producers[p].Holding? ==> Data(c, s.producers[p].m)
  {
  }

  lemma PhaseEnqueue(c: Config, s: State, phase: Phase, p: nat)
    requires Shape(c, s) && PhaseInv(c, s, phase) && TicketInv(c, s) && Enabled(c, s, Enqueue(p))
    ensures PhaseInv(c, Apply(c, s, Enqueue(p)), NextPhase(s, phase, Enqueue(p)))
  {
    hide TicketInv;
    EnqueueKeepsTickets(c, s, p);
    assert phase.NotSent?;
    TicketData(c, s, p);
    if s.producers[p].HoldingStop? {
      ThenStopAppend(c, s.asmQueue);
    }
  }

  lemma DataHead(c: Config, q: seq<Message>)
    requires AllData(c, q) && q != []
    ensures q[0] != STOP && Data(c, q[0]) && AllData(c, q[1..])
  {
    TailMembers(q);
  }

  lemma DataAppend(c: Config, q: seq<Message>, m: Message)
    requires AllData(c, q) && Data(c, m)
    ensures AllData(c, q + [m])
  {
  }

  lemma PhaseAsmTake(c: Config, s: State, phase: Phase)
    requires Shape(c, s) && PhaseInv(c, s, phase) && Enabled(c, s, AsmTake)
    ensures PhaseInv(c, Apply(c, s, AsmTake), NextPhase(s, phase, AsmTake))
  {
    hide Data, AllData, DataThenStop;
    StopIsNotData(c);
    if phase.AtAssembler? {
      ThenStopTail(c, s.asmQueue);
    } else {
      assert phase.NotSent?;
      DataHead(c, s.asmQueue);
    }
  }

  lemma PhaseAssembler(c: Config, s: State, phase: Phase, e: Event)
    requires Shape(c, s) && PhaseInv(c, s, phase) && Enabled(c, s, e)
    requires e.AsmTake? || e.AsmLose? || e.AsmForward? || e.AsmStop?
    ensures PhaseInv(c, Apply(c, s, e), NextPhase(s, phase, e))
  {
    hide Data, AllData, DataThenStop;
    if e.AsmTake? {
      PhaseAsmTake(c, s, phase);
    } else if e.AsmForward? {
      DataAppend(c, s.dispQueue, s.asm.m);
    } else if e.AsmStop? {
      ThenStopAppend(c, s.dispQueue);
    }
  }

  lemma PhaseDispatcher(c: Config, s: State, phase: Phase, e: Event)
    requires Shape(c, s) && PhaseInv(c, s, phase) && Enabled(c, s, e)
    requires e.DispTake? || e.DispRoute? || e.DispBroadcast?
    ensures PhaseInv(c, Apply(c, s, e), NextPhase(s, phase, e))
  {
    if e.DispTake? {
      TailMembers(s.dispQueue);
      if phase.AtDispatcher? {
        ThenStopTail(c, s.dispQueue);
      }
    }
  }

  lemma PhaseStep(c: Config, s: State, phase: Phase, e: Event)
    requires Shape(c, s) && PhaseInv(c, s, phase) && TicketInv(c, s) && Enabled(c, s, e)
    ensures PhaseInv(c, Apply(c, s, e), NextPhase(s, phase, e))
  {
    hide TicketInv, AllData, DataThenStop;
    match e {
      case Draw(_, _) =>
      case Enqueue(p) => PhaseEnqueue(c, s, phase, p);
      case Consume(_) =>
      case DispTake => PhaseDispatcher(c, s, phase, e);
      case DispRoute => PhaseDispatcher(c, s, phase, e);
      case DispBroadcast => PhaseDispatcher(c, s, phase, e);
      case _ => PhaseAssembler(c, s, phase, e);
    }
  }

  // ---- Flow through the assembler ----

  lemma FlowStep(c: Config, s: State, e: Event, w: Message -> nat)
    requires Shape(c, s) && Enabled(c, s, e) && w(STOP) == 0 && FlowInv(s, w)
    ensures FlowInv(Apply(c, s, e), w)
  {
    match e {
      case Enqueue(p) =>
        TotalAppend(s.asmQueue, Held(s.producers[p]), w);
        TotalAppend(s.enqueued, Held(s.producers[p]), w);
      case AsmTake =>
      case AsmLose => TotalAppend(s.lost, s.asm.m, w);
      case AsmForward => TotalAppend(s.forwarded, s.asm.m, w);
      case AsmStop => TotalAppend(s.forwarded, STOP, w);
      case _ =>
    }
  }

  lemma KeyStep(c: Config, s: State, phase: Phase, e: Event)
    requires Shape(c, s) && Enabled(c, s, e) && PhaseInv(c, s, phase) && KeyInv(c, s)
    ensures KeyInv(c, Apply(c, s, e))
  {
    hide AllData, DataThenStop;
    match e {
      case AsmForward =>
        TotalAppend(s.forwarded, s.asm.m, HasNoKey(c));
        TotalAppend(s.dispQueue, s.asm.m, HasNoKey(c));
      case AsmStop =>
        TotalAppend(s.forwarded, STOP, HasNoKey(c));
        TotalAppend(s.dispQueue, STOP, HasNoKey(c));
      case DispTake => TotalHead(s.dispQueue, HasNoKey(c));
      case _ =>
    }
  }

  // ---- Consumers ----

  /** The facts about the dispatcher that its consumers rely on. */
  ghost predicate DispatcherSane(c: Config, s: State) {
    && (s.disp.Routing? ==> Data(c, s.disp.m))
    && (s.disp.Broadcasting? ==> Registered(c, s.disp.key))
  }

  lemma ConsumerStepAssembler(c: Config, s: State, e: Event, i: nat)
    requires Shape(c, s) && Enabled(c, s, e) && (e.AsmForward? || e.AsmStop?)
    requires i < c.consumerCount && ConsumerInv(c, s, i)
    ensures ConsumerInv(c, Apply(c, s, e), i)
  {
    hide AllForConsumer, Addressed;
    var m := if e.AsmForward? then s.asm.m else STOP;
    AddressedAppend(s.forwarded, m, i);
    AddressedAppend(s.dispQueue, m, i);
  }

  lemma ConsumerStepTake(c: Config, s: State, i: nat)
    requires Shape(c, s) && Enabled(c, s, DispTake)
    requires i < c.consumerCount && ConsumerInv(c, s, i)
    ensures ConsumerInv(c, Apply(c, s, DispTake), i)
  {
    hide AllForConsumer, Addressed;
    AddressedHead(s.dispQueue, i);
    AddressedOne(STOP, i);
  }

  lemma ConsumerStepRoute(c: Config, s: State, i: nat)
    requires Shape(c, s) && Enabled(c, s, DispRoute) && DispatcherSane(c, s)
    requires i < c.consumerCount && ConsumerInv(c, s, i)
    ensures ConsumerInv(c, Apply(c, s, DispRoute), i)
  {
    hide Addressed;
    AddressedAppend(s.consQueues[i], s.disp.m, i);
    AddressedOne(s.disp.m, i);
    AddressedOne(STOP, i);
  }

  lemma ConsumerStepBroadcast(c: Config, s: State, i: nat)
    requires Shape(c, s) && Enabled(c, s, DispBroadcast) && DispatcherSane(c, s)
    requires i < c.consumerCount && ConsumerInv(c, s, i)
    ensures ConsumerInv(c, Apply(c, s, DispBroadcast), i)
  {
    hide AllForConsumer, Addressed;
    var q := s.consQueues[i];
    AddressedAppend(q, STOP, i);
    AddressedOne(STOP, i);
    assert (q + [STOP])[..|q|] == q;
  }

  /** Taking the first message of a queue that ends with a stop. */
  lemma LastStopTail(c: Config, q: seq<Message>, i: nat)
    requires q != [] && q[|q| - 1] == STOP && AllForConsumer(c, q[..|q| - 1], i)
    ensures q[0] == STOP ==> q == [STOP]
    ensures q[0] != STOP ==> |q| > 1 && ForConsumer(c, q[0], i) && AllForConsumer(c, q[1..][..|q| - 2], i)
  {
    hide Data;
    StopIsNotData(c);
    var front := q[..|q| - 1];
    if |q| > 1 {
      assert q[0] == front[0] && ForConsumer(c, front[0], i);
      assert q[1..][..|q| - 2] == front[1..];
      TailMembers(front);
    }
  }

  /** Taking the first message of a queue without a stop, and keeping it. */
  lemma ForConsumerTail(c: Config, received: seq<Message>, q: seq<Message>, i: nat)
    requires AllForConsumer(c, received, i) && q != []
    ensures ForConsumer(c, q[0], i) ==> AllForConsumer(c, received + [q[0]], i)
    ensures AllForConsumer(c, q, i) ==> ForConsumer(c, q[0], i) && AllForConsumer(c, q[1..], i)
  {
    TailMembers(q);
  }

  lemma OwnConsume(c: Config, s: State, i: nat)
    requires Shape(c, s) && Enabled(c, s, Consume(i)) && ConsumerInv(c, s, i)
    ensures ConsumerInv(c, Apply(c, s, Consume(i)), i)
  {
    hide Addressed, Data, AllForConsumer;
    var q := s.consQueues[i];
    StopIsNotData(c);
    ForConsumerTail(c, s.received[i], q, i);
    AddressedHead(q, i);
    AddressedOne(q[0], i);
    if q[|q| - 1] == STOP && AllForConsumer(c, q[..|q| - 1], i) {
      LastStopTail(c, q, i);
    }
  }

  lemma ConsumerStepConsume(c: Config, s: State, j: nat, i: nat)
    requires Shape(c, s) && Enabled(c, s, Consume(j)) && i < c.consumerCount && ConsumerInv(c, s, i)
    ensures ConsumerInv(c, Apply(c, s, Consume(j)), i)
  {
    hide Addressed, AllForConsumer;
    if i == j {
      OwnConsume(c, s, i);
    }
  }

  lemma ConsumerStep(c: Config, s: State, e: Event, i: nat)
    requires Shape(c, s) && Enabled(c, s, e) && DispatcherSane(c, s)
    requires i < c.consumerCount && ConsumerInv(c, s, i)
    ensures ConsumerInv(c, Apply(c, s, e), i)
  {
    hide AllForConsumer, Addressed;
    match e {
      case AsmForward => ConsumerStepAssembler(c, s, e, i);
      case AsmStop => ConsumerStepAssembler(c, s, e, i);
      case DispTake => ConsumerStepTake(c, s, i);
      case DispRoute => ConsumerStepRoute(c, s, i);
      case DispBroadcast => ConsumerStepBroadcast(c, s, i);
      case Consume(j) => ConsumerStepConsume(c, s, j, i);
      case _ =>
    }
  }

  // ---- The invariant over a run ----

  lemma ProducersInit(c: Config, s: State)
    requires Init(c, s)
    ensures TicketInv(c, s) && NumberInv(c, s)
  {
    OverEach(s.producers, Late);
    OverEach(s.producers, HoldsStop);
    OverEach(s.producers, HoldsWeight(IsData));
    forall k: nat ensures Total(s.producers, HoldsWeight(HasNumber(k))) == 0 {
      OverEach(s.producers, HoldsWeight(HasNumber(k)));
    }
  }

  lemma InvInit(c: Config, s: State)
    requires Init(c, s)
    ensures Inv(c, s, NotSent)
  {
    hide TicketInv, NumberInv;
    ProducersInit(c, s);
    forall i | 0 <= i < c.consumerCount ensures ConsumerInv(c, s, i) {
      AddressedOne(STOP, i);
    }
  }

  lemma TicketStep(c: Config, s: State, e: Event)
    requires Shape(c, s) && Enabled(c, s, e) && TicketInv(c, s)
    ensures TicketInv(c, Apply(c, s, e))
  {
    hide Total, AllData, DataThenStop;
    if e.Draw? || e.Enqueue? {
      ProducersKeepTickets(c, s, e);
    }
  }

  lemma HandsHoldData(c: Config, s: State, phase: Phase)
    requires PhaseInv(c, s, phase)
    ensures DispatcherSane(c, s)
    ensures s.asm.Working? ==> Data(c, s.asm.m)
  {
  }

  lemma InvStep(c: Config, s: State, phase: Phase, e: Event)
    requires Inv(c, s, phase) && Enabled(c, s, e)
    ensures Inv(c, Apply(c, s, e), NextPhase(s, phase, e))
  {
    hide TicketInv, NumberInv, PhaseInv, FlowInv, KeyInv, ConsumerInv, NextPhase, Data;
    TicketStep(c, s, e);
    NumberStep(c, s, e);
    PhaseStep(c, s, phase, e);
    HandsHoldData(c, s, phase);
    KeyStep(c, s, phase, e);
    var s' := Apply(c, s, e);
    FlowStep(c, s, e, IsData);
    forall k: nat ensures FlowInv(s', HasNumber(k)) {
      FlowStep(c, s, e, HasNumber(k));
    }
    forall i | 0 <= i < c.consumerCount ensures ConsumerInv(c, s', i) {
      ConsumerStep(c, s, e, i);
    }
  }

  // ---- Progress and a bound on every run ----

  lemma ConsumersStuck(c: Config, s: State, phase: Phase)
    requires Inv(c, s, phase) && Stuck(c, s)
    ensures forall i :: 0 <= i < c.consumerCount ==> s.consQueues[i] == []
  {
    hide NumberInv, FlowInv, TicketInv, PhaseInv, AllForConsumer, Addressed;
    forall i | 0 <= i < c.consumerCount ensures s.consQueues[i] == [] {
      assert !Enabled(c, s, Consume(i));
      assert ConsumerInv(c, s, i);
    }
  }

  lemma ServedConsumer(c: Config, s: State, i: nat)
    requires Shape(c, s) && i < c.consumerCount && ConsumerInv(c, s, i) && s.disp.Exited?
    ensures s.consDone[i] || s.consQueues[i] != []
  {
    hide AllForConsumer, Addressed;
  }

  /** Once all producers have finished, the stop is in. */
  lemma StopWasSent(c: Config, s: State)
    requires c.producerCount >= 1 && Shape(c, s) && TicketInv(c, s)
    requires forall p :: 0 <= p < c.producerCount ==> s.producers[p].Finished?
    ensures STOP in s.enqueued && s.producedCount == c.LastTicket()
  {
    OverEach(s.producers, Late);
    OverEach(s.producers, HoldsStop);
    NoStops(s.enqueued);
  }

  /** When no thread can move, all have finished: the bounded queues never lock the pipeline. */
  lemma StuckIsDone(c: Config, s: State, phase: Phase)
    requires c.Roomy() && Inv(c, s, phase) && Stuck(c, s)
    ensures AllDone(c, s)
  {
    hide NumberInv, FlowInv, ConsumerInv, TicketInv, AllData, AllForConsumer;
    ConsumersStuck(c, s, phase);
    assert !Enabled(c, s, DispTake) && !Enabled(c, s, DispRoute) && !Enabled(c, s, DispBroadcast);
    assert !Enabled(c, s, AsmTake) && !Enabled(c, s, AsmForward) && !Enabled(c, s, AsmStop);
    forall p | 0 <= p < c.producerCount ensures s.producers[p].Finished? {
      assert !Enabled(c, s, Draw(p, 0)) && !Enabled(c, s, Enqueue(p));
    }
    StopWasSent(c, s);
    assert phase.Leaving?;
    forall i | 0 <= i < c.consumerCount ensures s.consDone[i] {
      ServedConsumer(c, s, i);
    }
  }

  function Stage(level: nat): Message -> nat {
    (m: Message) => if m == STOP then 0 else level
  }

  function ProducerRank(pc: ProducerPc): nat {
    if pc.Holding? then 7 else if pc.HoldingStop? then 1 else 0
  }

  /** Queue actions and draws still ahead. */
  function Rank(c: Config, s: State): int {
    8 * (c.LastTicket() - s.producedCount) + Total(s.producers, ProducerRank)
    + Total(s.asmQueue, Stage(6)) + Stage(5)(AsmHand(s))
    + Total(s.dispQueue, Stage(4)) + Stage(3)(DispHand(s)) + Loads(s.consQueues, Stage(2))
    + (match s.asm case Collecting => 2 case Working(_) => 2 case Returning => 1 case Gone => 0)
    + (match s.disp
       case Receiving => c.consumerCount + 2
       case Routing(_) => c.consumerCount + 2
       case Broadcasting(key) => c.consumerCount + 2 - key
       case Exited => 0
       case Crashed(_) => 0)
    + Total(s.consDone, Unfinished)
  }

  lemma RankDropsProducer(c: Config, s: State, e: Event)
    requires Shape(c, s) && Enabled(c, s, e) && TicketInv(c, s)
    requires e.Draw? || e.Enqueue?
    ensures Rank(c, Apply(c, s, e)) < Rank(c, s)
  {
    hide TicketInv, AllData, DataThenStop, Total, Loads;
    match e {
      case Draw(p, choice) =>
        TotalUpdate(s.producers, p, Drawn(c, s.producedCount + 1, choice), ProducerRank);
      case Enqueue(p) =>
        TotalUpdate(s.producers, p, if s.producers[p].Holding? then Drawing else Finished, ProducerRank);
        TotalAppend(s.asmQueue, Held(s.producers[p]), Stage(6));
        TicketData(c, s, p);
    }
  }

  lemma RankDropsAssembler(c: Config, s: State, phase: Phase, e: Event)
    requires Shape(c, s) && Enabled(c, s, e) && PhaseInv(c, s, phase)
    requires e.AsmTake? || e.AsmLose? || e.AsmForward? || e.AsmStop?
    ensures Rank(c, Apply(c, s, e)) < Rank(c, s)
  {
    hide AllData, DataThenStop, Total, Loads;
    HandsHoldData(c, s, phase);
    match e {
      case AsmTake => TotalHead(s.asmQueue, Stage(6));
      case AsmLose =>
      case AsmForward => TotalAppend(s.dispQueue, s.asm.m, Stage(4));
      case AsmStop => TotalAppend(s.dispQueue, STOP, Stage(4));
    }
  }
  lemma RankDropsDownstream(c: Config, s: State, phase: Phase, e: Event)
    requires Shape(c, s) && Enabled(c, s, e) && PhaseInv(c, s, phase)
    requires e.DispTake? || e.DispRoute? || e.DispBroadcast? || e.Consume?
    ensures Rank(c, Apply(c, s, e)) < Rank(c, s)
  {
    hide AllData, DataThenStop, Total, Loads;
    HandsHoldData(c, s, phase);
    match e {
      case DispTake => TotalHead(s.dispQueue, Stage(4));
      case DispRoute =>
        if Registered(c, s.disp.m.target) {
          LoadsAppend(s.consQueues, s.disp.m.target - 1, s.disp.m, Stage(2));
        }
      case DispBroadcast => LoadsAppend(s.consQueues, s.disp.key - 1, STOP, Stage(2));
      case Consume(i) =>
        LoadsTake(s.consQueues, i, Stage(2));
        if s.consQueues[i][0] == STOP {
          TotalUpdate(s.consDone, i, true, Unfinished);
        }
    }
  }

  lemma RankNotNegative(c: Config, s: State, phase: Phase)
    requires Inv(c, s, phase)
    ensures 0 <= Rank(c, s)
  {
    hide NumberInv, FlowInv, ConsumerInv, AllData, DataThenStop;
  }

  lemma {:induction false} RunInv(c: Config, run: seq<State>) returns (phase: Phase)
    requires IsRun(c, run)
    ensures Inv(c, run[|run| - 1], phase)
    ensures |run| - 1 + Rank(c, run[|run| - 1]) <= Rank(c, run[0])
    decreases |run|
  {
    hide Init, Enabled, Apply, Rank, NumberInv, FlowInv, ConsumerInv, TicketInv, PhaseInv;
    if |run| == 1 {
      InvInit(c, run[0]);
      phase := NotSent;
    } else {
      phase := RunInv(c, run[..|run| - 1]);
      var s, s' := run[|run| - 2], run[|run| - 1];
      assert Step(c, run[|run| - 2], run[|run| - 2 + 1]);
      var e :| Enabled(c, s, e) && s' == Apply(c, s, e);
      InvStep(c, s, phase, e);
      if e.Draw? || e.Enqueue? {
        RankDropsProducer(c, s, e);
      } else if e.AsmTake? || e.AsmLose? || e.AsmForward? || e.AsmStop? {
        RankDropsAssembler(c, s, phase, e);
      } else {
        RankDropsDownstream(c, s, phase, e);
      }
      phase := NextPhase(s, phase, e);
    }
  }

  // ---- Main results, over every run ----

  lemma EnqueuedFacts(c: Config, s: State)
    requires Shape(c, s) && TicketInv(c, s) && NumberInv(c, s)
    ensures Total(s.enqueued, IsStop) <= 1
    ensures forall k: nat :: Total(s.enqueued, HasNumber(k)) <= if 1 <= k <= c.packageCount then 1 else 0
    ensures STOP in s.enqueued ==>
              && s.enqueued[|s.enqueued| - 1] == STOP
              && Total(s.enqueued, IsData) == c.packageCount && |s.enqueued| == c.packageCount + 1
              && forall k: nat :: 1 <= k <= c.packageCount ==> Total(s.enqueued, HasNumber(k)) == 1
  {
    hide AllData;
    if STOP in s.enqueued {
      OverEach(s.producers, Late);
      assert forall p :: 0 <= p < c.producerCount ==> Late(s.producers[p]) == 1;
      OverEach(s.producers, HoldsWeight(IsData));
      forall k: nat ensures Total(s.producers, HoldsWeight(HasNumber(k))) == 0 {
        OverEach(s.producers, HoldsWeight(HasNumber(k)));
      }
      NoStops(s.enqueued);
      LoadIsSize(s.enqueued);
    }
  }

  /**
   * In every reachable state the stop message has been enqueued at most once, and if it has, it came
   * after every package of every producer: packages 1 .. packageCount once each, then the stop.
   */
  lemma StopComesLast(c: Config, run: seq<State>)
    requires IsRun(c, run)
    ensures var s := run[|run| - 1];
            && Total(s.enqueued, IsStop) <= 1
            && (forall k: nat :: Total(s.enqueued, HasNumber(k)) <= if 1 <= k <= c.packageCount then 1 else 0)
            && (STOP in s.enqueued ==>
                  && s.enqueued[|s.enqueued| - 1] == STOP
                  && |s.enqueued| == c.packageCount + 1
                  && forall k: nat :: 1 <= k <= c.packageCount ==> Total(s.enqueued, HasNumber(k)) == 1)
  {
    hide FlowInv, ConsumerInv, PhaseInv, AllData;
    var phase := RunInv(c, run);
    EnqueuedFacts(c, run[|run| - 1]);
  }

  lemma AllFinishedDrew(c: Config, s: State)
    requires Shape(c, s) && TicketInv(c, s) && NumberInv(c, s) && STOP in s.enqueued
    ensures Total(s.enqueued, IsData) == c.packageCount
    ensures forall k: nat :: Total(s.enqueued, HasNumber(k)) == if 1 <= k <= c.packageCount then 1 else 0
  {
    EnqueuedFacts(c, s);
  }

  lemma FinalState(c: Config, s: State, phase: Phase)
    requires Inv(c, s, phase) && AllDone(c, s)
    ensures s.asmQueue == [] && s.dispQueue == []
    ensures forall i :: 0 <= i < c.consumerCount ==> s.consQueues[i] == []
    ensures forall i :: 0 <= i < c.consumerCount ==> s.received[i] == Addressed(s.forwarded, i)
    ensures Total(s.forwarded, HasNoKey(c)) == 0
    ensures Total(s.forwarded, IsData) + |s.lost| == c.packageCount
    ensures forall k: nat :: Total(s.forwarded, HasNumber(k)) + Total(s.lost, HasNumber(k))
                             == if 1 <= k <= c.packageCount then 1 else 0
  {
    hide TicketInv, NumberInv;
    forall i | 0 <= i < c.consumerCount ensures s.consQueues[i] == [] && s.received[i] == Addressed(s.forwarded, i) {
      assert ConsumerInv(c, s, i);
      AddressedOne(STOP, i);
    }
    NoStops(s.lost);
    LoadIsSize(s.lost);
    AllFinishedDrew(c, s);
    forall k: nat
      ensures Total(s.forwarded, HasNumber(k)) + Total(s.lost, HasNumber(k))
              == if 1 <= k <= c.packageCount then 1 else 0
    {
      assert FlowInv(s, HasNumber(k));
    }
  }

  function Shares(c: Config, q: seq<Message>): seq<seq<Message>> {
    seq(c.consumerCount, i requires 0 <= i < c.consumerCount => Addressed(q, i))
  }

  /** The first message belongs to the share of its addressee. */
  lemma ShareOfHead(c: Config, q: seq<Message>, j: nat)
    requires q != [] && j < c.consumerCount
    ensures var rest := Shares(c, q[1..])[j];
            Shares(c, q)[j] == if q[0].target == j + 1 then [q[0]] + rest else rest
  {
    assert [] + Shares(c, q[1..])[j] == Shares(c, q[1..])[j];
  }

  /** Every data message with a key has one addressee, so the consumers' shares add up. */
  lemma {:induction false} SharesAddUp(c: Config, q: seq<Message>)
    requires DataOrStop(c, q) && Total(q, HasNoKey(c)) == 0
    ensures TotalSize(Shares(c, q)) == Total(q, IsData)
  {
    hide Addressed, TotalSize, Data;
    if q == [] {
      NoShares(c);
    } else {
      TailMembers(q);
      SharesAddUp(c, q[1..]);
      var before, m := Shares(c, q[1..]), q[0];
      forall j | 0 <= j < c.consumerCount
        ensures Shares(c, q)[j] == if m.target == j + 1 then [m] + before[j] else before[j]
      {
        ShareOfHead(c, q, j);
      }
      if m == STOP {
        assert Shares(c, q) == before;
      } else {
        var i := m.target - 1;
        assert Shares(c, q) == before[i := [m] + before[i]];
        TotalSizeUpdate(before, i, [m] + before[i]);
      }
    }
  }

  lemma NoShares(c: Config)
    ensures TotalSize(Shares(c, [])) == 0
  {
    AllEmpty(Shares(c, []));
  }
  lemma ReceivedIsForwarded(c: Config, s: State)
    requires Shape(c, s) && DataOrStop(c, s.forwarded) && Total(s.forwarded, HasNoKey(c)) == 0
    requires forall i :: 0 <= i < c.consumerCount ==> s.received[i] == Addressed(s.forwarded, i)
    ensures TotalSize(s.received) == Total(s.forwarded, IsData)
  {
    assert s.received == Shares(c, s.forwarded);
    SharesAddUp(c, s.forwarded);
  }

  /**
   * End to end: when all threads have finished, every package was received once by the consumer it
   * was addressed to or lost once by the assembler, the printed counts add up, and each consumer got
   * exactly what the assembler forwarded to it, in that order.
   */
  lemma PipelineDelivers(c: Config, run: seq<State>)
    requires IsRun(c, run)
    ensures Shape(c, run[|run| - 1])
    ensures AllDone(c, run[|run| - 1]) ==>
              var s := run[|run| - 1];
              && s.asmQueue == [] && s.dispQueue == []
              && (forall i :: 0 <= i < c.consumerCount ==> s.consQueues[i] == [])
              && (forall i :: 0 <= i < c.consumerCount ==> s.received[i] == Addressed(s.forwarded, i))
              && Total(s.forwarded, IsData) + |s.lost| == c.packageCount
              && (forall k: nat :: Total(s.forwarded, HasNumber(k)) + Total(s.lost, HasNumber(k))
                                   == if 1 <= k <= c.packageCount then 1 else 0)
              && TotalSize(s.received) + |s.lost| == c.packageCount
  {
    hide NumberInv, FlowInv, ConsumerInv, TicketInv, PhaseInv, AllData, DataOrStop;
    var phase := RunInv(c, run);
    var s := run[|run| - 1];
    if AllDone(c, s) {
      FinalState(c, s, phase);
      ReceivedIsForwarded(c, s);
    }
  }

  lemma InitialRank(c: Config, s: State)
    requires Init(c, s)
    ensures Rank(c, s) == 8 * (c.packageCount + c.producerCount) + 2 * c.consumerCount + 4
  {
    OverEach(s.producers, ProducerRank);
    LoadsOfEmpty(s.consQueues, Stage(2));
    TotalConstant(s.consDone, Unfinished, 1);
  }

  /**
   * No run is longer than a bound, and no key that fits 16 bits is missing; with room in the queues, and
   * consumers for the packages, a run that cannot go on has finished all threads.
   */
  lemma PipelineEnds(c: Config, run: seq<State>)
    requires IsRun(c, run)
    ensures |run| - 1 <= 8 * (c.packageCount + c.producerCount) + 2 * c.consumerCount + 4
    ensures Shape(c, run[|run| - 1]) && (c.Valid() ==> !run[|run| - 1].disp.Crashed?)
    ensures c.Roomy() && Stuck(c, run[|run| - 1]) ==> AllDone(c, run[|run| - 1])
  {
    hide NumberInv, FlowInv, ConsumerInv, TicketInv, AllData, Rank, AllDone;
    var phase := RunInv(c, run);
    var s := run[|run| - 1];
    if c.Roomy() && Stuck(c, s) {
      StuckIsDone(c, s, phase);
    }
    RankNotNegative(c, s, phase);
    InitialRank(c, run[0]);
  }

  // ---- Runs that fail ----

  ghost predicate Reachable(c: Config, s: State) {
    exists run :: IsRun(c, run) && run[|run| - 1] == s
  }

  lemma ReachStep(c: Config, s: State, e: Event)
    requires Reachable(c, s) && Shape(c, s) && Enabled(c, s, e)
    ensures Reachable(c, Apply(c, s, e))
  {
    hide Apply, Enabled, Init;
    var run :| IsRun(c, run) && run[|run| - 1] == s;
    var longer := run + [Apply(c, s, e)];
    forall i | 0 <= i < |longer| - 1 ensures Step(c, longer[i], longer[i + 1]) {
      if i < |run| - 1 {
        assert Step(c, run[i], run[i + 1]);
      }
    }
    assert IsRun(c, longer);
  }

  function Start(c: Config): State {
    var none: seq<seq<Message>> := seq(c.consumerCount, _ => []);
    State(0, seq(c.producerCount, _ => Drawing), [], Collecting, [], [], Receiving,
          none, seq(c.consumerCount, _ => false), none, [], [], [])
  }

  lemma StartIsReachable(c: Config)
    ensures Init(c, Start(c)) && Reachable(c, Start(c))
  {
    assert IsRun(c, [Start(c)]);
  }

  /** A producer has to draw a consumer where there are none. */
  predicate EmptyDraw(c: Config, s: State) {
    c.consumerCount == 0 && s.producedCount < c.packageCount && Drawing in s.producers
  }

  /** A thread throws, has nothing to draw from, or nothing moves although not all threads have finished. */
  ghost predicate Fails(c: Config, s: State)
    requires Shape(c, s)
  {
    s.disp.Crashed? || EmptyDraw(c, s) || (Stuck(c, s) && !AllDone(c, s))
  }

  /** Without any room, the first p producers have drawn their first ticket. */
  lemma {:induction false} DrawOnly(c: Config, p: nat) returns (s: State)
    requires c.capacity == 0 && p <= c.producerCount && (c.packageCount == 0 || c.consumerCount >= 1)
    ensures Reachable(c, s) && Shape(c, s)
    ensures s.asmQueue == [] && s.asm.Collecting? && s.dispQueue == [] && s.disp.Receiving?
    ensures forall i :: 0 <= i < c.consumerCount ==> s.consQueues[i] == []
    ensures forall q :: 0 <= q < c.producerCount ==> (s.producers[q].Drawing? <==> q >= p)
  {
    hide Reachable;
    if p == 0 {
      StartIsReachable(c);
      s := Start(c);
    } else {
      s := DrawOnly(c, p - 1);
      ReachStep(c, s, Draw(p - 1, 0));
      s := Apply(c, s, Draw(p - 1, 0));
    }
  }

  /** Without room nothing gets further than the hands of the producers. */
  predicate Dry(s: State) {
    s.asmQueue == [] && s.asm.Collecting? && s.dispQueue == [] && s.disp.Receiving?
  }

  lemma {:induction false} NoRoomStaysDry(c: Config, run: seq<State>)
    requires IsRun(c, run) && (c.capacity == 0 || c.producerCount == 0)
    ensures Shape(c, run[|run| - 1]) && Dry(run[|run| - 1])
  {
    if |run| > 1 {
      NoRoomStaysDry(c, run[..|run| - 1]);
      assert Step(c, run[|run| - 2], run[|run| - 2 + 1]);
    }
  }

  /** The assembler takes a message and passes it on. */
  lemma PassOn(c: Config, s: State, m: Message) returns (s': State)
    requires Reachable(c, s) && Shape(c, s) && c.capacity >= 1
    requires s.asm.Collecting? && s.asmQueue == [m] && m != STOP && s.dispQueue == [] && s.disp.Receiving?
    ensures Reachable(c, s') && Shape(c, s') && s'.dispQueue == [m] && s'.disp.Receiving?
  {
    hide Reachable;
    ReachStep(c, s, AsmTake);
    s' := Apply(c, s, AsmTake);
    ReachStep(c, s', AsmForward);
    s' := Apply(c, s', AsmForward);
  }

  /** With more consumers than 16 bits can name, a target can wrap to 0, for which there is no key. */
  lemma WrappedTargetCrashes(c: Config) returns (s: State)
    requires c.producerCount >= 1 && c.packageCount >= 1 && c.capacity >= 1 && c.consumerCount > 65535
    ensures Reachable(c, s) && Shape(c, s) && s.disp.Crashed?
  {
    hide Reachable;
    StartIsReachable(c);
    s := Start(c);
    var m := Message(0, 1, 1);
    ReachStep(c, s, Draw(0, 65535));
    s := Apply(c, s, Draw(0, 65535));
    assert s.producers[0] == Holding(m);
    ReachStep(c, s, Enqueue(0));
    s := Apply(c, s, Enqueue(0));
    assert s.asmQueue == [m];
    s := PassOn(c, s, m);
    ReachStep(c, s, DispTake);
    s := Apply(c, s, DispTake);
    ReachStep(c, s, DispRoute);
    s := Apply(c, s, DispRoute);
  }

  // ---- Exactly when no run fails ----

  /** The dispatcher can throw exactly when there are producers, packages, room, and more keys than 16 bits hold. */
  lemma CrashesExactly(c: Config)
    ensures (exists s :: Reachable(c, s) && s.disp.Crashed?)
       <==> c.producerCount >= 1 && c.packageCount >= 1 && c.capacity >= 1 && c.consumerCount > 65535
  {
    if c.Valid() {
      forall s | Reachable(c, s) ensures !s.disp.Crashed? {
        var run :| IsRun(c, run) && run[|run| - 1] == s;
        PipelineEnds(c, run);
      }
    } else if c.capacity == 0 || c.producerCount == 0 {
      forall s | Reachable(c, s) ensures !s.disp.Crashed? {
        var run :| IsRun(c, run) && run[|run| - 1] == s;
        NoRoomStaysDry(c, run);
      }
    } else {
      var s := WrappedTargetCrashes(c);
    }
  }

  lemma RoomyNeverFails(c: Config, s: State)
    requires c.Roomy() && Reachable(c, s)
    ensures Shape(c, s) && !Fails(c, s)
  {
    var run :| IsRun(c, run) && run[|run| - 1] == s;
    PipelineEnds(c, run);
  }

  lemma WithoutProducers(c: Config)
    requires c.producerCount == 0
    ensures Shape(c, Start(c)) && Fails(c, Start(c))
  {
  }

  lemma NoRoomIsStuck(c: Config, s: State)
    requires c.capacity == 0 && Shape(c, s) && Dry(s)
    requires forall i :: 0 <= i < c.consumerCount ==> s.consQueues[i] == []
    requires forall q :: 0 <= q < c.producerCount ==> !s.producers[q].Drawing?
    ensures Fails(c, s)
  {
  }

  /**
   * No run fails, whatever is drawn and lost, exactly when there are producers, room, and for every package a
   * consumer whose number fits 16 bits.
   */
  lemma PipelineEndsExactly(c: Config)
    ensures (forall s :: Reachable(c, s) ==> Shape(c, s) && !Fails(c, s))
       <==> c.producerCount >= 1 && c.capacity >= 1 && (c.packageCount == 0 || 1 <= c.consumerCount <= 65535)
  {
    hide AllDone, Reachable;
    StartIsReachable(c);
    if c.producerCount == 0 {
      WithoutProducers(c);
    } else if c.packageCount >= 1 && c.consumerCount == 0 {
      assert Start(c).producers[0] == Drawing && EmptyDraw(c, Start(c));
    } else if c.capacity == 0 {
      var s := DrawOnly(c, c.producerCount);
      NoRoomIsStuck(c, s);
    } else if c.packageCount >= 1 && c.consumerCount > 65535 {
      var s := WrappedTargetCrashes(c);
    } else {
      forall s | Reachable(c, s) ensures Shape(c, s) && !Fails(c, s) {
        RoomyNeverFails(c, s);
      }
    }
  }
}
