/**
 * What becomes of each message of the cyclic network: it goes to the consumer that was drawn for it, or to
 * the assembler, which loses it or sends it to the consumer that it draws itself; and every such outcome is
 * possible.
 */
module LossyOutcomes {
  import opened Messages
  import opened Options
  import opened Sums
  import opened LossyCycle
  import opened LossyRuns
  import opened LossyCapacity
  import T = LossyThreads

  // ---- One message ----

  /** A new message has the next number, and one more than the random number as its target, in 16 bits. */
  lemma ProduceSendsAsDrawn(c: Config, s: State, choice: nat)
    requires Shape(c, s) && Enabled(c, s, Produce(choice))
    ensures choice <= c.consumerCount
    ensures var m := Message((choice + 1) % 0x1_0000, 1, s.produced);
            && Apply(c, s, Produce(choice)).dispQueue == s.dispQueue + [m]
            && (c.consumerCount + 1 <= 65535 ==>
                  m.target in Routes(c)
                  && Routes(c)[m.target] == if choice < c.consumerCount then ToConsumer(choice) else ToAssembler)
  {
    hide Routes;
    RoutesKeys(c);
  }

  /** A message that is sent back keeps its number, and leads to the consumer that was drawn. */
  lemma ForwardSendsAsDrawn(c: Config, s: State, choice: nat)
    requires Shape(c, s) && Enabled(c, s, AsmForward(choice))
    ensures 1 <= choice <= c.consumerCount
    ensures var m := Message(choice % 0x1_0000, s.asm.m.source, s.asm.m.number);
            && Apply(c, s, AsmForward(choice)).dispQueue == s.dispQueue + [m]
            && (c.consumerCount + 1 <= 65535 ==>
                  m.target in Routes(c) && Routes(c)[m.target] == ToConsumer(choice - 1))
  {
    hide Routes;
    RoutesKeys(c);
  }

  /** The same for what the threads send through the semaphores. */
  lemma ThreadsSendAsDrawn(c: Config, l: T.Local, choice: nat)
    ensures l.Producer? && l.produced < c.packageCount && choice <= c.consumerCount ==>
              T.Sends(c, l, choice) == Some(Message((choice + 1) % 0x1_0000, 1, l.produced))
    ensures l.Assembler? && l.asm.Working? && 1 <= choice <= c.consumerCount ==>
              && T.Sends(c, l, choice) == Some(Message(choice % 0x1_0000, l.asm.m.source, l.asm.m.number))
              && (c.consumerCount + 1 <= 65535 ==>
                    choice % 0x1_0000 in Routes(c) && Routes(c)[choice % 0x1_0000] == ToConsumer(choice - 1))
  {
    hide Routes;
    RoutesKeys(c);
  }

  // ---- Every message is as drawn ----

  /** The target of a message is the random number drawn last for it. */
  predicate AsDrawn(s: State, m: Message) {
    && m.number < |s.drawn| && m.source == 1
    && m.target == (if m.number in s.redrawn then s.redrawn[m.number] else s.drawn[m.number] + 1) % 0x1_0000
  }

  ghost predicate AllAsDrawn(s: State, q: seq<Message>) {
    forall m :: m in q && m != STOP ==> AsDrawn(s, m)
  }

  /** All messages are for the destination with that key. */
  ghost predicate AllFor(q: seq<Message>, key: nat) {
    forall m :: m in q && m != STOP ==> m.target == key
  }

  ghost predicate DrawsInv(c: Config, s: State) {
    && |s.drawn| == s.produced && (forall k :: 0 <= k < |s.drawn| ==> s.drawn[k] <= c.consumerCount)
    && forall k :: k in s.redrawn ==>
                     && k < |s.drawn| && 1 <= s.redrawn[k] <= c.consumerCount
                     && (s.drawn[k] + 1) % 0x1_0000 == c.consumerCount + 1
  }

  /** Every message is as drawn, and where its target leads. */
  ghost predicate TargetInv(c: Config, s: State)
    requires Shape(c, s)
  {
    && DrawsInv(c, s)
    && AllAsDrawn(s, s.dispQueue) && (s.disp.Routing? ==> AsDrawn(s, s.disp.m))
    && AllAsDrawn(s, s.asmQueue) && AllFor(s.asmQueue, c.consumerCount + 1)
    && (s.asm.Working? ==> AsDrawn(s, s.asm.m) && s.asm.m.target == c.consumerCount + 1)
    && AllAsDrawn(s, s.lost) && AllFor(s.lost, c.consumerCount + 1)
    && (forall i :: 0 <= i < c.consumerCount ==> AllAsDrawn(s, s.consQueues[i]) && AllFor(s.consQueues[i], i + 1))
    && forall i :: 0 <= i < c.consumerCount ==> AllAsDrawn(s, s.received[i]) && AllFor(s.received[i], i + 1)
  }

  lemma InitTargets(c: Config, s: State)
    requires Init(c, s)
    ensures TargetInv(c, s)
  {
  }

  // ---- The producer draws ----

  lemma DrawnStays(s: State, s': State, choice: nat, q: seq<Message>)
    requires AllAsDrawn(s, q) && s'.drawn == s.drawn + [choice] && s'.redrawn == s.redrawn
    ensures AllAsDrawn(s', q)
  {
  }

  lemma AppendDrawn(s: State, q: seq<Message>, m: Message)
    requires AllAsDrawn(s, q) && AsDrawn(s, m)
    ensures AllAsDrawn(s, q + [m])
  {
  }

  lemma ProduceKeepsTargets(c: Config, s: State, choice: nat)
    requires Shape(c, s) && Enabled(c, s, Produce(choice)) && TargetInv(c, s)
    ensures TargetInv(c, Apply(c, s, Produce(choice)))
  {
    hide AllAsDrawn, AllFor;
    var s' := Apply(c, s, Produce(choice));
    DrawnStays(s, s', choice, s.dispQueue);
    DrawnStays(s, s', choice, s.asmQueue);
    DrawnStays(s, s', choice, s.lost);
    forall i | 0 <= i < c.consumerCount ensures AllAsDrawn(s', s.consQueues[i]) && AllAsDrawn(s', s.received[i]) {
      DrawnStays(s, s', choice, s.consQueues[i]);
      DrawnStays(s, s', choice, s.received[i]);
    }
    AppendDrawn(s', s.dispQueue, Message((choice + 1) % 0x1_0000, 1, s.produced));
  }

  // ---- The assembler draws ----

  lemma {:induction false} NoLoadNoShare(qs: seq<seq<Message>>, w: Message -> nat, i: nat)
    requires Loads(qs, w) == 0 && i < |qs|
    ensures Total(qs[i], w) == 0
  {
    if i > 0 {
      NoLoadNoShare(qs[1..], w, i - 1);
    }
  }

  /** No other message has the number of the one in the assembler's hands. */
  lemma OnlyOneOfNumber(c: Config, s: State, phase: Phase)
    requires Inv(c, s, phase) && s.asm.Working?
    ensures var w := HasNumber(s.asm.m.number);
            && Total(s.dispQueue, w) == 0 && w(DispHand(s)) == 0 && Total(s.asmQueue, w) == 0
            && Loads(s.consQueues, w) == 0 && Loads(s.received, w) == 0 && Total(s.lost, w) == 0
  {
    hide ConsumerInv, Total, Loads;
    HandsHoldData(c, s, phase);
    assert Everywhere(s, HasNumber(s.asm.m.number)) <= 1;
  }

  lemma RedrawnStays(s: State, s': State, k: nat, choice: nat, q: seq<Message>)
    requires AllAsDrawn(s, q) && s'.drawn == s.drawn && s'.redrawn == s.redrawn[k := choice]
    requires Total(q, HasNumber(k)) == 0
    ensures AllAsDrawn(s', q)
  {
    NumberIsElsewhere(q, k);
  }

  /** The message in the assembler's hands is on its first way. */
  lemma HandsAreData(c: Config, s: State, phase: Phase)
    requires Inv(c, s, phase) && TargetInv(c, s)
    ensures s.asm.Working? ==>
              s.asm.m.number < |s.drawn| && (s.drawn[s.asm.m.number] + 1) % 0x1_0000 == c.consumerCount + 1
    ensures s.asm.Working? && s.disp.Routing? ==> s.disp.m.number != s.asm.m.number
  {
    hide ConsumerInv;
    HandsHoldData(c, s, phase);
    if s.asm.Working? {
      OnlyOneOfNumber(c, s, phase);
    }
  }

  lemma ForwardKeepsTargets(c: Config, s: State, phase: Phase, choice: nat)
    requires Inv(c, s, phase) && Enabled(c, s, AsmForward(choice)) && TargetInv(c, s)
    ensures TargetInv(c, Apply(c, s, AsmForward(choice)))
  {
    hide AllAsDrawn, AllFor, ConsumerInv, Conserved, PhaseInv;
    var s', k := Apply(c, s, AsmForward(choice)), s.asm.m.number;
    OnlyOneOfNumber(c, s, phase);
    RedrawnStays(s, s', k, choice, s.dispQueue);
    RedrawnStays(s, s', k, choice, s.asmQueue);
    RedrawnStays(s, s', k, choice, s.lost);
    forall i | 0 <= i < c.consumerCount ensures AllAsDrawn(s', s.consQueues[i]) && AllAsDrawn(s', s.received[i]) {
      NoLoadNoShare(s.consQueues, HasNumber(k), i);
      NoLoadNoShare(s.received, HasNumber(k), i);
      RedrawnStays(s, s', k, choice, s.consQueues[i]);
      RedrawnStays(s, s', k, choice, s.received[i]);
    }
    HandsAreData(c, s, phase);
    AppendDrawn(s', s.dispQueue, s.asm.m.(target := choice % 0x1_0000));
  }

  // ---- The others pass messages on ----

  lemma AppendFor(q: seq<Message>, key: nat, m: Message)
    requires AllFor(q, key) && (m == STOP || m.target == key)
    ensures AllFor(q + [m], key)
  {
  }

  /** Only draws change the histories. */
  lemma SameHistory(c: Config, s: State, e: Event)
    requires Shape(c, s) && Enabled(c, s, e) && !e.Produce? && !e.AsmForward?
    ensures var s' := Apply(c, s, e);
            && s'.drawn == s.drawn && s'.redrawn == s.redrawn && s'.produced == s.produced
            && forall m :: AsDrawn(s', m) == AsDrawn(s, m)
    ensures forall q :: AllAsDrawn(s, q) ==> AllAsDrawn(Apply(c, s, e), q)
  {
    hide Routes;
  }

  lemma RouteKeepsTargets(c: Config, s: State)
    requires Shape(c, s) && Enabled(c, s, DispRoute) && TargetInv(c, s)
    ensures TargetInv(c, Apply(c, s, DispRoute))
  {
    hide Routes, AllAsDrawn, AllFor, AsDrawn;
    RoutesKeys(c);
    var m := s.disp.m;
    if 1 <= m.target <= c.consumerCount {
      AppendDrawn(s, s.consQueues[m.target - 1], m);
      AppendFor(s.consQueues[m.target - 1], m.target, m);
    } else {
      AppendDrawn(s, s.asmQueue, m);
      if m.target == c.consumerCount + 1 {
        AppendFor(s.asmQueue, m.target, m);
      }
    }
    SameHistory(c, s, DispRoute);
  }

  lemma AppendStop(s: State, q: seq<Message>)
    ensures AllAsDrawn(s, q) ==> AllAsDrawn(s, q + [STOP])
    ensures forall key :: AllFor(q, key) ==> AllFor(q + [STOP], key)
  {
  }

  lemma TailDrawn(s: State, q: seq<Message>)
    requires q != []
    ensures AllAsDrawn(s, q) ==> AllAsDrawn(s, q[1..]) && (q[0] != STOP ==> AsDrawn(s, q[0]))
    ensures forall key :: AllFor(q, key) ==> AllFor(q[1..], key) && (q[0] != STOP ==> q[0].target == key)
  {
    TailMembers(q);
  }

  lemma DispatcherKeepsTargets(c: Config, s: State, e: Event)
    requires Shape(c, s) && Enabled(c, s, e) && TargetInv(c, s)
    requires e.DispTake? || e.DispReturnStop? || e.DispBroadcast?
    ensures TargetInv(c, Apply(c, s, e))
  {
    hide Routes, AllAsDrawn, AllFor, AsDrawn;
    RoutesKeys(c);
    SameHistory(c, s, e);
    match e {
      case DispTake => TailDrawn(s, s.dispQueue);
      case DispReturnStop => AppendStop(s, s.asmQueue);
      case DispBroadcast =>
        if s.disp.key <= c.consumerCount {
          AppendStop(s, s.consQueues[s.disp.key - 1]);
        } else {
          AppendStop(s, s.asmQueue);
        }
    }
  }

  lemma AssemblerKeepsTargets(c: Config, s: State, e: Event)
    requires Shape(c, s) && Enabled(c, s, e) && TargetInv(c, s)
    requires e.AsmTake? || e.AsmLose? || e.AsmReturnStop?
    ensures TargetInv(c, Apply(c, s, e))
  {
    hide Routes, AllAsDrawn, AllFor, AsDrawn;
    SameHistory(c, s, e);
    match e {
      case AsmTake => TailDrawn(s, s.asmQueue);
      case AsmLose =>
        AppendDrawn(s, s.lost, s.asm.m);
        AppendFor(s.lost, c.consumerCount + 1, s.asm.m);
      case AsmReturnStop => AppendStop(s, s.dispQueue);
    }
  }

  lemma ConsumeKeepsTargets(c: Config, s: State, i: nat)
    requires Shape(c, s) && Enabled(c, s, Consume(i)) && TargetInv(c, s)
    ensures TargetInv(c, Apply(c, s, Consume(i)))
  {
    hide Routes, AllAsDrawn, AllFor, AsDrawn;
    SameHistory(c, s, Consume(i));
    TailDrawn(s, s.consQueues[i]);
    if s.consQueues[i][0] != STOP {
      AppendDrawn(s, s.received[i], s.consQueues[i][0]);
      AppendFor(s.received[i], i + 1, s.consQueues[i][0]);
    }
  }

  lemma StopKeepsTargets(c: Config, s: State)
    requires Shape(c, s) && Enabled(c, s, ProduceStop) && TargetInv(c, s)
    ensures TargetInv(c, Apply(c, s, ProduceStop))
  {
    hide AllAsDrawn, AllFor, AsDrawn;
    SameHistory(c, s, ProduceStop);
    AppendStop(s, s.dispQueue);
  }

  lemma InvShape(c: Config, s: State, phase: Phase)
    ensures Inv(c, s, phase) ==> Shape(c, s)
  {
  }

  lemma TargetStep(c: Config, s: State, phase: Phase, e: Event)
    requires Inv(c, s, phase) && Enabled(c, s, e) && TargetInv(c, s)
    ensures TargetInv(c, Apply(c, s, e))
  {
    hide TargetInv, Inv, PhaseInv;
    InvShape(c, s, phase);
    if e.Produce? {
      ProduceKeepsTargets(c, s, e.choice);
    } else if e.AsmForward? {
      ForwardKeepsTargets(c, s, phase, e.choice);
    } else if e.DispRoute? {
      RouteKeepsTargets(c, s);
    } else if e.DispTake? || e.DispReturnStop? || e.DispBroadcast? {
      DispatcherKeepsTargets(c, s, e);
    } else if e.Consume? {
      ConsumeKeepsTargets(c, s, e.i);
    } else if e.ProduceStop? {
      StopKeepsTargets(c, s);
    } else {
      AssemblerKeepsTargets(c, s, e);
    }
  }

  lemma {:induction false} RunTargets(c: Config, run: seq<State>)
    requires IsRun(c, run)
    ensures Shape(c, run[|run| - 1]) && TargetInv(c, run[|run| - 1])
  {
    hide Enabled, Apply, TargetInv, Inv, Rank;
    var phase := RunInv(c, run);
    if |run| == 1 {
      InitTargets(c, run[0]);
    } else {
      var front := run[..|run| - 1];
      RunTargets(c, front);
      phase := RunInv(c, front);
      var s, s' := run[|run| - 2], run[|run| - 1];
      assert Step(c, run[|run| - 2], run[|run| - 2 + 1]);
      var e :| Enabled(c, s, e) && s' == Apply(c, s, e);
      TargetStep(c, s, phase, e);
      InvShape(c, s', phase);
    }
  }

  // ---- Main results: where every message goes ----

  lemma {:induction false} ShareOfLoad(qs: seq<seq<Message>>, w: Message -> nat) returns (i: nat)
    requires Loads(qs, w) == 1
    ensures i < |qs| && Total(qs[i], w) == 1
  {
    if Total(qs[0], w) == 1 {
      i := 0;
    } else {
      var j := ShareOfLoad(qs[1..], w);
      i := j + 1;
    }
  }

  /** Nobody has received message k. */
  ghost predicate WasLost(s: State, k: nat) {
    Total(s.lost, HasNumber(k)) == 1 && Loads(s.received, HasNumber(k)) == 0
  }

  /** The consumer with that key alone has received message k, and once. */
  ghost predicate WasReceived(s: State, k: nat, key: nat) {
    && Total(s.lost, HasNumber(k)) == 0 && Loads(s.received, HasNumber(k)) == 1
    && 1 <= key <= |s.received| && Total(s.received[key - 1], HasNumber(k)) == 1
  }

  /** The destination that was drawn last for message k. */
  function Drawn(c: Config, s: State, k: nat): Destination
    requires k < |s.drawn| && (k in s.redrawn ==> s.redrawn[k] >= 1)
  {
    if s.drawn[k] < c.consumerCount then ToConsumer(s.drawn[k])
    else if k in s.redrawn then ToConsumer(s.redrawn[k] - 1)
    else ToAssembler
  }

  /** A message that is as drawn leads to the destination drawn last. */
  lemma TargetIsDrawn(c: Config, s: State, m: Message)
    requires DrawsInv(c, s) && AsDrawn(s, m) && c.consumerCount + 1 <= 65535
    ensures m.target == match Drawn(c, s, m.number)
                        case ToConsumer(i) => i + 1
                        case ToAssembler => c.consumerCount + 1
  {
  }

  lemma ReceivedOutcome(c: Config, s: State, k: nat)
    requires Shape(c, s) && TargetInv(c, s) && k < |s.drawn| && c.consumerCount + 1 <= 65535
    requires Loads(s.received, HasNumber(k)) == 1 && Total(s.lost, HasNumber(k)) == 0
    ensures Drawn(c, s, k).ToConsumer? && WasReceived(s, k, Drawn(c, s, k).index + 1)
  {
    hide Total, Loads, AsDrawn;
    var i := ShareOfLoad(s.received, HasNumber(k));
    var m := FindNumber(s.received[i], k);
    TargetIsDrawn(c, s, m);
  }

  lemma LostOutcome(c: Config, s: State, k: nat)
    requires Shape(c, s) && TargetInv(c, s) && k < |s.drawn| && c.consumerCount + 1 <= 65535
    requires Total(s.lost, HasNumber(k)) == 1
    ensures Drawn(c, s, k).ToAssembler?
  {
    hide Total, Loads, AsDrawn;
    var m := FindNumber(s.lost, k);
    TargetIsDrawn(c, s, m);
  }

  /** Where a message went is what was drawn for it. */
  lemma OneOutcome(c: Config, s: State, k: nat)
    requires Shape(c, s) && TargetInv(c, s) && k < |s.drawn| && c.consumerCount + 1 <= 65535
    requires Loads(s.received, HasNumber(k)) + Total(s.lost, HasNumber(k)) == 1
    ensures if s.drawn[k] < c.consumerCount then WasReceived(s, k, s.drawn[k] + 1)
            else if k in s.redrawn then WasReceived(s, k, s.redrawn[k])
            else WasLost(s, k)
  {
    hide Total, Loads, AsDrawn, AllAsDrawn, AllFor;
    if Total(s.lost, HasNumber(k)) == 0 {
      ReceivedOutcome(c, s, k);
    } else {
      LostOutcome(c, s, k);
    }
  }

  lemma AllProduced(c: Config, run: seq<State>)
    requires IsRun(c, run) && Shape(c, run[|run| - 1]) && AllDone(c, run[|run| - 1])
    ensures run[|run| - 1].produced == c.packageCount
  {
    var phase := RunInv(c, run);
  }

  /**
   * When all threads have ended, a message for which a consumer was drawn was received by that consumer; any
   * other was sent back, and received by the consumer that was drawn then, or lost.
   */
  lemma MessagesGoWhereDrawn(c: Config, run: seq<State>)
    requires IsRun(c, run)
    ensures Shape(c, run[|run| - 1])
    ensures AllDone(c, run[|run| - 1]) ==>
              var s := run[|run| - 1];
              && |s.drawn| == c.packageCount && (forall k :: 0 <= k < |s.drawn| ==> s.drawn[k] <= c.consumerCount)
              && (forall i, m :: 0 <= i < c.consumerCount && m in s.received[i] ==> AsDrawn(s, m) && m.target == i + 1)
              && (c.consumerCount + 1 <= 65535 ==>
                    forall k: nat :: k < c.packageCount ==>
                      if s.drawn[k] < c.consumerCount then WasReceived(s, k, s.drawn[k] + 1)
                      else if k in s.redrawn then WasReceived(s, k, s.redrawn[k])
                      else WasLost(s, k))
  {
    hide Inv, Rank, WasReceived, WasLost, AsDrawn, AllStops;
    NothingIsForgotten(c, run);
    RunTargets(c, run);
    var s := run[|run| - 1];
    if AllDone(c, s) {
      AllProduced(c, run);
      forall i, m | 0 <= i < c.consumerCount && m in s.received[i] ensures AsDrawn(s, m) && m.target == i + 1 {
        assert m != STOP;
        assert AllAsDrawn(s, s.received[i]);
      }
      if c.consumerCount + 1 <= 65535 {
        forall k: nat | k < c.packageCount
          ensures if s.drawn[k] < c.consumerCount then WasReceived(s, k, s.drawn[k] + 1)
                  else if k in s.redrawn then WasReceived(s, k, s.redrawn[k])
                  else WasLost(s, k)
        {
          OneOutcome(c, s, k);
        }
      }
    }
  }

  // ---- Every outcome is possible ----

  /** The key of the consumer that message k reaches when `d` and then `r` are drawn for it, 0 if it is lost. */
  function Goal(c: Config, d: seq<nat>, r: seq<nat>, k: nat): nat
    requires k < |d| == |r|
  {
    if d[k] < c.consumerCount then d[k] + 1 else r[k]
  }

  /** The messages for consumer i among the first n. */
  function Kept(c: Config, d: seq<nat>, r: seq<nat>, n: nat, i: nat): seq<Message>
    requires n <= |d| == |r|
  {
    if n == 0 then []
    else Kept(c, d, r, n - 1, i) + if Goal(c, d, r, n - 1) == i + 1 then [Message(i + 1, 1, n - 1)] else []
  }

  function Dropped(c: Config, d: seq<nat>, r: seq<nat>, n: nat): seq<Message>
    requires n <= |d| == |r|
  {
    if n == 0 then []
    else Dropped(c, d, r, n - 1) + if Goal(c, d, r, n - 1) == 0 then [Far(c, n - 1)] else []
  }

  /** The first n messages have reached their ends, as told, and nothing else has begun. */
  ghost predicate Quiet(c: Config, s: State, d: seq<nat>, r: seq<nat>, n: nat)
    requires n <= |d| == |r|
  {
    && Calm(c, s) && s.produced == n && s.drawn == d[..n]
    && s.dispQueue == [] && s.disp.Receiving? && s.asmQueue == [] && s.asm.Collecting?
    && (forall i :: 0 <= i < c.consumerCount ==> s.received[i] == Kept(c, d, r, n, i))
    && s.lost == Dropped(c, d, r, n)
    && TotalSize(s.received) + |s.lost| == n
  }

  /** The only message in the dispatcher's queue goes to its consumer. */
  lemma MessageArrives(c: Config, s: State, i: nat, m: Message) returns (s': State)
    requires c.capacity >= 1 && Reachable(c, s) && Shape(c, s) && i < c.consumerCount
    requires s.disp.Receiving? && s.dispQueue == [m] && m != STOP && m.target == i + 1
    requires s.consQueues[i] == [] && !s.consDone[i]
    ensures Reachable(c, s') && Shape(c, s')
    ensures s' == s.(dispQueue := [], dispStops := 0, received := s.received[i := s.received[i] + [m]])
  {
    hide Routes, Reachable;
    RoutesKeys(c);
    s' := TakeOnly(c, s, m);
    ReachStep(c, s', DispRoute);
    s' := Apply(c, s', DispRoute);
    assert s'.consQueues[i] == [m];
    ReachStep(c, s', Consume(i));
    s' := Apply(c, s', Consume(i));
    assert s'.consQueues[i] == [];
    assert s'.consQueues == s.consQueues;
  }

  /** A message for which a consumer is drawn. */
  lemma NearMessage(c: Config, s: State, i: nat) returns (s': State)
    requires c.Valid() && c.capacity >= 1 && Reachable(c, s) && Calm(c, s) && s.produced < c.packageCount
    requires i < c.consumerCount && s.dispQueue == [] && s.disp.Receiving?
    ensures Reachable(c, s') && Shape(c, s')
    ensures var m := Message(i + 1, 1, s.produced);
            s' == s.(produced := s.produced + 1, drawn := s.drawn + [i], dispStops := 0,
                     received := s.received[i := s.received[i] + [m]])
  {
    hide Routes, Reachable;
    var m := Message(i + 1, 1, s.produced);
    ReachStep(c, s, Produce(i));
    s' := Apply(c, s, Produce(i));
    assert s'.dispQueue == [m];
    s' := MessageArrives(c, s', i, m);
  }

  /** A message for which the assembler is drawn is in its hands. */
  lemma FarMessage(c: Config, s: State) returns (s': State)
    requires c.Valid() && c.capacity >= 1 && Reachable(c, s) && Calm(c, s) && s.produced < c.packageCount
    requires s.dispQueue == [] && s.disp.Receiving? && s.asmQueue == [] && s.asm.Collecting?
    ensures Reachable(c, s') && Shape(c, s')
    ensures s' == s.(produced := s.produced + 1, drawn := s.drawn + [c.consumerCount], dispStops := 0, asmStops := 0,
                     asm := Working(Far(c, s.produced)))
  {
    hide Routes, Reachable;
    s' := SendFar(c, s);
    ReachStep(c, s', AsmTake);
    s' := Apply(c, s', AsmTake);
    assert s'.asmQueue == [];
  }

  /** The assembler draws a consumer, and the message goes there. */
  lemma SentBack(c: Config, s: State, i: nat) returns (s': State)
    requires c.Valid() && c.packageCount >= 1 && c.capacity >= 1 && Reachable(c, s) && Calm(c, s)
    requires s.asm.Working? && s.asm.m.source == 1
    requires i < c.consumerCount && s.dispQueue == [] && s.disp.Receiving?
    ensures Reachable(c, s') && Shape(c, s')
    ensures var m := s.asm.m.(target := i + 1);
            s' == s.(asm := Collecting, dispStops := 0, redrawn := s.redrawn[m.number := i + 1],
                     received := s.received[i := s.received[i] + [m]])
  {
    hide Routes, Reachable;
    ReachStep(c, s, AsmForward(i + 1));
    s' := Apply(c, s, AsmForward(i + 1));
    var m := s.asm.m.(target := i + 1);
    assert s'.dispQueue == [m];
    s' := MessageArrives(c, s', i, m);
  }

  /** Nothing is under way after the first n messages. */
  predicate Between(c: Config, s: State, d: seq<nat>, n: nat)
    requires n <= |d|
  {
    && Calm(c, s) && s.produced == n && s.drawn == d[..n]
    && s.dispQueue == [] && s.disp.Receiving? && s.asmQueue == [] && s.asm.Collecting?
  }

  lemma OneMoreReceived(c: Config, before: State, s: State, d: seq<nat>, r: seq<nat>, n: nat, i: nat)
    requires 1 <= n <= |d| == |r| && Quiet(c, before, d, r, n - 1) && Between(c, s, d, n)
    requires i < c.consumerCount && Goal(c, d, r, n - 1) == i + 1 && s.lost == before.lost
    requires s.received == before.received[i := before.received[i] + [Message(i + 1, 1, n - 1)]]
    ensures Quiet(c, s, d, r, n)
  {
    TotalSizeUpdate(before.received, i, s.received[i]);
  }

  lemma OneMoreLost(c: Config, before: State, s: State, d: seq<nat>, r: seq<nat>, n: nat)
    requires 1 <= n <= |d| == |r| && Quiet(c, before, d, r, n - 1) && Between(c, s, d, n)
    requires Goal(c, d, r, n - 1) == 0 && s.lost == before.lost + [Far(c, n - 1)]
    requires s.received == before.received
    ensures Quiet(c, s, d, r, n)
  {
  }

  lemma StartIsQuiet(c: Config, d: seq<nat>, r: seq<nat>)
    requires |d| == |r|
    ensures Quiet(c, Start(c), d, r, 0)
  {
    AllEmpty(Start(c).received);
  }

  lemma {:induction false} QuietAfter(c: Config, d: seq<nat>, r: seq<nat>, n: nat) returns (s: State)
    requires c.Valid() && c.capacity >= 1 && n <= |d| == |r| == c.packageCount
    requires forall k :: 0 <= k < |d| ==> d[k] <= c.consumerCount && r[k] <= c.consumerCount
    ensures Reachable(c, s) && Quiet(c, s, d, r, n)
  {
    hide Reachable, Routes, Kept, Dropped;
    if n == 0 {
      StartIsReachable(c);
      s := Start(c);
      StartIsQuiet(c, d, r);
    } else {
      var before := QuietAfter(c, d, r, n - 1);
      assert d[..n] == d[..n - 1] + [d[n - 1]];
      if d[n - 1] < c.consumerCount {
        s := NearMessage(c, before, d[n - 1]);
        OneMoreReceived(c, before, s, d, r, n, d[n - 1]);
      } else {
        s := FarMessage(c, before);
        if r[n - 1] > 0 {
          s := SentBack(c, s, r[n - 1] - 1);
          OneMoreReceived(c, before, s, d, r, n, r[n - 1] - 1);
        } else {
          ReachStep(c, s, AsmLose);
          s := Apply(c, s, AsmLose);
          OneMoreLost(c, before, s, d, r, n);
        }
      }
    }
  }

  /** What has been lost, received and drawn stays. */
  predicate Grows(s: State, s': State) {
    && s.lost <= s'.lost && s.drawn <= s'.drawn && |s.received| == |s'.received|
    && forall i :: 0 <= i < |s.received| ==> s.received[i] <= s'.received[i]
  }

  lemma StepGrows(c: Config, s: State, e: Event)
    requires Shape(c, s) && Enabled(c, s, e)
    ensures Grows(s, Apply(c, s, e))
  {
    hide Routes;
  }

  lemma GrowsOn(s: State, s': State, s'': State)
    requires Grows(s, s') && Grows(s', s'')
    ensures Grows(s, s'')
  {
  }

  lemma GrowsNot(s: State)
    ensures Grows(s, s)
  {
  }

  /** Every run can be continued until no thread can move. */
  lemma {:induction false} Continue(c: Config, run: seq<State>) returns (s': State)
    requires IsRun(c, run)
    ensures Reachable(c, s') && Shape(c, s') && Stuck(c, s') && Grows(run[|run| - 1], s')
    decreases 32 * c.packageCount + 2 * c.consumerCount + 14 - |run|
  {
    hide Enabled, Apply, Grows;
    RunsAreBounded(c, run);
    s' := run[|run| - 1];
    if e :| Enabled(c, s', e) && !e.AsmLose? {
      var next := Apply(c, s', e);
      StepGrows(c, s', e);
      assert Step(c, s', next);
      var longer := run + [next];
      forall i | 0 <= i < |longer| - 1 ensures Step(c, longer[i], longer[i + 1]) {
        if i < |run| - 1 {
          assert Step(c, run[i], run[i + 1]);
        }
      }
      RunsAreBounded(c, longer);
      s' := Continue(c, longer);
      GrowsOn(run[|run| - 1], next, s');
    } else {
      GrowsNot(s');
    }
  }

  /**
   * Whatever the producer and then the assembler draw for each message, and whichever are lost, some run ends
   * with all threads finished and exactly that.
   */
  lemma EveryOutcome(c: Config, d: seq<nat>, r: seq<nat>) returns (s: State)
    requires Spacious(c) && Drawable(c) && |d| == |r| == c.packageCount
    requires forall k :: 0 <= k < |d| ==> d[k] <= c.consumerCount && r[k] <= c.consumerCount
    ensures Reachable(c, s) && Shape(c, s) && AllDone(c, s) && s.drawn == d
    ensures forall i :: 0 <= i < c.consumerCount ==> s.received[i] == Kept(c, d, r, |d|, i)
    ensures s.lost == Dropped(c, d, r, |d|)
  {
    hide Stuck, AllDone, Enabled, Apply, Kept, Dropped, Init;
    var quiet := QuietAfter(c, d, r, |d|);
    var run :| IsRun(c, run) && run[|run| - 1] == quiet;
    s := Continue(c, run);
    var whole :| IsRun(c, whole) && whole[|whole| - 1] == s;
    SpaciousRunsEnd(c, whole);
    NothingIsForgotten(c, whole);
    MessagesGoWhereDrawn(c, whole);
    SameSizes(quiet.received, s.received);
  }

  lemma {:induction false} FirstIsKept(c: Config, d: seq<nat>, r: seq<nat>, n: nat, i: nat)
    requires 1 <= n <= |d| == |r| && Goal(c, d, r, 0) == i + 1
    ensures Message(i + 1, 1, 0) in Kept(c, d, r, n, i)
  {
    if n > 1 {
      FirstIsKept(c, d, r, n - 1, i);
    }
  }

  /** Every consumer can receive a message that the assembler has sent back. */
  lemma AnyoneGetsSentBack(c: Config, i: nat) returns (s: State)
    requires Spacious(c) && Drawable(c) && c.packageCount >= 1 && i < c.consumerCount
    ensures Reachable(c, s) && Shape(c, s) && s.drawn == seq(c.packageCount, _ => c.consumerCount)
    ensures Message(i + 1, 1, 0) in s.received[i]
  {
    var d, r := seq(c.packageCount, _ => c.consumerCount), seq(c.packageCount, _ => i + 1);
    s := EveryOutcome(c, d, r);
    FirstIsKept(c, d, r, c.packageCount, i);
  }
}
