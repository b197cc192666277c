/**
 * What becomes of each package of the bounded network: it goes to the consumer that was drawn for it or is
 * lost, and every such outcome is possible.
 */
module BoundOutcomes {
  import opened Messages
  import opened Sums
  import opened BoundPipeline

  // ---- Every message is as drawn ----

  /** The message carries its number and, in 16 bits, one more than the random number drawn for it. */
  predicate AsDrawn(drawn: seq<nat>, m: Message) {
    1 <= m.number <= |drawn| && m.source == 1 && m.target == (drawn[m.number - 1] + 1) % 0x1_0000
  }

  ghost predicate AllAsDrawn(drawn: seq<nat>, q: seq<Message>) {
    forall m :: m in q && m != STOP ==> AsDrawn(drawn, m)
  }

  /** The tickets up to the packages are those with a random number; each message follows it. */
  ghost predicate DrawnInv(c: Config, s: State)
    requires Shape(c, s)
  {
    && |s.drawn| == (if s.producedCount <= c.packageCount then s.producedCount else c.packageCount)
    && (forall k :: 0 <= k < |s.drawn| ==> s.drawn[k] < c.consumerCount)
    && (forall p :: 0 <= p < c.producerCount && s.producers[p].Holding? ==> AsDrawn(s.drawn, s.producers[p].m))
    && AllAsDrawn(s.drawn, s.asmQueue) && (s.asm.Working? ==> AsDrawn(s.drawn, s.asm.m))
    && AllAsDrawn(s.drawn, s.lost) && AllAsDrawn(s.drawn, s.forwarded)
  }

  lemma DrawnStays(drawn: seq<nat>, choice: nat, q: seq<Message>)
    requires AllAsDrawn(drawn, q)
    ensures AllAsDrawn(drawn + [choice], q)
  {
  }

  /** What a producer holds after a draw has the drawn consumer as its target and the ticket as its number. */
  lemma DrawMakesMessage(c: Config, s: State, p: nat, choice: nat)
    requires Shape(c, s) && Enabled(c, s, Draw(p, choice)) && s.producedCount < c.packageCount
    ensures choice < c.consumerCount
    ensures var pc := Apply(c, s, Draw(p, choice)).producers[p];
            && pc.Holding? && pc.m.number == s.producedCount + 1 && pc.m.source == 1
            && pc.m.target == (choice + 1) % 0x1_0000
            && (c.consumerCount <= 65535 ==> pc.m.target == choice + 1)
  {
  }

  lemma DrawKeepsDrawn(c: Config, s: State, p: nat, choice: nat)
    requires Shape(c, s) && Enabled(c, s, Draw(p, choice)) && DrawnInv(c, s)
    ensures DrawnInv(c, Apply(c, s, Draw(p, choice)))
  {
    hide AllAsDrawn;
    DrawnStays(s.drawn, choice, s.asmQueue);
    DrawnStays(s.drawn, choice, s.lost);
    DrawnStays(s.drawn, choice, s.forwarded);
  }

  lemma DrawnStep(c: Config, s: State, e: Event)
    requires Shape(c, s) && Enabled(c, s, e) && DrawnInv(c, s)
    ensures DrawnInv(c, Apply(c, s, e))
  {
    if e.Draw? {
      DrawKeepsDrawn(c, s, e.p, e.choice);
    } else if e.AsmTake? {
      TailMembers(s.asmQueue);
    }
  }

  lemma InitDrawn(c: Config, s: State)
    requires Init(c, s)
    ensures DrawnInv(c, s)
  {
  }

  lemma {:induction false} RunDrawn(c: Config, run: seq<State>)
    requires IsRun(c, run)
    ensures Shape(c, run[|run| - 1]) && DrawnInv(c, run[|run| - 1])
  {
    hide Enabled, Apply, DrawnInv;
    if |run| == 1 {
      InitDrawn(c, run[0]);
    } else {
      RunDrawn(c, run[..|run| - 1]);
      var s, s' := run[|run| - 2], run[|run| - 1];
      assert Step(c, run[|run| - 2], run[|run| - 2 + 1]);
      var e :| Enabled(c, s, e) && s' == Apply(c, s, e);
      DrawnStep(c, s, e);
    }
  }

  // ---- Shares by number ----

  lemma {:induction false} AddressedMembers(q: seq<Message>, i: nat)
    ensures forall m :: m in Addressed(q, i) <==> m in q && m.target == i + 1
  {
    if q != [] {
      AddressedMembers(q[1..], i);
      assert q == [q[0]] + q[1..];
    }
  }

  /** When all messages of a number are for one consumer, it gets all of them. */
  lemma {:induction false} AllOfNumber(q: seq<Message>, i: nat, k: nat)
    requires forall m :: m in q && m != STOP && m.number == k ==> m.target == i + 1
    ensures Total(Addressed(q, i), HasNumber(k)) == Total(q, HasNumber(k))
  {
    if q != [] {
      TailMembers(q);
      AllOfNumber(q[1..], i, k);
      if q[0].target == i + 1 {
        assert Addressed(q, i)[1..] == Addressed(q[1..], i);
      } else {
        assert Addressed(q, i) == Addressed(q[1..], i);
      }
    }
  }

  /** Package k was lost, and nobody has it. */
  ghost predicate WasLost(s: State, k: nat) {
    && Total(s.lost, HasNumber(k)) == 1
    && forall i :: 0 <= i < |s.received| ==> Total(s.received[i], HasNumber(k)) == 0
  }

  /** Package k was received by the consumer with that target, once, and not lost. */
  ghost predicate WasReceived(s: State, k: nat, target: nat) {
    && Total(s.lost, HasNumber(k)) == 0
    && 1 <= target <= |s.received| && Total(s.received[target - 1], HasNumber(k)) == 1
  }

  lemma ReceivedAsDrawn(c: Config, s: State, i: nat)
    requires Shape(c, s) && DrawnInv(c, s) && i < c.consumerCount && s.received[i] == Addressed(s.forwarded, i)
    ensures forall m :: m in s.received[i] ==> AsDrawn(s.drawn, m) && m.target == i + 1
  {
    AddressedMembers(s.forwarded, i);
  }

  lemma NobodyHas(q: seq<Message>, i: nat, k: nat)
    requires Total(q, HasNumber(k)) == 0
    ensures Total(Addressed(q, i), HasNumber(k)) == 0
  {
    if Total(Addressed(q, i), HasNumber(k)) > 0 {
      var m := FindNumber(Addressed(q, i), k);
      AddressedMembers(q, i);
      var j :| 0 <= j < |q| && q[j] == m;
      TotalAtLeast(q, j, HasNumber(k));
    }
  }

  /** A message that the assembler passed on and that has a key. */
  lemma PassedOnIsReceived(c: Config, s: State, k: nat)
    requires Shape(c, s) && DrawnInv(c, s) && 1 <= k <= |s.drawn|
    requires forall i :: 0 <= i < c.consumerCount ==> s.received[i] == Addressed(s.forwarded, i)
    requires Total(s.forwarded, HasNoKey(c)) == 0
    requires Total(s.forwarded, HasNumber(k)) == 1 && Total(s.lost, HasNumber(k)) == 0
    ensures WasReceived(s, k, (s.drawn[k - 1] + 1) % 0x1_0000)
  {
    var m := FindNumber(s.forwarded, k);
    var j :| 0 <= j < |s.forwarded| && s.forwarded[j] == m;
    TotalAtLeast(s.forwarded, j, HasNoKey(c));
    AllOfNumber(s.forwarded, m.target - 1, k);
  }

  // ---- Main results ----

  lemma AllTicketsDrawn(c: Config, s: State, phase: Phase)
    requires Inv(c, s, phase) && AllDone(c, s)
    ensures s.producedCount == c.LastTicket()
  {
  }

  lemma OneOutcome(c: Config, s: State, k: nat)
    requires Shape(c, s) && DrawnInv(c, s) && 1 <= k <= |s.drawn|
    requires forall i :: 0 <= i < c.consumerCount ==> s.received[i] == Addressed(s.forwarded, i)
    requires Total(s.forwarded, HasNoKey(c)) == 0
    requires Total(s.forwarded, HasNumber(k)) + Total(s.lost, HasNumber(k)) == 1
    ensures WasLost(s, k) || WasReceived(s, k, (s.drawn[k - 1] + 1) % 0x1_0000)
  {
    hide DrawnInv, AllAsDrawn;
    if Total(s.lost, HasNumber(k)) == 1 {
      forall i | 0 <= i < |s.received| ensures Total(s.received[i], HasNumber(k)) == 0 {
        NobodyHas(s.forwarded, i, k);
      }
    } else {
      PassedOnIsReceived(c, s, k);
    }
  }

  /**
   * When all threads have finished, every package was lost, or received once by the consumer that was drawn
   * for it, and nobody received anything else.
   */
  lemma PackagesGoWhereDrawn(c: Config, run: seq<State>)
    requires IsRun(c, run)
    ensures Shape(c, run[|run| - 1])
    ensures AllDone(c, run[|run| - 1]) ==>
              var s := run[|run| - 1];
              && |s.drawn| == c.packageCount && (forall k :: 0 <= k < |s.drawn| ==> s.drawn[k] < c.consumerCount)
              && (forall i, m :: 0 <= i < c.consumerCount && m in s.received[i] ==>
                    AsDrawn(s.drawn, m) && m.target == i + 1)
              && (c.consumerCount <= 65535 ==>
                    forall i, m :: 0 <= i < c.consumerCount && m in s.received[i] ==> s.drawn[m.number - 1] == i)
              && (forall k :: 1 <= k <= c.packageCount ==>
                    WasLost(s, k) || WasReceived(s, k, (s.drawn[k - 1] + 1) % 0x1_0000))
  {
    hide NumberInv, FlowInv, ConsumerInv, TicketInv, PhaseInv, AllData, AllAsDrawn, WasLost, WasReceived, Addressed;
    RunDrawn(c, run);
    var phase := RunInv(c, run);
    var s := run[|run| - 1];
    if AllDone(c, s) {
      FinalState(c, s, phase);
      AllTicketsDrawn(c, s, phase);
      forall i | 0 <= i < c.consumerCount
        ensures forall m :: m in s.received[i] ==> AsDrawn(s.drawn, m) && m.target == i + 1
      {
        ReceivedAsDrawn(c, s, i);
      }
      forall k | 1 <= k <= c.packageCount
        ensures WasLost(s, k) || WasReceived(s, k, (s.drawn[k - 1] + 1) % 0x1_0000)
      {
        OneOutcome(c, s, k);
      }
    }
  }

  // ---- Every outcome is possible ----

  /** The messages for consumer i among the first n packages, where package k + 1 is drawn and kept as told. */
  function Kept(d: seq<nat>, keep: seq<bool>, n: nat, i: nat): seq<Message>
    requires n <= |d| == |keep|
  {
    if n == 0 then []
    else Kept(d, keep, n - 1, i) + if keep[n - 1] && d[n - 1] == i then [Message(i + 1, 1, n)] else []
  }

  function Dropped(d: seq<nat>, keep: seq<bool>, n: nat): seq<Message>
    requires n <= |d| == |keep|
  {
    if n == 0 then []
    else Dropped(d, keep, n - 1) + if keep[n - 1] then [] else [Message(d[n - 1] + 1, 1, n)]
  }

  /** The first n packages have reached their ends, as told, and nothing else has begun. */
  ghost predicate Quiet(c: Config, s: State, d: seq<nat>, keep: seq<bool>, n: nat)
    requires n <= |d| == |keep|
  {
    && Shape(c, s) && s.producedCount == n && s.drawn == d[..n]
    && (forall p :: 0 <= p < c.producerCount ==> s.producers[p].Drawing?)
    && s.asmQueue == [] && s.asm.Collecting? && s.dispQueue == [] && s.disp.Receiving?
    && (forall i :: 0 <= i < c.consumerCount ==> s.consQueues[i] == [] && !s.consDone[i])
    && (forall i :: 0 <= i < c.consumerCount ==> s.received[i] == Kept(d, keep, n, i))
    && s.lost == Dropped(d, keep, n)
    && TotalSize(s.received) + |s.lost| == n
  }

  /** A producer draws for the next package, and the assembler takes it. */
  lemma PackageGoesIn(c: Config, s: State, d: seq<nat>, keep: seq<bool>, n: nat) returns (s': State)
    requires c.Roomy() && Reachable(c, s) && n < |d| == |keep| == c.packageCount && d[n] < c.consumerCount
    requires Quiet(c, s, d, keep, n)
    ensures var m := Message(d[n] + 1, 1, n + 1);
            s' == s.(producedCount := n + 1, drawn := s.drawn + [d[n]], enqueued := s.enqueued + [m], asm := Working(m))
    ensures Reachable(c, s') && Shape(c, s')
  {
    hide Reachable, Kept, Dropped;
    var m := Message(d[n] + 1, 1, n + 1);
    ReachStep(c, s, Draw(0, d[n]));
    s' := Apply(c, s, Draw(0, d[n]));
    assert s'.producers[0] == Holding(m);
    ReachStep(c, s', Enqueue(0));
    s' := Apply(c, s', Enqueue(0));
    assert s'.producers == s.producers && s'.asmQueue == [m];
    ReachStep(c, s', AsmTake);
    s' := Apply(c, s', AsmTake);
    assert s'.asmQueue == s.asmQueue;
  }

  /** The message in the assembler's hands goes to its consumer. */
  lemma PackageGoesOut(c: Config, s: State, i: nat, m: Message) returns (s': State)
    requires c.capacity >= 1 && Reachable(c, s) && Shape(c, s) && i < c.consumerCount
    requires m == Message(i + 1, 1, m.number) && s.asm == Working(m)
    requires s.dispQueue == [] && s.disp.Receiving? && s.consQueues[i] == [] && !s.consDone[i]
    ensures s' == s.(asm := Collecting, forwarded := s.forwarded + [m],
                     received := s.received[i := s.received[i] + [m]])
    ensures Reachable(c, s') && Shape(c, s')
  {
    hide Reachable;
    ReachStep(c, s, AsmForward);
    s' := Apply(c, s, AsmForward);
    assert s'.dispQueue == [m];
    ReachStep(c, s', DispTake);
    s' := Apply(c, s', DispTake);
    assert s'.dispQueue == s.dispQueue;
    ReachStep(c, s', DispRoute);
    s' := Apply(c, s', DispRoute);
    assert s'.consQueues[i] == [m];
    ReachStep(c, s', Consume(i));
    s' := Apply(c, s', Consume(i));
    assert s'.consQueues == s.consQueues;
  }

  lemma {:induction false} QuietAfter(c: Config, d: seq<nat>, keep: seq<bool>, n: nat) returns (s: State)
    requires c.Roomy() && n <= |d| == |keep| == c.packageCount
    requires forall k :: 0 <= k < |d| ==> d[k] < c.consumerCount
    ensures Reachable(c, s) && Quiet(c, s, d, keep, n)
  {
    hide Reachable;
    if n == 0 {
      StartIsReachable(c);
      s := Start(c);
      AllEmpty(s.received);
    } else {
      var before := QuietAfter(c, d, keep, n - 1);
      var i := d[n - 1];
      var m := Message(i + 1, 1, n);
      s := PackageGoesIn(c, before, d, keep, n - 1);
      assert d[..n] == d[..n - 1] + [i];
      if keep[n - 1] {
        s := PackageGoesOut(c, s, i, m);
        TotalSizeUpdate(before.received, i, before.received[i] + [m]);
      } else {
        ReachStep(c, s, AsmLose);
        s := Apply(c, s, AsmLose);
      }
    }
  }

  /** What has been lost and received stays. */
  predicate Grows(s: State, s': State) {
    && s.lost <= s'.lost && s.drawn <= s'.drawn && |s.received| == |s'.received|
    && forall i :: 0 <= i < |s.received| ==> s.received[i] <= s'.received[i]
  }

  lemma StepGrows(c: Config, s: State, e: Event)
    requires Shape(c, s) && Enabled(c, s, e)
    ensures Grows(s, Apply(c, s, e))
  {
  }

  lemma GrowsOn(s: State, s': State, s'': State)
    requires Grows(s, s') && Grows(s', s'')
    ensures Grows(s, s'')
  {
  }

  lemma GrowsNot(s: State)
    ensures Grows(s, s)
  {
  }

  /** Every run can be continued until no thread can move. */
  lemma {:induction false} Continue(c: Config, run: seq<State>) returns (s': State)
    requires IsRun(c, run)
    ensures Reachable(c, s') && Shape(c, s') && Stuck(c, s') && Grows(run[|run| - 1], s')
    decreases 8 * (c.packageCount + c.producerCount) + 2 * c.consumerCount + 5 - |run|
  {
    hide Enabled, Apply, Grows;
    PipelineEnds(c, run);
    s' := run[|run| - 1];
    if e :| Enabled(c, s', e) && !e.AsmLose? {
      var next := Apply(c, s', e);
      StepGrows(c, s', e);
      assert Step(c, s', next);
      var longer := run + [next];
      forall i | 0 <= i < |longer| - 1 ensures Step(c, longer[i], longer[i + 1]) {
        if i < |run| - 1 {
          assert Step(c, run[i], run[i + 1]);
        }
      }
      PipelineEnds(c, longer);
      s' := Continue(c, longer);
      GrowsOn(run[|run| - 1], next, s');
    } else {
      GrowsNot(s');
    }
  }

  /**
   * Whatever is drawn for each package, and whichever are lost, some run ends with all threads finished and
   * exactly that: with room in the queues, every consumer can receive every package.
   */
  lemma EveryOutcome(c: Config, d: seq<nat>, keep: seq<bool>) returns (s: State)
    requires c.Roomy() && |d| == |keep| == c.packageCount
    requires forall k :: 0 <= k < |d| ==> d[k] < c.consumerCount
    ensures Reachable(c, s) && Shape(c, s) && AllDone(c, s) && s.drawn == d
    ensures forall i :: 0 <= i < c.consumerCount ==> s.received[i] == Kept(d, keep, |d|, i)
    ensures s.lost == Dropped(d, keep, |d|)
  {
    hide Stuck, AllDone, Enabled, Apply, Kept, Dropped, Init;
    var quiet := QuietAfter(c, d, keep, |d|);
    var run :| IsRun(c, run) && run[|run| - 1] == quiet;
    s := Continue(c, run);
    var whole :| IsRun(c, whole) && whole[|whole| - 1] == s;
    PipelineEnds(c, whole);
    PipelineDelivers(c, whole);
    PackagesGoWhereDrawn(c, whole);
    SameSizes(quiet.received, s.received);
  }
}
