/**
 * The OpenMP simulation as a step machine: a team of threads runs the loop of the parallel region, with
 * its `single`, the implicit barriers after the `single` and the `for`, the reduction of the flag, each
 * thread's own reading of the flag, the explicit barrier, and the barrier that ends the region. The rows
 * are swept cell by cell as in BarrierPlate. Every interleaving is a run.
 */
module OmpTeam {
  import opened HeatGrid
  import opened FlatPlate
  import opened Sums
  import B = BarrierPlate

  type Config = B.Config

  /** Where a thread stands in the loop of the parallel region. */
  datatype Pc =
    | AtSingle                             // has reached the `single`, or is about to
    | CountState | SwapBuffers | ResetFlag // inside the `single`
    | AtSingleEnd                          // waits at its implicit barrier
    | ForBegin                             // about to make its copy of the flag
    | Sweep(row: nat, col: nat)
    | Merge                                // about to join its copy into the flag
    | AtForEnd                             // waits at the implicit barrier of the `for`
    | ReadFlag                             // about to test the flag
    | AtBarrier                            // waits at the explicit barrier
    | AtJoin                               // has left the loop and waits at the end of the region
    | Joined

  /** A thread counts the `single` constructs it has met; the first thread to meet one executes it. */
  datatype Thread = Thread(pc: Pc, equilibrated: bool, met: nat)

  datatype State = State(
    matrix: seq<real>, auxiliary: seq<real>, equilibratedPlate: bool, kStates: nat,
    singles: nat, threads: seq<Thread>)

  datatype Event = Local(i: nat) | Release

  /** All barriers are the one barrier of the team. */
  predicate Waits(pc: Pc) {
    pc.AtSingleEnd? || pc.AtForEnd? || pc.AtBarrier? || pc.AtJoin?
  }

  predicate InLoop(pc: Pc) {
    pc.ForBegin? || pc.Sweep? || pc.Merge? || pc.AtForEnd?
  }

  /** The program points of the `for` are those of a sweep of the pthread program. */
  function ToSweep(pc: Pc): B.Pc {
    match pc
    case ForBegin => B.Begin
    case Sweep(row, col) => B.Sweep(row, col)
    case Merge => B.Merge
    case AtForEnd => B.AtFirst
    case _ => B.Finished
  }

  function FromSweep(pc: B.Pc): Pc {
    match pc
    case Sweep(row, col) => Sweep(row, col)
    case Merge => Merge
    case _ => AtForEnd
  }

  /** The state as a sweep sees it, in the round after state n. */
  function AsSweep(s: State, n: nat): B.State {
    B.State(s.matrix, s.auxiliary, s.equilibratedPlate, n,
            seq(|s.threads|, i requires 0 <= i < |s.threads| =>
              B.Worker(ToSweep(s.threads[i].pc), s.threads[i].equilibrated)))
  }

  ghost predicate Shape(c: Config, s: State) {
    && c.Valid() && |s.threads| == c.team && |s.matrix| == |s.auxiliary| == c.rows * c.cols
    && forall i :: 0 <= i < |s.threads| && s.threads[i].pc.Sweep? ==>
                     B.SweepInBlock(c, i, s.threads[i].pc.row, s.threads[i].pc.col)
  }

  ghost predicate Enabled(c: Config, s: State, e: Event)
    requires Shape(c, s)
  {
    match e
    case Local(i) => i < |s.threads| && !Waits(s.threads[i].pc) && !s.threads[i].pc.Joined?
    case Release => forall i :: 0 <= i < |s.threads| ==> Waits(s.threads[i].pc)
  }

  function Past(pc: Pc): Pc
    requires Waits(pc)
  {
    match pc
    case AtSingleEnd => ForBegin
    case AtForEnd => ReadFlag
    case AtBarrier => AtSingle
    case AtJoin => Joined
  }

  function SetPc(s: State, i: nat, pc: Pc): State
    requires i < |s.threads|
  {
    s.(threads := s.threads[i := s.threads[i].(pc := pc)])
  }

  lemma SweepShape(c: Config, s: State, n: nat)
    requires Shape(c, s)
    ensures B.Shape(c, AsSweep(s, n))
  {
  }

  /** One step of the `for`: the same as one step of a sweep. */
  ghost function LoopStep(c: Config, s: State, i: nat): State
    requires Shape(c, s) && i < |s.threads| && InLoop(s.threads[i].pc) && !Waits(s.threads[i].pc)
  {
    SweepShape(c, s, s.kStates);
    var after := B.LocalStep(c, AsSweep(s, s.kStates), i);
    State(after.matrix, after.auxiliary, after.equilibratedPlate, s.kStates, s.singles,
          s.threads[i := Thread(FromSweep(after.workers[i].pc), after.workers[i].equilibrated, s.threads[i].met)])
  }

  /** The first thread to meet the next `single` executes it, the others skip it. */
  function MeetSingle(s: State, i: nat): State
    requires i < |s.threads|
  {
    var t := s.threads[i];
    if s.singles == t.met
        then s.(singles := s.singles + 1, threads := s.threads[i := t.(pc := CountState, met := t.met + 1)])
    else s.(threads := s.threads[i := t.(pc := AtSingleEnd, met := t.met + 1)])
  }

  ghost function LocalStep(c: Config, s: State, i: nat): State
    requires Shape(c, s) && Enabled(c, s, Local(i))
  {
    if InLoop(s.threads[i].pc) then LoopStep(c, s, i)
    else
      match s.threads[i].pc
      case AtSingle => MeetSingle(s, i)
      case CountState => SetPc(s.(kStates := s.kStates + 1), i, SwapBuffers)
      case SwapBuffers => SetPc(s.(matrix := s.auxiliary, auxiliary := s.matrix), i, ResetFlag)
      case ResetFlag => SetPc(s.(equilibratedPlate := true), i, AtSingleEnd)
      case ReadFlag => SetPc(s, i, if s.equilibratedPlate then AtJoin else AtBarrier)
  }

  ghost function Apply(c: Config, s: State, e: Event): State
    requires Shape(c, s) && Enabled(c, s, e)
  {
    match e
    case Local(i) => LocalStep(c, s, i)
    case Release =>
      s.(threads := seq(|s.threads|, i requires 0 <= i < |s.threads| => s.threads[i].(pc := Past(s.threads[i].pc))))
  }

  ghost predicate Step(c: Config, s: State, s': State) {
    Shape(c, s) && exists e :: Enabled(c, s, e) && s' == Apply(c, s, e)
  }

  ghost predicate Init(c: Config, g: Grid, s: State) {
    && Shape(c, s) && Rect(g, c.rows, c.cols)
    && Unflatten(s.matrix, c.rows, c.cols) == g && FlatSameBorder(s.auxiliary, s.matrix, c.rows, c.cols)
    && s.kStates == 0 && s.singles == 0
    && forall i :: 0 <= i < |s.threads| ==> s.threads[i].pc.AtSingle? && s.threads[i].met == 0
  }

  ghost predicate IsRun(c: Config, g: Grid, run: seq<State>) {
    && |run| > 0 && Init(c, g, run[0])
    && forall i :: 0 <= i < |run| - 1 ==> Step(c, run[i], run[i + 1])
  }

  ghost predicate Stuck(c: Config, s: State)
    requires Shape(c, s)
  {
    forall e :: !Enabled(c, s, e)
  }

  predicate AllJoined(s: State) {
    forall i :: 0 <= i < |s.threads| ==> s.threads[i].pc.Joined?
  }

  // ---- The invariant, by phase of a round ----

  datatype Phase = Meeting | Leading(leader: nat) | Sweeping | Deciding | Ended

  /** Nobody has met the `single` of the round. */
  ghost predicate MeetInv(c: Config, g: Grid, s: State, n: nat)
    requires Shape(c, s) && Rect(g, c.rows, c.cols)
  {
    && s.kStates == n && s.singles == n && Unflatten(s.matrix, c.rows, c.cols) == c.Grid(g, n)
    && forall i :: 0 <= i < |s.threads| ==> s.threads[i].pc.AtSingle? && s.threads[i].met == n
  }

  /** One thread is inside the `single` or past it; the others have yet to meet it or wait for its end. */
  ghost predicate LeadInv(c: Config, g: Grid, s: State, n: nat, leader: nat)
    requires Shape(c, s) && Rect(g, c.rows, c.cols)
  {
    && leader < |s.threads| && s.singles == n + 1 && s.threads[leader].met == n + 1
    && (forall i :: 0 <= i < |s.threads| && i != leader ==>
                      || (s.threads[i].pc.AtSingle? && s.threads[i].met == n)
                      || (s.threads[i].pc.AtSingleEnd? && s.threads[i].met == n + 1))
    && match s.threads[leader].pc
       case CountState => s.kStates == n && Unflatten(s.matrix, c.rows, c.cols) == c.Grid(g, n)
       case SwapBuffers => s.kStates == n + 1 && Unflatten(s.matrix, c.rows, c.cols) == c.Grid(g, n)
       case ResetFlag => s.kStates == n + 1 && Unflatten(s.auxiliary, c.rows, c.cols) == c.Grid(g, n)
       case AtSingleEnd =>
         s.kStates == n + 1 && Unflatten(s.auxiliary, c.rows, c.cols) == c.Grid(g, n) && s.equilibratedPlate
       case _ => false
  }

  ghost predicate SweepInv(c: Config, g: Grid, s: State, n: nat)
    requires Shape(c, s) && Rect(g, c.rows, c.cols)
  {
    && s.kStates == n + 1 && s.singles == n + 1
    && B.InvAt(c, g, AsSweep(s, n), n, B.Sweeping)
    && forall i :: 0 <= i < |s.threads| ==> InLoop(s.threads[i].pc) && s.threads[i].met == n + 1
  }

  /** The sweep is over; threads read the flag and part accordingly, all the same way. */
  ghost predicate DecideInv(c: Config, g: Grid, s: State, n: nat)
    requires Shape(c, s) && Rect(g, c.rows, c.cols)
  {
    && s.kStates == n + 1 && s.singles == n + 1 && Unflatten(s.matrix, c.rows, c.cols) == c.Grid(g, n + 1)
    && (s.equilibratedPlate <==> c.Done(g, n + 1))
    && forall i :: 0 <= i < |s.threads| ==>
                     && s.threads[i].met == n + 1
                     && (s.threads[i].pc.ReadFlag?
                         || s.threads[i].pc == if s.equilibratedPlate then AtJoin else AtBarrier)
  }

  ghost predicate EndInv(c: Config, g: Grid, s: State, n: nat)
    requires Shape(c, s) && Rect(g, c.rows, c.cols)
  {
    && s.kStates == n + 1 && Unflatten(s.matrix, c.rows, c.cols) == c.Grid(g, n + 1) && c.Done(g, n + 1)
    && AllJoined(s) && forall i :: 0 <= i < |s.threads| ==> s.threads[i].met == n + 1
  }

  ghost predicate InvAt(c: Config, g: Grid, s: State, n: nat, phase: Phase) {
    && Shape(c, s) && Rect(g, c.rows, c.cols)
    && FlatSameBorder(s.auxiliary, s.matrix, c.rows, c.cols)
    && (forall j: nat :: j <= n ==> !c.Done(g, j))
    && match phase
       case Meeting => MeetInv(c, g, s, n)
       case Leading(leader) => LeadInv(c, g, s, n, leader)
       case Sweeping => SweepInv(c, g, s, n)
       case Deciding => DecideInv(c, g, s, n)
       case Ended => EndInv(c, g, s, n)
  }

  function NextPhase(s: State, phase: Phase, e: Event): Phase {
    match phase
    case Meeting => if e.Local? then Leading(e.i) else phase
    case Leading(_) => if e.Release? then Sweeping else phase
    case Sweeping => if e.Release? then Deciding else phase
    case Deciding => if e.Local? then phase else if s.equilibratedPlate then Ended else Meeting
    case Ended => phase
  }

  function NextRound(s: State, phase: Phase, n: nat, e: Event): nat {
    if phase.Deciding? && e.Release? && !s.equilibratedPlate then n + 1 else n
  }

  lemma InvInit(c: Config, g: Grid, s: State)
    requires Init(c, g, s)
    ensures InvAt(c, g, s, 0, Meeting)
  {
    hide Unflatten, FlatSameBorder;
    forall j: nat | j <= 0 ensures !c.Done(g, j) {}
  }

  lemma MeetStep(c: Config, g: Grid, s: State, n: nat, e: Event)
    requires InvAt(c, g, s, n, Meeting) && Enabled(c, s, e)
    ensures e.Local? && InvAt(c, g, Apply(c, s, e), n, Leading(e.i))
  {
    hide Unflatten, FlatSameBorder, HeatGrid.State, Settled, LoopStep;
    assert s.threads[0].pc.AtSingle?;
    assert e.Release? ==> Waits(s.threads[0].pc);
  }

  lemma LeadStep(c: Config, g: Grid, s: State, n: nat, leader: nat, i: nat)
    requires InvAt(c, g, s, n, Leading(leader)) && Enabled(c, s, Local(i))
    ensures InvAt(c, g, LocalStep(c, s, i), n, Leading(leader))
  {
    hide Unflatten, FlatSameBorder, HeatGrid.State, Settled, LoopStep;
    B.SwappedBorder(s.auxiliary, s.matrix, c.rows, c.cols);
  }

  /** After the `single` every thread starts a fresh sweep. */
  lemma LeadReleased(c: Config, g: Grid, s: State, n: nat, leader: nat)
    requires InvAt(c, g, s, n, Leading(leader)) && Enabled(c, s, Release)
    ensures InvAt(c, g, Apply(c, s, Release), n, Sweeping)
  {
    hide Unflatten, FlatSameBorder, HeatGrid.State, Settled, B.SweepInv;
    assert Waits(s.threads[leader].pc);
    var s' := Apply(c, s, Release);
    forall i | 0 <= i < |s.threads| ensures s'.threads[i].pc.ForBegin? && s'.threads[i].met == n + 1 {
      assert Waits(s.threads[i].pc);
    }
    SweepShape(c, s', n);
    B.FreshRound(c, AsSweep(s', n));
  }

  lemma LoopStepIsSweepStep(c: Config, s: State, n: nat, i: nat)
    requires Shape(c, s) && Enabled(c, s, Local(i)) && InLoop(s.threads[i].pc)
    ensures B.Shape(c, AsSweep(s, n)) && B.Enabled(c, AsSweep(s, n), B.Local(i))
    ensures Shape(c, LoopStep(c, s, i)) && AsSweep(LoopStep(c, s, i), n) == B.LocalStep(c, AsSweep(s, n), i)
    ensures InLoop(LoopStep(c, s, i).threads[i].pc)
  {
    hide FlatCell, Put, At;
    SweepShape(c, s, n);
    SweepShape(c, s, s.kStates);
    BlockInPlate(i, c.rows, c.team);
  }

  lemma LoopStepKeeps(c: Config, s: State, i: nat)
    requires Shape(c, s) && Enabled(c, s, Local(i)) && InLoop(s.threads[i].pc)
    ensures var s' := LoopStep(c, s, i);
            && s'.kStates == s.kStates && s'.singles == s.singles && |s'.threads| == |s.threads|
            && s'.threads[i].met == s.threads[i].met
            && forall j :: 0 <= j < |s.threads| && j != i ==> s'.threads[j] == s.threads[j]
  {
  }

  lemma SweepStep(c: Config, g: Grid, s: State, n: nat, i: nat)
    requires InvAt(c, g, s, n, Sweeping) && Enabled(c, s, Local(i))
    ensures InvAt(c, g, LocalStep(c, s, i), n, Sweeping)
  {
    hide Unflatten, FlatSameBorder, HeatGrid.State, Settled, LoopStep, B.LocalStep, B.SweepInv;
    LoopStepIsSweepStep(c, s, n, i);
    B.SweepLocalStep(c, g, AsSweep(s, n), n, i);
    LoopStepKeeps(c, s, i);
  }

  lemma SweepReleased(c: Config, g: Grid, s: State, n: nat)
    requires InvAt(c, g, s, n, Sweeping) && Enabled(c, s, Release)
    ensures InvAt(c, g, Apply(c, s, Release), n, Deciding)
  {
    hide Unflatten, FlatSameBorder, HeatGrid.State, Settled, B.SweepInv;
    forall i | 0 <= i < |s.threads| ensures s.threads[i].pc.AtForEnd? {
      assert Waits(s.threads[i].pc);
    }
    B.SweepComplete(c, g, AsSweep(s, n), n);
  }

  lemma DecideStep(c: Config, g: Grid, s: State, n: nat, e: Event)
    requires InvAt(c, g, s, n, Deciding) && Enabled(c, s, e)
    ensures InvAt(c, g, Apply(c, s, e), NextRound(s, Deciding, n, e), NextPhase(s, Deciding, e))
  {
    hide Unflatten, FlatSameBorder, HeatGrid.State, Settled, LoopStep;
    if e.Release? {
      forall i | 0 <= i < |s.threads| ensures s.threads[i].pc == if s.equilibratedPlate then AtJoin else AtBarrier {
        assert Waits(s.threads[i].pc);
      }
    }
  }

  lemma EndedIsOver(c: Config, g: Grid, s: State, n: nat, phase: Phase, e: Event)
    requires InvAt(c, g, s, n, phase) && Enabled(c, s, e)
    ensures !phase.Ended?
  {
    hide Unflatten, FlatSameBorder, HeatGrid.State, Settled, B.InvAt;
    assert e.Release? ==> Waits(s.threads[0].pc);
  }

  lemma InvStep(c: Config, g: Grid, s: State, n: nat, phase: Phase, e: Event)
    requires InvAt(c, g, s, n, phase) && Enabled(c, s, e)
    ensures InvAt(c, g, Apply(c, s, e), NextRound(s, phase, n, e), NextPhase(s, phase, e))
  {
    EndedIsOver(c, g, s, n, phase, e);
    hide InvAt, LocalStep;
    match phase {
      case Meeting => MeetStep(c, g, s, n, e);
      case Leading(leader) =>
        if e.Local? { LeadStep(c, g, s, n, leader, e.i); } else { LeadReleased(c, g, s, n, leader); }
      case Sweeping =>
        if e.Local? { SweepStep(c, g, s, n, e.i); } else { SweepReleased(c, g, s, n); }
      case Deciding => DecideStep(c, g, s, n, e);
      case Ended =>
    }
  }

  // ---- Progress and a bound on every run ----

  /** Steps that a thread still has before it in the current round. */
  function StepsLeft(c: Config, i: nat, pc: Pc): nat
    requires c.Valid()
  {
    match pc
    case AtSingle => B.SweepLeft(c, i, c.From(i), 1) + 20
    case CountState => B.SweepLeft(c, i, c.From(i), 1) + 19
    case SwapBuffers => B.SweepLeft(c, i, c.From(i), 1) + 18
    case ResetFlag => B.SweepLeft(c, i, c.From(i), 1) + 17
    case AtSingleEnd => B.SweepLeft(c, i, c.From(i), 1) + 16
    case AtForEnd => 12
    case ReadFlag => 8
    case AtBarrier => 4
    case AtJoin => 4
    case Joined => 0
    case _ => B.StepsLeft(c, i, ToSweep(pc))
  }

  function RoundLeft(c: Config, threads: seq<Thread>): seq<nat>
    requires c.Valid()
  {
    seq(|threads|, i requires 0 <= i < |threads| => StepsLeft(c, i, threads[i].pc))
  }

  /** The steps of a whole round. */
  function RoundCost(c: Config): nat
    requires c.Valid()
  {
    Sum(seq(c.team, i requires 0 <= i < c.team => StepsLeft(c, i, AtSingle)))
  }

  function Rank(c: Config, s: State, n: nat, last: nat): nat
    requires c.Valid() && n <= last
  {
    B.Budget(last - n, RoundCost(c), Sum(RoundLeft(c, s.threads)))
  }

  lemma LoopStepShortens(c: Config, s: State, i: nat)
    requires Shape(c, s) && Enabled(c, s, Local(i)) && InLoop(s.threads[i].pc)
    ensures StepsLeft(c, i, LoopStep(c, s, i).threads[i].pc) < StepsLeft(c, i, s.threads[i].pc)
  {
    hide FlatCell, Put, At;
    SweepShape(c, s, s.kStates);
    if s.threads[i].pc.Sweep? {
      var row, col := s.threads[i].pc.row, s.threads[i].pc.col;
      if row < c.To(i) && !(col + 1 < c.cols) {
        assert (c.To(i) - row) * (c.cols + 1) == (c.To(i) - (row + 1)) * (c.cols + 1) + (c.cols + 1);
      }
    }
  }

  lemma LocalStepShortens(c: Config, s: State, i: nat)
    requires Shape(c, s) && Enabled(c, s, Local(i))
    ensures Sum(RoundLeft(c, LocalStep(c, s, i).threads)) < Sum(RoundLeft(c, s.threads))
  {
    hide LoopStep, B.StepsLeft, B.SweepLeft;
    if InLoop(s.threads[i].pc) {
      LoopStepShortens(c, s, i);
      LoopStepKeeps(c, s, i);
    }
    var a, b := RoundLeft(c, LocalStep(c, s, i).threads), RoundLeft(c, s.threads);
    assert a[i] < b[i];
    forall j | 0 <= j < |a| ensures a[j] <= b[j] {}
    SumOrder(a, b);
  }

  lemma ReleaseShortens(c: Config, s: State)
    requires Shape(c, s) && Enabled(c, s, Release)
    requires forall i :: 0 <= i < |s.threads| ==> !s.threads[i].pc.AtBarrier?
    ensures Sum(RoundLeft(c, Apply(c, s, Release).threads)) < Sum(RoundLeft(c, s.threads))
  {
    var a, b := RoundLeft(c, Apply(c, s, Release).threads), RoundLeft(c, s.threads);
    forall j | 0 <= j < |a| ensures a[j] < b[j] {}
    SumOrder(a, b);
    assert a[0] < b[0];
  }

  /** Which barrier the threads wait at when it releases them. */
  lemma ReleaseFitsPhase(c: Config, g: Grid, s: State, n: nat, phase: Phase)
    requires InvAt(c, g, s, n, phase) && Enabled(c, s, Release)
    ensures !phase.Meeting? && !phase.Ended?
    ensures forall i :: 0 <= i < |s.threads| ==>
              s.threads[i].pc == if phase.Leading? then AtSingleEnd else if phase.Sweeping? then AtForEnd
                                 else if s.equilibratedPlate then AtJoin else AtBarrier
  {
    hide Unflatten, FlatSameBorder, HeatGrid.State, Settled, B.InvAt;
    assert Waits(s.threads[0].pc);
    assert phase.Leading? ==> Waits(s.threads[phase.leader].pc);
    forall i | 0 <= i < |s.threads|
      ensures s.threads[i].pc == if phase.Leading? then AtSingleEnd else if phase.Sweeping? then AtForEnd
                                 else if s.equilibratedPlate then AtJoin else AtBarrier
    {
      assert Waits(s.threads[i].pc);
    }
  }

  lemma RankDrops(c: Config, g: Grid, s: State, n: nat, phase: Phase, e: Event, last: nat)
    requires InvAt(c, g, s, n, phase) && Enabled(c, s, e) && c.Done(g, last)
    ensures n < last && NextRound(s, phase, n, e) < last
    ensures Rank(c, Apply(c, s, e), NextRound(s, phase, n, e), last) < Rank(c, s, n, last)
  {
    hide StepsLeft, LocalStep, MeetInv, LeadInv, SweepInv, EndInv, Unflatten, FlatSameBorder, HeatGrid.State, Settled;
    assert n < last;
    if e.Local? {
      LocalStepShortens(c, s, e.i);
    } else {
      ReleaseFitsPhase(c, g, s, n, phase);
      if phase.Deciding? && !s.equilibratedPlate {
        var s' := Apply(c, s, e);
        assert RoundLeft(c, s'.threads) == seq(c.team, i requires 0 <= i < c.team => StepsLeft(c, i, AtSingle));
        B.BudgetNextRound(last - n, RoundCost(c));
      } else {
        ReleaseShortens(c, s);
      }
    }
  }

  /** Unless the region is over, some thread or the barrier can move. */
  lemma Progress(c: Config, g: Grid, s: State, n: nat, phase: Phase)
    requires InvAt(c, g, s, n, phase)
    ensures AllJoined(s) || exists e :: Enabled(c, s, e)
  {
    hide Unflatten, FlatSameBorder, HeatGrid.State, Settled, B.InvAt;
    if i :| 0 <= i < |s.threads| && !Waits(s.threads[i].pc) && !s.threads[i].pc.Joined? {
      assert Enabled(c, s, Local(i));
    } else if !phase.Ended? {
      forall i | 0 <= i < |s.threads| ensures Waits(s.threads[i].pc) {}
      assert Enabled(c, s, Release);
    }
  }

  // ---- Main results, over every run ----

  lemma LastIsLater(c: Config, g: Grid, s: State, n: nat, phase: Phase, last: nat)
    requires InvAt(c, g, s, n, phase) && c.Done(g, last)
    ensures n < last
  {
  }

  lemma {:induction false} RunInv(c: Config, g: Grid, run: seq<State>) returns (n: nat, phase: Phase)
    requires IsRun(c, g, run)
    ensures InvAt(c, g, run[|run| - 1], n, phase)
    ensures forall last: nat :: c.Done(g, last) ==>
              n < last && |run| - 1 + Rank(c, run[|run| - 1], n, last) <= Rank(c, run[0], 0, last)
    decreases |run|
  {
    hide InvAt, Enabled, Rank, HeatGrid.State, Settled;
    assert Rect(g, c.rows, c.cols);
    if |run| == 1 {
      InvInit(c, g, run[0]);
      n, phase := 0, Meeting;
      forall last: nat | c.Done(g, last) ensures n < last {
        LastIsLater(c, g, run[0], 0, Meeting, last);
      }
    } else {
      var front := run[..|run| - 1];
      n, phase := RunInv(c, g, front);
      var s, s' := run[|run| - 2], run[|run| - 1];
      assert Step(c, run[|run| - 2], run[|run| - 2 + 1]);
      var e :| Enabled(c, s, e) && s' == Apply(c, s, e);
      InvStep(c, g, s, n, phase, e);
      var m := NextRound(s, phase, n, e);
      forall last: nat | c.Done(g, last)
        ensures m < last && |run| - 1 + Rank(c, s', m, last) <= Rank(c, run[0], 0, last)
      {
        RankDrops(c, g, s, n, phase, e, last);
      }
      n, phase := m, NextPhase(s, phase, e);
    }
  }

  predicate InSingle(pc: Pc) {
    pc.CountState? || pc.SwapBuffers? || pc.ResetFlag?
  }

  predicate HasLeft(pc: Pc) {
    pc.AtJoin? || pc.Joined?
  }

  /** What the constructs guarantee about the team, in one state. */
  ghost predicate TeamSafe(s: State) {
    var n := |s.threads|;
    // count, swap and reset happen in one thread, while all others have yet to meet the `single` or wait for
    // its end: nobody sweeps, and nobody has still to read the flag of the last round
    && (forall i, j :: 0 <= i < n && 0 <= j < n && i != j && InSingle(s.threads[i].pc) ==>
                         s.threads[j].pc.AtSingle? || s.threads[j].pc.AtSingleEnd?)
    // when one thread leaves the loop, so do all others, in the same round
    && (forall i, j :: 0 <= i < n && 0 <= j < n && HasLeft(s.threads[i].pc) ==>
                         && (HasLeft(s.threads[j].pc) || (s.threads[j].pc.ReadFlag? && s.equilibratedPlate))
                         && s.threads[j].met == s.threads[i].met == s.kStates)
    // when the barrier releases the team, all threads wait at the same construct
    && ((forall i :: 0 <= i < n ==> Waits(s.threads[i].pc)) ==>
          forall i, j :: 0 <= i < n && 0 <= j < n ==> s.threads[i].pc == s.threads[j].pc)
  }

  lemma TeamSafeAt(c: Config, g: Grid, s: State, n: nat, phase: Phase)
    requires InvAt(c, g, s, n, phase)
    ensures TeamSafe(s)
  {
    hide Unflatten, FlatSameBorder, HeatGrid.State, Settled, B.InvAt;
    if forall i :: 0 <= i < |s.threads| ==> Waits(s.threads[i].pc) {
      ReleaseFitsPhase(c, g, s, n, phase);
    }
  }

  lemma ConstructsSeparatePhases(c: Config, g: Grid, run: seq<State>)
    requires IsRun(c, g, run)
    ensures TeamSafe(run[|run| - 1])
  {
    hide InvAt, Rank;
    var n, phase := RunInv(c, g, run);
    TeamSafeAt(c, g, run[|run| - 1], n, phase);
  }

  lemma JoinedState(c: Config, g: Grid, s: State, n: nat, phase: Phase)
    requires InvAt(c, g, s, n, phase) && AllJoined(s)
    ensures Shape(c, s)
    ensures FirstSettled(g, c.rows, c.cols, c.mult, c.epsilon, s.kStates)
    ensures Unflatten(s.matrix, c.rows, c.cols) == HeatGrid.State(g, c.rows, c.cols, c.mult, s.kStates)
  {
    hide Unflatten, FlatSameBorder, HeatGrid.State, Settled, B.InvAt;
    assert s.threads[0].pc.Joined?;
    assert c.Done(g, n + 1);
    forall j: nat | j < n + 1 ensures !Settled(g, c.rows, c.cols, c.mult, c.epsilon, j) {
      assert !c.Done(g, j);
    }
  }

  /**
   * For every size of the team and every interleaving, at the end of the region the matrix holds the state
   * the serial program leaves, and the counter is the number of states the serial program counts.
   */
  lemma TeamRefinesSerial(c: Config, g: Grid, run: seq<State>)
    requires IsRun(c, g, run) && AllJoined(run[|run| - 1])
    ensures var s := run[|run| - 1];
            && Shape(c, s)
            && FirstSettled(g, c.rows, c.cols, c.mult, c.epsilon, s.kStates)
            && (forall k: nat :: FirstSettled(g, c.rows, c.cols, c.mult, c.epsilon, k) ==> k == s.kStates)
            && Unflatten(s.matrix, c.rows, c.cols) == HeatGrid.State(g, c.rows, c.cols, c.mult, s.kStates)
  {
    hide InvAt, Rank, Settled;
    var n, phase := RunInv(c, g, run);
    JoinedState(c, g, run[|run| - 1], n, phase);
  }

  lemma ShapeOfInv(c: Config, g: Grid, s: State, n: nat, phase: Phase)
    requires InvAt(c, g, s, n, phase)
    ensures Shape(c, s)
  {
  }

  /** On a plate that settles, every run is finite and a run that cannot go on has left the region. */
  lemma TeamRunsEnd(c: Config, g: Grid, run: seq<State>)
    requires IsRun(c, g, run) && Settles(g, c.rows, c.cols, c.mult, c.epsilon)
    ensures forall last: nat :: FirstSettled(g, c.rows, c.cols, c.mult, c.epsilon, last) ==>
                                  |run| - 1 <= last * (RoundCost(c) + 1) + RoundCost(c)
    ensures Shape(c, run[|run| - 1])
    ensures Stuck(c, run[|run| - 1]) ==> AllJoined(run[|run| - 1])
  {
    hide InvAt, Enabled;
    var n, phase := RunInv(c, g, run);
    var s := run[|run| - 1];
    Progress(c, g, s, n, phase);
    assert RoundLeft(c, run[0].threads) == seq(c.team, i requires 0 <= i < c.team => StepsLeft(c, i, AtSingle));
    forall last: nat | FirstSettled(g, c.rows, c.cols, c.mult, c.epsilon, last)
      ensures |run| - 1 <= last * (RoundCost(c) + 1) + RoundCost(c)
    {
      assert c.Done(g, last);
    }
    ShapeOfInv(c, g, s, n, phase);
  }
}
