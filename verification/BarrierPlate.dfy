/**
 * The pthread simulation as a step machine: T workers share two flat buffers, one flag, one counter
 * and two barriers, each of which is used twice per round. One step is one cell update, one critical
 * section, one arrival, one release of a barrier, or one private branch. Every interleaving is a run.
 */
module BarrierPlate {
  import opened HeatGrid
  import opened BlockMap
  import opened FlatPlate
  import opened Sums

  /** Where a worker stands in the loop of equilibrate_plate_concurrent. */
  datatype Pc =
    | Begin                      // about to reset its private flag
    | Sweep(row: nat, col: nat)  // in the loops over its cells
    | Merge                      // about to join its flag into the shared one
    | AtFirst                    // waiting at can_continue1
    | CountState | SwapBuffers   // the serial thread between the two barriers
    | ToSecond | AtSecond        // going to, and waiting at, can_continue2
    | ReadDone | Choose(done: bool)
    | AtFirstAgain               // waiting at can_continue1 for the second time
    | ResetFlag                  // the serial thread of that wait
    | ToSecondAgain | AtSecondAgain
    | Finished

  datatype Worker = Worker(pc: Pc, equilibrated: bool)

  datatype State = State(matrix: seq<real>, auxiliary: seq<real>, equilibratedPlate: bool, kStates: nat,
                         workers: seq<Worker>)

  /** A plate, its constants, and the number of threads that share its rows. */
  datatype Config = Config(rows: nat, cols: nat, mult: real, epsilon: real, team: nat) {
    predicate Valid() {
      rows >= 2 && cols >= 1 && team >= 1
    }

    function From(i: nat): nat
      requires Valid()
    {
      FinishRow(i, rows - 2, team) + 1
    }

    function To(i: nat): nat
      requires Valid()
    {
      FinishRow(i + 1, rows - 2, team) + 1
    }

    ghost function Grid(g: HeatGrid.Grid, k: nat): HeatGrid.Grid
      requires Rect(g, rows, cols)
    {
      HeatGrid.State(g, rows, cols, mult, k)
    }

    ghost predicate Done(g: HeatGrid.Grid, k: nat)
      requires Rect(g, rows, cols)
    {
      Settled(g, rows, cols, mult, epsilon, k)
    }
  }

  /** The size of the team that init_shared_data makes: no more threads than rows to evaluate. */
  function TeamSize(rows: nat, requested: nat): (team: nat)
    requires rows >= 3 && requested >= 1
    ensures 1 <= team <= rows - 2 && team <= requested && (team == rows - 2 || team == requested)
  {
    if rows - 2 > requested then requested else rows - 2
  }

  /** Every thread of that team has at least one row, one more or less than the others, and they follow each other. */
  lemma TeamHasWork(c: Config, requested: nat, i: nat)
    requires c.rows >= 3 && c.cols >= 1 && requested >= 1 && c.team == TeamSize(c.rows, requested) && i < c.team
    ensures c.Valid() && 1 <= c.From(i) < c.To(i) <= c.rows - 1
    ensures c.To(i) - c.From(i) == (c.rows - 2) / c.team + (if i < (c.rows - 2) % c.team then 1 else 0)
    ensures i == 0 ==> c.From(i) == 1
    ensures if i == c.team - 1 then c.To(i) == c.rows - 1 else c.To(i) == c.From(i + 1)
  {
    FinishRowEnds(c.rows - 2, c.team);
    BlockInPlate(i, c.rows, c.team);
    FinishRowAdvances(i, c.rows - 2, c.team);
    BlockNotEmpty(i, c.rows - 2, c.team);
  }

  /** A thread moves on its own, or a barrier on which all threads wait releases them. */
  datatype Event = Local(i: nat) | ReleaseFirst(serial: nat) | ReleaseSecond

  /** A sweep stays within the rows of its worker. */
  predicate SweepInBlock(c: Config, i: nat, row: nat, col: nat)
    requires c.Valid()
  {
    c.From(i) <= row <= c.To(i) && 1 <= col <= EndCol(c.cols) && (row == c.To(i) ==> col == 1)
  }

  ghost predicate Shape(c: Config, s: State) {
    && c.Valid()
    && |s.workers| == c.team
    && |s.matrix| == |s.auxiliary| == c.rows * c.cols
    && forall i :: 0 <= i < |s.workers| && s.workers[i].pc.Sweep? ==>
                     SweepInBlock(c, i, s.workers[i].pc.row, s.workers[i].pc.col)
  }

  predicate WaitsAtFirst(pc: Pc) {
    pc.AtFirst? || pc.AtFirstAgain?
  }

  predicate WaitsAtSecond(pc: Pc) {
    pc.AtSecond? || pc.AtSecondAgain?
  }

  predicate Runs(pc: Pc) {
    !WaitsAtFirst(pc) && !WaitsAtSecond(pc) && !pc.Finished?
  }

  ghost predicate Enabled(c: Config, s: State, e: Event)
    requires Shape(c, s)
  {
    match e
    case Local(i) => i < |s.workers| && Runs(s.workers[i].pc)
    case ReleaseFirst(serial) =>
      serial < |s.workers| && forall i :: 0 <= i < |s.workers| ==> WaitsAtFirst(s.workers[i].pc)
    case ReleaseSecond =>
      forall i :: 0 <= i < |s.workers| ==> WaitsAtSecond(s.workers[i].pc)
  }

  /** Both uses of the first barrier single out one thread, which one is up to the library. */
  function PastFirst(pc: Pc, serial: bool): Pc
    requires WaitsAtFirst(pc)
  {
    if pc.AtFirst? then (if serial then CountState else ToSecond)
    else (if serial then ResetFlag else ToSecondAgain)
  }

  function PastSecond(pc: Pc): Pc
    requires WaitsAtSecond(pc)
  {
    if pc.AtSecond? then ReadDone else Begin
  }

  /** The two buffers change roles. */
  function SetAuxiliary(s: State): State {
    s.(matrix := s.auxiliary, auxiliary := s.matrix)
  }

  function SetPc(s: State, i: nat, pc: Pc): State
    requires i < |s.workers|
  {
    s.(workers := s.workers[i := s.workers[i].(pc := pc)])
  }

  /** One cell of the sweep: read the auxiliary buffer, store into the matrix, compare. */
  ghost function SweepCell(c: Config, s: State, i: nat, row: nat, col: nat): State
    requires Shape(c, s) && i < |s.workers| && Interior(c.rows, c.cols, row, col)
  {
    var x := FlatCell(s.auxiliary, c.rows, c.cols, c.mult, row, col);
    var difference := Abs(x - At(s.auxiliary, c.rows, c.cols, row, col));
    State(Put(s.matrix, c.rows, c.cols, row, col, x), s.auxiliary, s.equilibratedPlate, s.kStates,
          s.workers[i := Worker(Sweep(row, col + 1), s.workers[i].equilibrated && !(difference > c.epsilon))])
  }

  ghost function LocalStep(c: Config, s: State, i: nat): State
    requires Shape(c, s) && Enabled(c, s, Local(i))
  {
    match s.workers[i].pc
    case Begin => s.(workers := s.workers[i := Worker(Sweep(c.From(i), 1), true)])
    case Sweep(row, col) =>
      BlockInPlate(i, c.rows, c.team);
      if row >= c.To(i) then SetPc(s, i, Merge)
      else if col + 1 < c.cols then SweepCell(c, s, i, row, col)
      else SetPc(s, i, Sweep(row + 1, 1))
    case Merge => SetPc(s.(equilibratedPlate := s.equilibratedPlate && s.workers[i].equilibrated), i, AtFirst)
    case CountState => SetPc(s.(kStates := s.kStates + 1), i, SwapBuffers)
    case SwapBuffers => SetPc(SetAuxiliary(s), i, ToSecond)
    case ToSecond => SetPc(s, i, AtSecond)
    case ReadDone => SetPc(s, i, Choose(s.equilibratedPlate))
    case Choose(done) => SetPc(s, i, if done then Finished else AtFirstAgain)
    case ResetFlag => SetPc(s.(equilibratedPlate := true), i, ToSecondAgain)
    case ToSecondAgain => SetPc(s, i, AtSecondAgain)
  }

  ghost function Apply(c: Config, s: State, e: Event): State
    requires Shape(c, s) && Enabled(c, s, e)
  {
    match e
    case Local(i) => LocalStep(c, s, i)
    case ReleaseFirst(serial) =>
      s.(workers := seq(|s.workers|, i requires 0 <= i < |s.workers| =>
           s.workers[i].(pc := PastFirst(s.workers[i].pc, i == serial))))
    case ReleaseSecond =>
      s.(workers := seq(|s.workers|, i requires 0 <= i < |s.workers| =>
           s.workers[i].(pc := PastSecond(s.workers[i].pc))))
  }

  ghost predicate Step(c: Config, s: State, s': State) {
    Shape(c, s) && exists e :: Enabled(c, s, e) && s' == Apply(c, s, e)
  }

  /** What equilibrate_plate hands to the team: a plate that holds `g`, its buffers swapped once. */
  ghost predicate Init(c: Config, g: HeatGrid.Grid, s: State) {
    && Shape(c, s) && Rect(g, c.rows, c.cols)
    && Unflatten(SetAuxiliary(s).matrix, c.rows, c.cols) == g && FlatSameBorder(s.auxiliary, s.matrix, c.rows, c.cols)
    && s.equilibratedPlate && s.kStates == 0
    && forall i :: 0 <= i < |s.workers| ==> s.workers[i].pc == Begin
  }

  ghost predicate IsRun(c: Config, g: HeatGrid.Grid, run: seq<State>) {
    && |run| > 0 && Init(c, g, run[0])
    && forall i :: 0 <= i < |run| - 1 ==> Step(c, run[i], run[i + 1])
  }

  /** No thread and no barrier can move. */
  ghost predicate Stuck(c: Config, s: State)
    requires Shape(c, s)
  {
    forall e :: !Enabled(c, s, e)
  }

  ghost predicate AllFinished(s: State) {
    forall i :: 0 <= i < |s.workers| ==> s.workers[i].pc.Finished?
  }

  // ---- The invariant, by phase of a round ----

  datatype Phase = Sweeping | Leading(serial: nat) | Deciding | Resetting(serial: nat)

  /** The cells that worker i has updated this round. */
  ghost function DoneCells(c: Config, i: nat, pc: Pc): (nat, nat) -> bool
    requires c.Valid()
  {
    match pc
    case Begin => RowsIn(0, 0)
    case Sweep(row, col) => Before(c.From(i), row, col)
    case _ => RowsIn(c.From(i), c.To(i))
  }

  ghost predicate WorkerSweeps(c: Config, s: State, i: nat)
    requires Shape(c, s) && i < |s.workers|
  {
    var w := s.workers[i];
    && (w.pc.Begin? || w.pc.Sweep? || w.pc.Merge? || w.pc.AtFirst?)
    && FlatSwept(s.auxiliary, s.matrix, c.rows, c.cols, c.mult, DoneCells(c, i, w.pc))
    && (!w.pc.Begin? ==>
          (w.equilibrated <==> FlatWithin(s.auxiliary, c.rows, c.cols, c.mult, c.epsilon, DoneCells(c, i, w.pc))))
  }

  ghost predicate SweepInv(c: Config, s: State)
    requires Shape(c, s)
  {
    && (forall i :: 0 <= i < |s.workers| ==> WorkerSweeps(c, s, i))
    && (s.equilibratedPlate <==>
        forall i :: 0 <= i < |s.workers| && s.workers[i].pc.AtFirst? ==> s.workers[i].equilibrated)
  }

  ghost predicate Holds(c: Config, s: State, matrix: HeatGrid.Grid, auxiliary: HeatGrid.Grid)
    requires Shape(c, s)
  {
    Unflatten(s.matrix, c.rows, c.cols) == matrix && Unflatten(s.auxiliary, c.rows, c.cols) == auxiliary
  }

  ghost predicate LeadInv(c: Config, g: HeatGrid.Grid, s: State, n: nat, serial: nat)
    requires Shape(c, s) && Rect(g, c.rows, c.cols)
  {
    && serial < |s.workers|
    && (s.equilibratedPlate <==> c.Done(g, n + 1))
    && (forall i :: 0 <= i < |s.workers| && i != serial ==> s.workers[i].pc.ToSecond? || s.workers[i].pc.AtSecond?)
    && match s.workers[serial].pc
       case CountState => s.kStates == n && Holds(c, s, c.Grid(g, n + 1), c.Grid(g, n))
       case SwapBuffers => s.kStates == n + 1 && Holds(c, s, c.Grid(g, n + 1), c.Grid(g, n))
       case ToSecond => s.kStates == n + 1 && Holds(c, s, c.Grid(g, n), c.Grid(g, n + 1))
       case AtSecond => s.kStates == n + 1 && Holds(c, s, c.Grid(g, n), c.Grid(g, n + 1))
       case _ => false
  }

  ghost predicate DecideInv(c: Config, g: HeatGrid.Grid, s: State, n: nat)
    requires Shape(c, s) && Rect(g, c.rows, c.cols)
  {
    && s.kStates == n + 1 && Holds(c, s, c.Grid(g, n), c.Grid(g, n + 1))
    && (s.equilibratedPlate <==> c.Done(g, n + 1))
    && forall i :: 0 <= i < |s.workers| ==>
                     match s.workers[i].pc
                     case ReadDone => true
                     case Choose(done) => done == s.equilibratedPlate
                     case Finished => s.equilibratedPlate
                     case AtFirstAgain => !s.equilibratedPlate
                     case _ => false
  }

  ghost predicate ResetInv(c: Config, g: HeatGrid.Grid, s: State, n: nat, serial: nat)
    requires Shape(c, s) && Rect(g, c.rows, c.cols)
  {
    && serial < |s.workers|
    && s.kStates == n + 1 && Holds(c, s, c.Grid(g, n), c.Grid(g, n + 1)) && !c.Done(g, n + 1)
    && (forall i :: 0 <= i < |s.workers| && i != serial ==>
                      s.workers[i].pc.ToSecondAgain? || s.workers[i].pc.AtSecondAgain?)
    && (s.workers[serial].pc.ResetFlag? || s.workers[serial].pc.ToSecondAgain? || s.workers[serial].pc.AtSecondAgain?)
    && (s.equilibratedPlate <==> !s.workers[serial].pc.ResetFlag?)
  }

  /** In round n + 1 the plate holds state n, which is not settled, and the workers agree on the phase. */
  ghost predicate InvAt(c: Config, g: HeatGrid.Grid, s: State, n: nat, phase: Phase) {
    && Shape(c, s) && Rect(g, c.rows, c.cols)
    && FlatSameBorder(s.auxiliary, s.matrix, c.rows, c.cols)
    && (forall j: nat :: j <= n ==> !c.Done(g, j))
    && match phase
       case Sweeping => s.kStates == n && Unflatten(s.auxiliary, c.rows, c.cols) == c.Grid(g, n) && SweepInv(c, s)
       case Leading(serial) => LeadInv(c, g, s, n, serial)
       case Deciding => DecideInv(c, g, s, n)
       case Resetting(serial) => ResetInv(c, g, s, n, serial)
  }

  function NextPhase(phase: Phase, e: Event): Phase {
    match e
    case Local(_) => phase
    case ReleaseFirst(serial) => if phase.Sweeping? then Leading(serial) else Resetting(serial)
    case ReleaseSecond => if phase.Leading? then Deciding else Sweeping
  }

  function NextRound(phase: Phase, n: nat, e: Event): nat {
    if e.ReleaseSecond? && phase.Resetting? then n + 1 else n
  }

  // ---- Each kind of step keeps the invariant ----

  /** What worker i writes is no business of worker j. */
  lemma OtherWorkerUndisturbed(c: Config, s: State, i: nat, row: nat, col: nat, j: nat)
    requires Shape(c, s) && i < |s.workers| && j < |s.workers| && i != j
    requires c.From(i) <= row < c.To(i) && Interior(c.rows, c.cols, row, col)
    requires Shape(c, SweepCell(c, s, i, row, col))
    requires WorkerSweeps(c, s, j)
    ensures WorkerSweeps(c, SweepCell(c, s, i, row, col), j)
  {
    hide FlatCell, FlatWithin, FinishRow, At, FlatChange;
    var s' := SweepCell(c, s, i, row, col);
    BlocksTile(c.rows - 2, c.team);
    var done := DoneCells(c, j, s.workers[j].pc);
    assert InBlock(row - 1, i, c.rows - 2, c.team);
    forall r: nat, k: nat | Interior(c.rows, c.cols, r, k) && done(r, k)
      ensures At(s'.matrix, c.rows, c.cols, r, k) == FlatCell(s.auxiliary, c.rows, c.cols, c.mult, r, k)
    {
      if r == row {
        assert InBlock(r - 1, j, c.rows - 2, c.team);
      }
    }
  }

  lemma BorderKept(c: Config, s: State, i: nat, row: nat, col: nat)
    requires Shape(c, s) && i < |s.workers| && Interior(c.rows, c.cols, row, col)
    requires FlatSameBorder(s.auxiliary, s.matrix, c.rows, c.cols)
    ensures FlatSameBorder(s.auxiliary, SweepCell(c, s, i, row, col).matrix, c.rows, c.cols)
  {
    hide FlatCell, FinishRow;
  }

  lemma SweepCellMine(c: Config, s: State, i: nat, row: nat, col: nat)
    requires Shape(c, s) && i < |s.workers| && s.workers[i].pc == Sweep(row, col)
    requires row < c.To(i) && col + 1 < c.cols && Interior(c.rows, c.cols, row, col)
    requires WorkerSweeps(c, s, i)
    ensures var s' := SweepCell(c, s, i, row, col); Shape(c, s') && WorkerSweeps(c, s', i)
  {
    hide FlatCell;
    var s' := SweepCell(c, s, i, row, col);
    var was, now := Before(c.From(i), row, col), Before(c.From(i), row, col + 1);
    forall r: nat, k: nat ensures now(r, k) <==> was(r, k) || (r == row && k == col) {}
    assert s'.workers[i].equilibrated <==> FlatWithin(s'.auxiliary, c.rows, c.cols, c.mult, c.epsilon, now);
  }

  lemma SweepCellStep(c: Config, s: State, i: nat, row: nat, col: nat)
    requires Shape(c, s) && i < |s.workers| && s.workers[i].pc == Sweep(row, col)
    requires row < c.To(i) && col + 1 < c.cols && Interior(c.rows, c.cols, row, col)
    requires SweepInv(c, s) && FlatSameBorder(s.auxiliary, s.matrix, c.rows, c.cols)
    ensures var s' := SweepCell(c, s, i, row, col);
            Shape(c, s') && SweepInv(c, s') && FlatSameBorder(s'.auxiliary, s'.matrix, c.rows, c.cols)
  {
    var s' := SweepCell(c, s, i, row, col);
    SweepCellMine(c, s, i, row, col);
    BorderKept(c, s, i, row, col);
    hide WorkerSweeps, FlatSameBorder, FlatCell, Put, At, FinishRow;
    forall j | 0 <= j < |s.workers| ensures WorkerSweeps(c, s', j) {
      assert WorkerSweeps(c, s, j);
      if j != i {
        OtherWorkerUndisturbed(c, s, i, row, col, j);
      }
    }
    assert forall j :: 0 <= j < |s.workers| && j != i ==> s'.workers[j] == s.workers[j];
    assert !s.workers[i].pc.AtFirst? && !s'.workers[i].pc.AtFirst?;
    assert s'.equilibratedPlate == s.equilibratedPlate;
    assert forall j :: 0 <= j < |s.workers| && s.workers[j].pc.AtFirst? ==> s'.workers[j].pc.AtFirst?;
  }

  /** Moves of a worker that touch neither the buffers nor its set of updated cells. */
  lemma SweepQuietStep(c: Config, s: State, s': State, i: nat)
    requires Shape(c, s) && i < |s.workers| && SweepInv(c, s)
    requires Shape(c, s') && s'.matrix == s.matrix && s'.auxiliary == s.auxiliary
    requires |s'.workers| == |s.workers| && forall j :: 0 <= j < |s.workers| && j != i ==> s'.workers[j] == s.workers[j]
    requires WorkerSweeps(c, s', i)
    requires s'.equilibratedPlate <==> s.equilibratedPlate && (s'.workers[i].pc.AtFirst? ==> s'.workers[i].equilibrated)
    requires !s.workers[i].pc.AtFirst?
    ensures SweepInv(c, s')
  {
    forall j | 0 <= j < |s.workers| ensures WorkerSweeps(c, s', j) {
      if j != i {
        assert WorkerSweeps(c, s, j);
      }
    }
  }

  lemma FreshSweep(c: Config, s: State, i: nat)
    requires Shape(c, s) && i < |s.workers| && s.workers[i] == Worker(Sweep(c.From(i), 1), true)
    ensures WorkerSweeps(c, s, i)
  {
  }

  /** Two descriptions of the same interior cells. */
  lemma SameCells(c: Config, s: State, a: (nat, nat) -> bool, b: (nat, nat) -> bool)
    requires Shape(c, s)
    requires forall r: nat, k: nat :: Interior(c.rows, c.cols, r, k) ==> (a(r, k) <==> b(r, k))
    ensures FlatSwept(s.auxiliary, s.matrix, c.rows, c.cols, c.mult, a) <==>
            FlatSwept(s.auxiliary, s.matrix, c.rows, c.cols, c.mult, b)
    ensures FlatWithin(s.auxiliary, c.rows, c.cols, c.mult, c.epsilon, a) <==>
            FlatWithin(s.auxiliary, c.rows, c.cols, c.mult, c.epsilon, b)
  {
    hide FlatCell, FlatChange;
  }

  lemma SweepLocalStep(c: Config, g: HeatGrid.Grid, s: State, n: nat, i: nat)
    requires InvAt(c, g, s, n, Sweeping) && Enabled(c, s, Local(i))
    ensures InvAt(c, g, LocalStep(c, s, i), n, Sweeping)
  {
    hide FlatSwept, FlatWithin, FlatSameBorder, Unflatten, FinishRow, HeatGrid.State, Settled, Put, FlatCell;
    var s' := LocalStep(c, s, i);
    BlockInPlate(i, c.rows, c.team);
    assert WorkerSweeps(c, s, i);
    match s.workers[i].pc {
      case Begin =>
        FreshSweep(c, s', i);
        SweepQuietStep(c, s, s', i);
      case Sweep(row, col) =>
        if row >= c.To(i) {
          SameCells(c, s, Before(c.From(i), row, col), RowsIn(c.From(i), c.To(i)));
          SweepQuietStep(c, s, s', i);
        } else if col + 1 < c.cols {
          SweepCellStep(c, s, i, row, col);
        } else {
          SameCells(c, s, Before(c.From(i), row, col), Before(c.From(i), row + 1, 1));
          SweepQuietStep(c, s, s', i);
        }
      case Merge =>
        SweepQuietStep(c, s, s', i);
    }
  }

  lemma OwnerOf(c: Config, row: nat) returns (i: nat)
    requires c.Valid() && 1 <= row < c.rows - 1
    ensures i < c.team && c.From(i) <= row < c.To(i)
  {
    BlocksTile(c.rows - 2, c.team);
    assert HasOwner(row - 1, c.rows - 2, c.team);
    i :| i < c.team && InBlock(row - 1, i, c.rows - 2, c.team);
  }

  /** When all workers wait after their sweeps, the matrix is the next state and the flag tells whether it settled. */
  lemma SweepComplete(c: Config, g: HeatGrid.Grid, s: State, n: nat)
    requires InvAt(c, g, s, n, Sweeping)
    requires forall i :: 0 <= i < |s.workers| ==> s.workers[i].pc.AtFirst?
    ensures Unflatten(s.matrix, c.rows, c.cols) == c.Grid(g, n + 1)
    ensures s.equilibratedPlate <==> c.Done(g, n + 1)
  {
    hide FlatCell, FlatChange;
    var all := RowsIn(1, c.rows - 1);
    BlocksTile(c.rows - 2, c.team);
    forall r: nat, k: nat | Interior(c.rows, c.cols, r, k) && all(r, k)
      ensures At(s.matrix, c.rows, c.cols, r, k) == FlatCell(s.auxiliary, c.rows, c.cols, c.mult, r, k)
      ensures s.equilibratedPlate ==> FlatChange(s.auxiliary, c.rows, c.cols, c.mult, r, k) <= c.epsilon
    {
      var i := OwnerOf(c, r);
      assert WorkerSweeps(c, s, i) && s.workers[i].pc.AtFirst?;
    }
    if FlatWithin(s.auxiliary, c.rows, c.cols, c.mult, c.epsilon, all) {
      forall i | 0 <= i < |s.workers| ensures s.workers[i].equilibrated {
        assert WorkerSweeps(c, s, i);
        BlockInPlate(i, c.rows, c.team);
      }
    }
    SweptIsNext(s.auxiliary, s.matrix, c.rows, c.cols, c.mult, all);
    FlatWithinIsWithin(s.auxiliary, c.rows, c.cols, c.mult, c.epsilon, all);
  }

  lemma AllAtFirst(c: Config, g: HeatGrid.Grid, s: State, n: nat, serial: nat)
    requires InvAt(c, g, s, n, Sweeping) && Enabled(c, s, ReleaseFirst(serial))
    ensures forall i :: 0 <= i < |s.workers| ==> s.workers[i].pc.AtFirst?
  {
    hide Unflatten, FlatSameBorder, FlatSwept, FlatWithin, FinishRow, HeatGrid.State, Settled;
    forall i | 0 <= i < |s.workers| ensures s.workers[i].pc.AtFirst? {
      assert WorkerSweeps(c, s, i);
    }
  }

  lemma SweepReleased(c: Config, g: HeatGrid.Grid, s: State, n: nat, serial: nat)
    requires InvAt(c, g, s, n, Sweeping) && Enabled(c, s, ReleaseFirst(serial))
    ensures InvAt(c, g, Apply(c, s, ReleaseFirst(serial)), n, Leading(serial))
  {
    hide Unflatten, FlatSameBorder, SweepInv, FinishRow, HeatGrid.State, Settled, LocalStep, SweepInBlock;
    AllAtFirst(c, g, s, n, serial);
    SweepComplete(c, g, s, n);
    var s' := Apply(c, s, ReleaseFirst(serial));
    assert Shape(c, s');
    assert LeadInv(c, g, s', n, serial);
  }

  /** A barrier releases only threads that wait at it, which fixes the phase. */
  lemma ReleaseFitsPhase(c: Config, g: HeatGrid.Grid, s: State, n: nat, phase: Phase, e: Event)
    requires InvAt(c, g, s, n, phase) && Enabled(c, s, e)
    ensures e.ReleaseFirst? ==> phase.Sweeping? || phase.Deciding?
    ensures e.ReleaseSecond? ==> phase.Leading? || phase.Resetting?
  {
    hide FlatCell, FlatSwept, FlatWithin, Unflatten, FlatSameBorder, FinishRow, HeatGrid.State, Settled;
    assert phase.Sweeping? ==> WorkerSweeps(c, s, 0);
    assert e.ReleaseFirst? ==> WaitsAtFirst(s.workers[0].pc);
    assert e.ReleaseSecond? ==> WaitsAtSecond(s.workers[0].pc);
  }

  /** The steps of the serial thread between the barriers, and the walk to the second barrier. */
  lemma QuietLocalStep(c: Config, s: State, i: nat)
    requires Shape(c, s) && Enabled(c, s, Local(i))
    ensures s.workers[i].pc.CountState? ==> LocalStep(c, s, i) == SetPc(s.(kStates := s.kStates + 1), i, SwapBuffers)
    ensures s.workers[i].pc.SwapBuffers? ==>
              LocalStep(c, s, i) == SetPc(SetAuxiliary(s), i, ToSecond)
    ensures s.workers[i].pc.ToSecond? ==> LocalStep(c, s, i) == SetPc(s, i, AtSecond)
  {
  }

  lemma SwappedBorder(a: seq<real>, b: seq<real>, rows: nat, cols: nat)
    requires |a| == |b| == rows * cols
    ensures FlatSameBorder(a, b, rows, cols) <==> FlatSameBorder(b, a, rows, cols)
  {
  }

  lemma LeadLocalStep(c: Config, g: HeatGrid.Grid, s: State, n: nat, serial: nat, i: nat)
    requires InvAt(c, g, s, n, Leading(serial)) && Enabled(c, s, Local(i))
    ensures InvAt(c, g, LocalStep(c, s, i), n, Leading(serial))
  {
    hide Unflatten, FlatSameBorder, FinishRow, HeatGrid.State, Settled, LocalStep, SweepInBlock;
    SwappedBorder(s.auxiliary, s.matrix, c.rows, c.cols);
    QuietLocalStep(c, s, i);
    assert i != serial ==> s.workers[i].pc.ToSecond?;
    var s' := LocalStep(c, s, i);
    assert Shape(c, s');
    assert LeadInv(c, g, s', n, serial);
  }

  lemma LeadReleased(c: Config, g: HeatGrid.Grid, s: State, n: nat, serial: nat)
    requires InvAt(c, g, s, n, Leading(serial)) && Enabled(c, s, ReleaseSecond)
    ensures InvAt(c, g, Apply(c, s, ReleaseSecond), n, Deciding)
  {
    hide Unflatten, FlatSameBorder, FinishRow, HeatGrid.State, Settled, LocalStep;
    assert WaitsAtSecond(s.workers[serial].pc);
    forall i | 0 <= i < |s.workers| ensures s.workers[i].pc.AtSecond? {
      assert WaitsAtSecond(s.workers[i].pc);
    }
  }

  lemma DecideStep(c: Config, g: HeatGrid.Grid, s: State, n: nat, e: Event)
    requires InvAt(c, g, s, n, Deciding) && Enabled(c, s, e) && !e.ReleaseSecond?
    ensures InvAt(c, g, Apply(c, s, e), n, NextPhase(Deciding, e))
  {
    hide Unflatten, FlatSameBorder, FinishRow, HeatGrid.State, Settled, SweepCell;
    if e.ReleaseFirst? {
      assert WaitsAtFirst(s.workers[e.serial].pc);
    }
  }

  lemma FreshRound(c: Config, s: State)
    requires Shape(c, s) && s.equilibratedPlate
    requires forall i :: 0 <= i < |s.workers| ==> s.workers[i].pc == Begin
    ensures SweepInv(c, s)
  {
    hide FlatCell, FinishRow;
    forall i | 0 <= i < |s.workers| ensures WorkerSweeps(c, s, i) {}
  }

  lemma ResetStep(c: Config, g: HeatGrid.Grid, s: State, n: nat, serial: nat, e: Event)
    requires InvAt(c, g, s, n, Resetting(serial)) && Enabled(c, s, e) && !e.ReleaseFirst?
    ensures InvAt(c, g, Apply(c, s, e), if e.ReleaseSecond? then n + 1 else n, NextPhase(Resetting(serial), e))
  {
    hide Unflatten, FlatSameBorder, FinishRow, HeatGrid.State, Settled, SweepCell, FlatCell, FlatChange;
    if e.ReleaseSecond? {
      assert WaitsAtSecond(s.workers[serial].pc);
      FreshRound(c, Apply(c, s, e));
    }
  }

  /** The invariant is kept by every step, and the phases follow each other in order. */
  lemma InvStep(c: Config, g: HeatGrid.Grid, s: State, n: nat, phase: Phase, e: Event)
    requires InvAt(c, g, s, n, phase) && Enabled(c, s, e)
    ensures InvAt(c, g, Apply(c, s, e), NextRound(phase, n, e), NextPhase(phase, e))
  {
    ReleaseFitsPhase(c, g, s, n, phase, e);
    hide InvAt, LocalStep;
    match phase {
      case Sweeping =>
        if e.Local? {
          SweepLocalStep(c, g, s, n, e.i);
        } else {
          SweepReleased(c, g, s, n, e.serial);
        }
      case Leading(serial) =>
        if e.Local? {
          LeadLocalStep(c, g, s, n, serial, e.i);
        } else {
          LeadReleased(c, g, s, n, serial);
        }
      case Deciding => DecideStep(c, g, s, n, e);
      case Resetting(serial) => ResetStep(c, g, s, n, serial, e);
    }
  }

  lemma InvInit(c: Config, g: HeatGrid.Grid, s: State)
    requires Init(c, g, s)
    ensures InvAt(c, g, s, 0, Sweeping)
  {
    hide Unflatten;
    FreshRound(c, s);
  }

  // ---- Progress and a bound on every run ----

  function SweepLeft(c: Config, i: nat, row: nat, col: nat): nat
    requires c.Valid()
  {
    if row <= c.To(i) && col <= c.cols then (c.To(i) - row) * (c.cols + 1) + (c.cols - col) else 0
  }

  /** Steps that a worker still has before it in the current round. */
  function StepsLeft(c: Config, i: nat, pc: Pc): nat
    requires c.Valid()
  {
    match pc
    case Begin => SweepLeft(c, i, c.From(i), 1) + 15
    case Sweep(row, col) => SweepLeft(c, i, row, col) + 14
    case Merge => 13
    case AtFirst => 12
    case CountState => 11
    case SwapBuffers => 10
    case ToSecond => 9
    case AtSecond => 8
    case ReadDone => 7
    case Choose(_) => 6
    case AtFirstAgain => 5
    case ResetFlag => 4
    case ToSecondAgain => 3
    case AtSecondAgain => 2
    case Finished => 0
  }

  function RoundLeft(c: Config, workers: seq<Worker>): seq<nat>
    requires c.Valid()
  {
    seq(|workers|, i requires 0 <= i < |workers| => StepsLeft(c, i, workers[i].pc))
  }

  /** The steps of a whole round. */
  function RoundCost(c: Config): nat
    requires c.Valid()
  {
    Sum(seq(c.team, i requires 0 <= i < c.team => StepsLeft(c, i, Begin)))
  }

  function Budget(rounds: nat, cost: nat, left: nat): nat {
    rounds * (cost + 1) + left
  }

  function Rank(c: Config, s: State, n: nat, last: nat): nat
    requires c.Valid() && n <= last
  {
    Budget(last - n, RoundCost(c), Sum(RoundLeft(c, s.workers)))
  }

  lemma LocalStepShortens(c: Config, s: State, i: nat)
    requires Shape(c, s) && Enabled(c, s, Local(i))
    ensures Sum(RoundLeft(c, LocalStep(c, s, i).workers)) < Sum(RoundLeft(c, s.workers))
  {
    hide FlatCell;
    var s' := LocalStep(c, s, i);
    var a, b := RoundLeft(c, s'.workers), RoundLeft(c, s.workers);
    assert a[i] < b[i] by {
      if s.workers[i].pc.Sweep? {
        var row, col := s.workers[i].pc.row, s.workers[i].pc.col;
        if row < c.To(i) && !(col + 1 < c.cols) {
          assert (c.To(i) - row) * (c.cols + 1) == (c.To(i) - (row + 1)) * (c.cols + 1) + (c.cols + 1);
        }
      }
    }
    forall j | 0 <= j < |a| ensures a[j] <= b[j] {}
    SumOrder(a, b);
  }

  lemma ReleaseShortens(c: Config, s: State, e: Event)
    requires Shape(c, s) && Enabled(c, s, e) && !e.Local?
    requires forall i :: 0 <= i < |s.workers| ==> !s.workers[i].pc.AtSecondAgain?
    ensures Sum(RoundLeft(c, Apply(c, s, e).workers)) < Sum(RoundLeft(c, s.workers))
  {
    var a, b := RoundLeft(c, Apply(c, s, e).workers), RoundLeft(c, s.workers);
    forall j | 0 <= j < |a| ensures a[j] < b[j] {}
    SumOrder(a, b);
    assert a[0] < b[0];
  }

  lemma BudgetNextRound(rounds: nat, cost: nat)
    requires rounds > 0
    ensures Budget(rounds - 1, cost, cost) < Budget(rounds, cost, 0)
  {
    assert rounds * (cost + 1) == (rounds - 1) * (cost + 1) + (cost + 1);
  }

  /** Every step uses up some of a finite budget: no interleaving runs for ever. */
  lemma RankDrops(c: Config, g: HeatGrid.Grid, s: State, n: nat, phase: Phase, e: Event, last: nat)
    requires InvAt(c, g, s, n, phase) && Enabled(c, s, e) && c.Done(g, last)
    ensures n < last && NextRound(phase, n, e) < last
    ensures Rank(c, Apply(c, s, e), NextRound(phase, n, e), last) < Rank(c, s, n, last)
  {
    hide FlatCell, FlatSwept, FlatWithin, Unflatten, FlatSameBorder, FinishRow, HeatGrid.State, Settled, StepsLeft,
        SweepCell, LocalStep;
    assert n < last;
    match e {
      case Local(i) => LocalStepShortens(c, s, i);
      case ReleaseFirst(serial) =>
        forall i | 0 <= i < |s.workers| ensures !s.workers[i].pc.AtSecondAgain? {
          assert WaitsAtFirst(s.workers[i].pc);
        }
        ReleaseShortens(c, s, e);
      case ReleaseSecond =>
        assert WaitsAtSecond(s.workers[0].pc);
        if phase.Resetting? {
          assert WaitsAtSecond(s.workers[phase.serial].pc);
          var s' := Apply(c, s, e);
          assert RoundLeft(c, s'.workers) == seq(c.team, i requires 0 <= i < c.team => StepsLeft(c, i, Begin));
          BudgetNextRound(last - n, RoundCost(c));
        } else {
          forall i | 0 <= i < |s.workers| ensures !s.workers[i].pc.AtSecondAgain? {
            if phase.Sweeping? { assert WorkerSweeps(c, s, i); }
          }
          ReleaseShortens(c, s, e);
        }
    }
  }

  /** Unless all workers have left the loop, some thread or some barrier can move: no deadlock. */
  lemma Progress(c: Config, g: HeatGrid.Grid, s: State, n: nat, phase: Phase)
    requires InvAt(c, g, s, n, phase)
    ensures AllFinished(s) || exists e :: Enabled(c, s, e)
  {
    hide FlatCell, FlatSwept, FlatWithin, Unflatten, FlatSameBorder;
    if i :| 0 <= i < |s.workers| && Runs(s.workers[i].pc) {
      assert Enabled(c, s, Local(i));
    } else {
      match phase {
        case Sweeping =>
          forall i | 0 <= i < |s.workers| ensures WaitsAtFirst(s.workers[i].pc) { assert WorkerSweeps(c, s, i); }
          assert Enabled(c, s, ReleaseFirst(0));
        case Leading(serial) =>
          forall i | 0 <= i < |s.workers| ensures WaitsAtSecond(s.workers[i].pc) {}
          assert Enabled(c, s, ReleaseSecond);
        case Deciding =>
          if !s.equilibratedPlate {
            forall i | 0 <= i < |s.workers| ensures WaitsAtFirst(s.workers[i].pc) {}
            assert Enabled(c, s, ReleaseFirst(0));
          } else {
            assert AllFinished(s);
          }
        case Resetting(serial) =>
          forall i | 0 <= i < |s.workers| ensures WaitsAtSecond(s.workers[i].pc) {}
          assert Enabled(c, s, ReleaseSecond);
      }
    }
  }

  /**
   * Nothing but the barriers holds a worker back, and a barrier on which all wait opens; the first one may
   * single out any of them.
   */
  lemma WorkersMoveFreely(c: Config, s: State, i: nat)
    requires Shape(c, s) && i < |s.workers|
    ensures var pc := s.workers[i].pc;
            && (Enabled(c, s, Local(i)) <==>
                  !pc.AtFirst? && !pc.AtFirstAgain? && !pc.AtSecond? && !pc.AtSecondAgain? && !pc.Finished?)
            && ((forall j :: 0 <= j < |s.workers| ==> s.workers[j].pc == pc) && pc.AtFirst? ==>
                  && Enabled(c, s, ReleaseFirst(i))
                  && forall j :: 0 <= j < |s.workers| ==>
                       Apply(c, s, ReleaseFirst(i)).workers[j].pc == if j == i then CountState else ToSecond)
            && ((forall j :: 0 <= j < |s.workers| ==> s.workers[j].pc == pc) && pc.AtFirstAgain? ==>
                  && Enabled(c, s, ReleaseFirst(i))
                  && forall j :: 0 <= j < |s.workers| ==>
                       Apply(c, s, ReleaseFirst(i)).workers[j].pc == if j == i then ResetFlag else ToSecondAgain)
  {
  }

  // ---- Main results, over every run ----

  lemma LastIsLater(c: Config, g: HeatGrid.Grid, s: State, n: nat, phase: Phase, last: nat)
    requires InvAt(c, g, s, n, phase) && c.Done(g, last)
    ensures n < last
  {
  }

  lemma {:induction false} RunInv(c: Config, g: HeatGrid.Grid, run: seq<State>) returns (n: nat, phase: Phase)
    requires IsRun(c, g, run)
    ensures InvAt(c, g, run[|run| - 1], n, phase)
    ensures forall last: nat :: c.Done(g, last) ==>
            n < last && |run| - 1 + Rank(c, run[|run| - 1], n, last) <= Rank(c, run[0], 0, last)
    decreases |run|
  {
    hide InvAt, Enabled, Rank, HeatGrid.State, Settled;
    assert Rect(g, c.rows, c.cols);
    if |run| == 1 {
      InvInit(c, g, run[0]);
      n, phase := 0, Sweeping;
      forall last: nat | c.Done(g, last) ensures n < last {
        LastIsLater(c, g, run[0], 0, Sweeping, last);
      }
    } else {
      var front := run[..|run| - 1];
      n, phase := RunInv(c, g, front);
      var s, s' := run[|run| - 2], run[|run| - 1];
      assert Step(c, run[|run| - 2], run[|run| - 2 + 1]);
      var e :| Enabled(c, s, e) && s' == Apply(c, s, e);
      InvStep(c, g, s, n, phase, e);
      forall last: nat | c.Done(g, last)
        ensures NextRound(phase, n, e) < last
        ensures |run| - 1 + Rank(c, s', NextRound(phase, n, e), last) <= Rank(c, run[0], 0, last)
      {
        RankDrops(c, g, s, n, phase, e, last);
      }
      n, phase := NextRound(phase, n, e), NextPhase(phase, e);
    }
  }

  /** What the barriers guarantee about the shared data, in one state. */
  ghost predicate PhaseSafe(s: State) {
    // the counter and the buffers change while all others are at, or on their way to, the second barrier
    && (forall i, j :: 0 <= i < |s.workers| && 0 <= j < |s.workers| && i != j &&
                       (s.workers[i].pc.CountState? || s.workers[i].pc.SwapBuffers?) ==>
                         s.workers[j].pc.ToSecond? || s.workers[j].pc.AtSecond?)
    // so does the flag when it is reset
    && (forall i, j :: 0 <= i < |s.workers| && 0 <= j < |s.workers| && i != j && s.workers[i].pc.ResetFlag? ==>
                         s.workers[j].pc.ToSecondAgain? || s.workers[j].pc.AtSecondAgain?)
    // once one worker has left the loop, all leave it
    && (forall i, j :: 0 <= i < |s.workers| && 0 <= j < |s.workers| && s.workers[i].pc.Finished? ==>
                         s.workers[j].pc.ReadDone? || s.workers[j].pc == Choose(true) || s.workers[j].pc.Finished?)
    // no barrier ever mixes its two uses
    && (forall i, j :: 0 <= i < |s.workers| && 0 <= j < |s.workers| && s.workers[i].pc.AtFirst? ==>
                         !s.workers[j].pc.AtFirstAgain?)
    && (forall i, j :: 0 <= i < |s.workers| && 0 <= j < |s.workers| && s.workers[i].pc.AtSecond? ==>
                         !s.workers[j].pc.AtSecondAgain?)
  }

  lemma PhaseSafeAt(c: Config, g: HeatGrid.Grid, s: State, n: nat, phase: Phase)
    requires InvAt(c, g, s, n, phase)
    ensures PhaseSafe(s)
  {
    hide FlatSwept, FlatWithin, Unflatten, FlatSameBorder, FinishRow, HeatGrid.State, Settled;
    forall i | 0 <= i < |s.workers| && phase.Sweeping?
      ensures s.workers[i].pc.Begin? || s.workers[i].pc.Sweep? || s.workers[i].pc.Merge? || s.workers[i].pc.AtFirst?
    {
      assert WorkerSweeps(c, s, i);
    }
  }

  lemma BarriersSeparatePhases(c: Config, g: HeatGrid.Grid, run: seq<State>)
    requires IsRun(c, g, run)
    ensures PhaseSafe(run[|run| - 1])
  {
    hide InvAt, Rank;
    var n, phase := RunInv(c, g, run);
    PhaseSafeAt(c, g, run[|run| - 1], n, phase);
  }

  lemma SweepersAreNotFinished(c: Config, g: HeatGrid.Grid, s: State, n: nat, phase: Phase)
    requires InvAt(c, g, s, n, phase)
    ensures phase.Sweeping? ==> !s.workers[0].pc.Finished?
  {
    hide FlatSwept, FlatWithin, Unflatten, FlatSameBorder, FinishRow, HeatGrid.State, Settled;
    if phase.Sweeping? {
      assert WorkerSweeps(c, s, 0);
    }
  }

  lemma FinishedState(c: Config, g: HeatGrid.Grid, s: State, n: nat, phase: Phase)
    requires InvAt(c, g, s, n, phase) && AllFinished(s)
    ensures Shape(c, s)
    ensures FirstSettled(g, c.rows, c.cols, c.mult, c.epsilon, s.kStates)
    ensures Unflatten(s.auxiliary, c.rows, c.cols) == HeatGrid.State(g, c.rows, c.cols, c.mult, s.kStates)
  {
    hide FlatSwept, FlatWithin, Unflatten, FlatSameBorder, FinishRow, HeatGrid.State, Settled;
    assert s.workers[0].pc.Finished?;
    SweepersAreNotFinished(c, g, s, n, phase);
    assert c.Done(g, n + 1);
    forall j: nat | j < n + 1 ensures !Settled(g, c.rows, c.cols, c.mult, c.epsilon, j) {
      assert !c.Done(g, j);
    }
  }

  /**
   * The parallel program refines the serial one: whatever the interleaving, when all workers have
   * left the loop and the buffers are swapped a last time, the matrix holds the state the serial
   * program leaves, and the counter is the number of states the serial program counts.
   */
  lemma BarrierRefinesSerial(c: Config, g: HeatGrid.Grid, run: seq<State>)
    requires IsRun(c, g, run) && AllFinished(run[|run| - 1])
    ensures var s := run[|run| - 1];
            && Shape(c, s)
            && FirstSettled(g, c.rows, c.cols, c.mult, c.epsilon, s.kStates)
            && (forall k: nat :: FirstSettled(g, c.rows, c.cols, c.mult, c.epsilon, k) ==> k == s.kStates)
            && Unflatten(SetAuxiliary(s).matrix, c.rows, c.cols) == HeatGrid.State(g, c.rows, c.cols, c.mult, s.kStates)
  {
    hide InvAt, Rank, Settled;
    var n, phase := RunInv(c, g, run);
    FinishedState(c, g, run[|run| - 1], n, phase);
  }

  /** On a plate that settles, every run is finite and a run that cannot go on has finished. */
  lemma BarrierRunsEnd(c: Config, g: HeatGrid.Grid, run: seq<State>)
    requires IsRun(c, g, run) && Settles(g, c.rows, c.cols, c.mult, c.epsilon)
    ensures forall last: nat :: FirstSettled(g, c.rows, c.cols, c.mult, c.epsilon, last) ==>
                                  |run| - 1 <= last * (RoundCost(c) + 1) + RoundCost(c)
    ensures Shape(c, run[|run| - 1])
    ensures Stuck(c, run[|run| - 1]) ==> AllFinished(run[|run| - 1])
  {
    var n, phase := RunInv(c, g, run);
    var s := run[|run| - 1];
    Progress(c, g, s, n, phase);
    var r := RoundLeft(c, run[0].workers);
    assert r == seq(c.team, i requires 0 <= i < c.team => StepsLeft(c, i, Begin));
    forall last: nat | FirstSettled(g, c.rows, c.cols, c.mult, c.epsilon, last)
      ensures |run| - 1 <= last * (RoundCost(c) + 1) + RoundCost(c)
    {
      assert c.Done(g, last);
    }
  }
}
