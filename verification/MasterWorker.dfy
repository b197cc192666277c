/**
 * The distributed simulation: a master process hands out plate indices and collects, from any worker,
 * a plate index followed by a number of states. Messages between two processes keep their order (the
 * non-overtaking rule, section 3.5 of MPI 3.1), and all of them are plain integers.
 */
module MasterWorker {
  import opened Sums

  datatype Config = Config(processCount: nat, plates: nat) {
    /** The master role exists only when there are other processes. */
    predicate Valid() {
      processCount > 1
    }

    function Workers(): (n: nat)
      requires Valid()
    {
      processCount - 1
    }

    /** No more working processes than plates. */
    function Working(): (n: nat)
      requires Valid()
      ensures n <= processCount - 1 && n <= plates && (n == processCount - 1 || n == plates)
    {
      if processCount - 1 < plates then processCount - 1 else plates
    }
  }

  datatype MasterPc =
    | Assigning(process: nat)             // the initial loop
    | AnySource                           // waits for an index from anybody
    | FromSource(worker: nat, index: nat) // waits for the states of that plate from its sender
    | Deciding(worker: nat)               // sends the next plate, goes on, or leaves the loop
    | Stopping(process: nat)
    | Over

  datatype WorkerPc = Waiting | Working(plate: nat) | Computed(plate: nat, states: nat)
      | SentIndex(plate: nat, states: nat) | Stopped

  datatype Job = Free | Plate(index: nat)

  datatype State = State(
    master: MasterPc, current: nat, available: int, results: seq<nat>,
    workers: seq<WorkerPc>, toWorker: seq<seq<nat>>, toMaster: seq<seq<nat>>,
    jobs: seq<Job>,            // history: the plate a worker was given and has not reported
    computed: seq<seq<nat>>)   // history: the numbers of states computed for each plate

  datatype Event =
    | Assign | TakeIndex(w: nat) | TakeStates | Decide | Stop
    | Take(w: nat) | Compute(w: nat, states: nat) | SendIndex(w: nat) | SendStates(w: nat)

  predicate Shape(c: Config, s: State) {
    && c.Valid()
    && |s.workers| == |s.toWorker| == |s.toMaster| == |s.jobs| == c.Workers()
    && |s.results| == |s.computed| == c.plates
    && (s.master.Assigning? ==> s.master.process >= 1)
    && (s.master.FromSource? ==> s.master.worker < c.Workers())
    && (s.master.Deciding? ==> s.master.worker < c.Workers())
    && (s.master.Stopping? ==> 1 <= s.master.process <= c.Workers())
  }

  predicate Enabled(c: Config, s: State, e: Event)
    requires Shape(c, s)
  {
    match e
    case Assign => s.master.Assigning?
    case TakeIndex(w) => s.master.AnySource? && w < c.Workers() && s.toMaster[w] != []
    case TakeStates => s.master.FromSource? && s.toMaster[s.master.worker] != []
    case Decide => s.master.Deciding?
    case Stop => s.master.Stopping?
    case Take(w) => w < c.Workers() && s.workers[w].Waiting? && s.toWorker[w] != []
    case Compute(w, _) => w < c.Workers() && s.workers[w].Working? && s.workers[w].plate < c.plates
    case SendIndex(w) => w < c.Workers() && s.workers[w].Computed?
    case SendStates(w) => w < c.Workers() && s.workers[w].SentIndex?
  }

  /** Sends the next plate to worker `w`. */
  function Send(s: State, w: nat): State
    requires w < |s.toWorker| && w < |s.jobs|
  {
    s.(toWorker := s.toWorker[w := s.toWorker[w] + [s.current]], jobs := s.jobs[w := Plate(s.current)],
       current := s.current + 1, available := s.available - 1)
  }

  function Apply(c: Config, s: State, e: Event): (s': State)
    requires Shape(c, s) && Enabled(c, s, e)
    ensures Shape(c, s')
  {
    match e
    case Assign =>
      var p := s.master.process;
      if p < c.Working() then Send(s, p - 1).(master := Assigning(p + 1)) else s.(master := AnySource)
    case TakeIndex(w) =>
      s.(master := FromSource(w, s.toMaster[w][0]), toMaster := s.toMaster[w := s.toMaster[w][1..]])
    case TakeStates =>
      var w, i := s.master.worker, s.master.index;
      s.(master := Deciding(w), toMaster := s.toMaster[w := s.toMaster[w][1..]], available := s.available + 1,
         jobs := s.jobs[w := Free],
         results := if i < c.plates then s.results[i := s.toMaster[w][0]] else s.results)
    case Decide =>
      if s.current < c.plates then Send(s, s.master.worker).(master := AnySource)
      else if s.available == c.Working() then s.(master := Stopping(1))
      else s.(master := AnySource)
    case Stop =>
      var p := s.master.process;
      s.(toWorker := s.toWorker[p - 1 := s.toWorker[p - 1] + [c.plates]],
         master := if p + 1 <= c.Workers() then Stopping(p + 1) else Over)
    case Take(w) =>
      var i := s.toWorker[w][0];
      s.(toWorker := s.toWorker[w := s.toWorker[w][1..]],
         workers := s.workers[w := if i >= c.plates then Stopped else Working(i)])
    case Compute(w, states) =>
      var i := s.workers[w].plate;
      s.(workers := s.workers[w := Computed(i, states)], computed := s.computed[i := s.computed[i] + [states]])
    case SendIndex(w) =>
      var i := s.workers[w].plate;
      s.(workers := s.workers[w := SentIndex(i, s.workers[w].states)], toMaster := s.toMaster[w := s.toMaster[w] + [i]])
    case SendStates(w) =>
      s.(workers := s.workers[w := Waiting], toMaster := s.toMaster[w := s.toMaster[w] + [s.workers[w].states]])
  }

  ghost predicate Step(c: Config, s: State, s': State) {
    Shape(c, s) && exists e :: Enabled(c, s, e) && s' == Apply(c, s, e)
  }

  ghost predicate Init(c: Config, s: State) {
    && Shape(c, s) && s.master == Assigning(1) && s.current == 0 && s.available == c.Working()
    && (forall i :: 0 <= i < c.plates ==> s.results[i] == 0 && s.computed[i] == [])
    && forall w :: 0 <= w < c.Workers() ==>
                     s.workers[w].Waiting? && s.toWorker[w] == [] && s.toMaster[w] == [] && s.jobs[w].Free?
  }

  ghost predicate IsRun(c: Config, run: seq<State>) {
    && |run| > 0 && Init(c, run[0])
    && forall i :: 0 <= i < |run| - 1 ==> Step(c, run[i], run[i + 1])
  }

  ghost predicate AllDone(c: Config, s: State)
    requires Shape(c, s)
  {
    s.master.Over? && forall w :: 0 <= w < c.Workers() ==> s.workers[w].Stopped?
  }

  ghost predicate Stuck(c: Config, s: State)
    requires Shape(c, s)
  {
    forall e :: !Enabled(c, s, e)
  }

  function Holds(job: Job): nat {
    if job.Plate? then 1 else 0
  }

  /** Workers that hold a plate. */
  function Outstanding(jobs: seq<Job>): nat {
    Total(jobs, Holds)
  }

  lemma OutstandingUpdate(jobs: seq<Job>, w: nat, j: Job)
    requires w < |jobs|
    ensures Outstanding(jobs[w := j]) + Holds(jobs[w]) == Outstanding(jobs) + Holds(j)
  {
    TotalUpdate(jobs, w, j, Holds);
  }

  lemma NoneOutstanding(jobs: seq<Job>)
    ensures Outstanding(jobs) == 0 <==> forall w :: 0 <= w < |jobs| ==> jobs[w].Free?
  {
    TotalZero(jobs, Holds);
  }

  // ---- The invariant ----

  /** The master has taken the index from worker w, and not yet the states. */
  predicate Taken(s: State, w: nat) {
    s.master.FromSource? && s.master.worker == w
  }

  /** The stop message for worker w has been sent. */
  predicate StopSent(s: State, w: nat) {
    s.master.Over? || (s.master.Stopping? && w + 1 < s.master.process)
  }

  predicate OneResult(s: State, i: nat, states: nat) {
    i < |s.computed| && s.computed[i] == [states]
  }

  /** How far worker w is with its plate, and what lies in its two channels. */
  predicate WorkerInv(c: Config, s: State, w: nat)
    requires Shape(c, s) && w < c.Workers()
  {
    match s.jobs[w]
    case Free =>
      && s.toMaster[w] == [] && !Taken(s, w)
      && if StopSent(s, w)
         then (s.workers[w].Waiting? && s.toWorker[w] == [c.plates]) || (s.workers[w].Stopped? && s.toWorker[w] == [])
         else s.workers[w].Waiting? && s.toWorker[w] == []
    case Plate(i) =>
      && i < s.current && i < c.plates && !StopSent(s, w)
      && (Taken(s, w) ==> s.master.index == i)
      && match s.workers[w]
         case Waiting =>
           if s.toWorker[w] != [] then s.toWorker[w] == [i] && s.toMaster[w] == [] && !Taken(s, w)
               && s.computed[i] == []
           else if Taken(s, w) then |s.toMaster[w]| == 1 && OneResult(s, i, s.toMaster[w][0])
           else |s.toMaster[w]| == 2 && s.toMaster[w][0] == i && OneResult(s, i, s.toMaster[w][1])
         case Working(p) => p == i && s.toWorker[w] == [] && s.toMaster[w] == [] && !Taken(s, w) && s.computed[i] == []
         case Computed(p, k) => p == i && s.toWorker[w] == [] && s.toMaster[w] == [] && !Taken(s, w)
             && OneResult(s, i, k)
         case SentIndex(p, k) =>
           p == i && s.toWorker[w] == [] && s.toMaster[w] == (if Taken(s, w) then [] else [i]) && OneResult(s, i, k)
         case Stopped => false
  }

  ghost predicate Distinct(s: State) {
    forall v, w :: 0 <= v < |s.jobs| && 0 <= w < |s.jobs| && s.jobs[v].Plate? && s.jobs[v] == s.jobs[w] ==> v == w
  }

  ghost predicate HeldBy(s: State, i: nat) {
    exists w :: 0 <= w < |s.jobs| && s.jobs[w] == Plate(i)
  }

  /** A plate is untouched, or some worker has it, or its one result is recorded. */
  ghost predicate PlateInv(c: Config, s: State, i: nat)
    requires Shape(c, s) && i < c.plates
  {
    if i >= s.current then s.computed[i] == []
    else HeldBy(s, i) || s.computed[i] == [s.results[i]]
  }

  ghost predicate MasterInv(c: Config, s: State)
    requires Shape(c, s)
  {
    && s.current <= c.plates
    && s.available + Outstanding(s.jobs) == c.Working()
    && match s.master
       case Assigning(p) =>
         && p <= (if c.Working() >= 1 then c.Working() else 1) && s.current == p - 1
         && Outstanding(s.jobs) == p - 1
         && forall w :: 0 <= w < c.Workers() ==> s.jobs[w] == if w < p - 1 then Plate(w) else Free
       case AnySource => c.Working() >= 2 ==> Outstanding(s.jobs) >= 1
       case FromSource(w, i) => s.jobs[w] == Plate(i)
       case Deciding(w) => s.jobs[w].Free?
       case Stopping(_) => Outstanding(s.jobs) == 0 && s.current == c.plates
       case Over => Outstanding(s.jobs) == 0 && s.current == c.plates
  }

  ghost predicate Inv(c: Config, s: State) {
    && Shape(c, s) && MasterInv(c, s) && Distinct(s)
    && (forall w :: 0 <= w < c.Workers() ==> WorkerInv(c, s, w))
    && forall i :: 0 <= i < c.plates ==> PlateInv(c, s, i)
  }

  lemma InvInit(c: Config, s: State)
    requires Init(c, s)
    ensures Inv(c, s)
  {
    NoneOutstanding(s.jobs);
  }

  lemma MasterStep(c: Config, s: State, e: Event)
    requires Inv(c, s) && Enabled(c, s, e)
    ensures MasterInv(c, Apply(c, s, e))
  {
    hide PlateInv, Distinct;
    match e {
      case Assign =>
        if s.master.process < c.Working() {
          OutstandingUpdate(s.jobs, s.master.process - 1, Plate(s.current));
        }
      case TakeIndex(w) =>
        assert WorkerInv(c, s, w);
      case TakeStates =>
        OutstandingUpdate(s.jobs, s.master.worker, Free);
      case Decide =>
        OutstandingUpdate(s.jobs, s.master.worker, Plate(s.current));
      case _ =>
    }
  }

  /** A worker does not notice what happens elsewhere. */
  lemma WorkerFrame(c: Config, s: State, s': State, v: nat)
    requires Shape(c, s) && Shape(c, s') && v < c.Workers() && WorkerInv(c, s, v)
    requires s'.workers[v] == s.workers[v] && s'.jobs[v] == s.jobs[v] && s.current <= s'.current
    requires s'.toWorker[v] == s.toWorker[v] && s'.toMaster[v] == s.toMaster[v]
    requires Taken(s', v) == Taken(s, v) && StopSent(s', v) == StopSent(s, v)
    requires Taken(s, v) ==> s'.master == s.master
    requires s.jobs[v].Plate? && s.jobs[v].index < c.plates ==>
            s'.computed[s.jobs[v].index] == s.computed[s.jobs[v].index]
    ensures WorkerInv(c, s', v)
  {
  }

  /** The worker that is given a plate. */
  lemma MasterGives(c: Config, s: State, e: Event, v: nat)
    requires Inv(c, s) && Enabled(c, s, e)
    requires match e
             case Assign => s.master.process < c.Working() && v == s.master.process - 1
             case Decide => s.current < c.plates && v == s.master.worker
             case _ => false
    ensures v < c.Workers() && WorkerInv(c, Apply(c, s, e), v)
  {
    hide Distinct, HeldBy;
    assert WorkerInv(c, s, v);
    assert PlateInv(c, s, s.current);
  }

  /** The worker that an event of the master concerns. */
  lemma MasterTouches(c: Config, s: State, e: Event, v: nat)
    requires Inv(c, s) && Enabled(c, s, e)
    requires match e
             case Assign => s.master.process < c.Working() && v == s.master.process - 1
             case TakeIndex(w) => v == w
             case TakeStates => v == s.master.worker
             case Decide => s.current < c.plates && v == s.master.worker
             case Stop => v == s.master.process - 1
             case _ => false
    ensures v < c.Workers() && WorkerInv(c, Apply(c, s, e), v)
  {
    hide Distinct, HeldBy, PlateInv;
    if e.Assign? || e.Decide? {
      MasterGives(c, s, e, v);
    } else {
      assert WorkerInv(c, s, v);
      if e.Stop? {
        NoneOutstanding(s.jobs);
      }
    }
  }

  lemma WorkerActs(c: Config, s: State, e: Event, v: nat)
    requires Inv(c, s) && Enabled(c, s, e)
    requires match e
             case Take(w) => v == w
             case Compute(w, _) => v == w
             case SendIndex(w) => v == w
             case SendStates(w) => v == w
             case _ => false
    ensures WorkerInv(c, Apply(c, s, e), v)
  {
    hide Distinct, HeldBy, PlateInv, MasterInv;
    assert WorkerInv(c, s, v);
  }

  lemma HoldsWorking(c: Config, s: State, w: nat)
    requires Shape(c, s) && w < c.Workers() && s.workers[w].Working? && WorkerInv(c, s, w)
    ensures s.jobs[w] == Plate(s.workers[w].plate)
  {
  }

  lemma WorkersAtMasterStep(c: Config, s: State, e: Event, v: nat)
    requires Inv(c, s) && Enabled(c, s, e) && v < c.Workers()
    requires e.Assign? || e.TakeIndex? || e.TakeStates? || e.Decide? || e.Stop?
    ensures WorkerInv(c, Apply(c, s, e), v)
  {
    hide WorkerInv, PlateInv, HeldBy, Distinct;
    var s' := Apply(c, s, e);
    match e {
      case Assign =>
        if v == s.master.process - 1 && s.master.process < c.Working() {
          MasterTouches(c, s, e, v);
        } else {
          WorkerFrame(c, s, s', v);
        }
      case TakeIndex(w) =>
        if v == w { MasterTouches(c, s, e, v); } else { WorkerFrame(c, s, s', v); }
      case TakeStates =>
        if v == s.master.worker { MasterTouches(c, s, e, v); } else { WorkerFrame(c, s, s', v); }
      case Decide =>
        if v == s.master.worker && s.current < c.plates {
          MasterTouches(c, s, e, v);
        } else {
          WorkerFrame(c, s, s', v);
        }
      case Stop =>
        if v == s.master.process - 1 { MasterTouches(c, s, e, v); } else { WorkerFrame(c, s, s', v); }
    }
  }

  lemma WorkersStep(c: Config, s: State, e: Event, v: nat)
    requires Inv(c, s) && Enabled(c, s, e) && v < c.Workers()
    ensures WorkerInv(c, Apply(c, s, e), v)
  {
    hide WorkerInv, PlateInv, HeldBy;
    if e.Assign? || e.TakeIndex? || e.TakeStates? || e.Decide? || e.Stop? {
      WorkersAtMasterStep(c, s, e, v);
    } else if v == e.w {
      WorkerActs(c, s, e, v);
    } else {
      if e.Compute? {
        HoldsWorking(c, s, e.w);
      }
      WorkerFrame(c, s, Apply(c, s, e), v);
    }
  }

  lemma DistinctStep(c: Config, s: State, e: Event)
    requires Inv(c, s) && Enabled(c, s, e)
    ensures Distinct(Apply(c, s, e))
  {
    hide Outstanding, PlateInv;
    var jobs := Apply(c, s, e).jobs;
    forall v, w | 0 <= v < |jobs| && 0 <= w < |jobs| && jobs[v].Plate? && jobs[v] == jobs[w]
      ensures v == w
    {
      assert WorkerInv(c, s, v) && WorkerInv(c, s, w);
    }
  }

  /** The plate a worker held is still held unless the master records its result now. */
  lemma HeldStep(c: Config, s: State, e: Event, i: nat)
    requires Inv(c, s) && Enabled(c, s, e) && HeldBy(s, i)
    requires !e.TakeStates? || s.master.index != i
    ensures HeldBy(Apply(c, s, e), i)
  {
    hide Outstanding, PlateInv;
    var w :| 0 <= w < |s.jobs| && s.jobs[w] == Plate(i);
    assert WorkerInv(c, s, w);
    assert Apply(c, s, e).jobs[w] == Plate(i);
  }

  lemma PlatesStep(c: Config, s: State, e: Event, i: nat)
    requires Inv(c, s) && Enabled(c, s, e) && i < c.plates
    ensures PlateInv(c, Apply(c, s, e), i)
  {
    hide Outstanding, Distinct;
    var s' := Apply(c, s, e);
    assert PlateInv(c, s, i);
    if s.current < s'.current && i == s.current {
      assert s'.jobs[if e.Assign? then s.master.process - 1 else s.master.worker] == Plate(i);
    } else if HeldBy(s, i) && i < s.current {
      if e.TakeStates? && s.master.index == i {
        assert WorkerInv(c, s, s.master.worker);
      } else {
        HeldStep(c, s, e, i);
      }
    } else if e.Compute? {
      assert WorkerInv(c, s, e.w);
    } else if e.TakeStates? {
      assert s.jobs[s.master.worker] == Plate(s.master.index);
    }
  }

  lemma InvStep(c: Config, s: State, s': State)
    requires Inv(c, s) && Step(c, s, s')
    ensures Inv(c, s')
  {
    var e :| Enabled(c, s, e) && s' == Apply(c, s, e);
    MasterStep(c, s, e);
    DistinctStep(c, s, e);
    forall w | 0 <= w < c.Workers() ensures WorkerInv(c, s', w) {
      WorkersStep(c, s, e, w);
    }
    forall i | 0 <= i < c.plates ensures PlateInv(c, s', i) {
      PlatesStep(c, s, e, i);
    }
  }

  // ---- Every run ends ----

  function WorkerRank(pc: WorkerPc, sent: nat, replies: nat): nat {
    10 * sent + 2 * replies
    + match pc
      case Waiting => 1
      case Working(_) => 9
      case Computed(_, _) => 8
      case SentIndex(_, _) => 5
      case Stopped => 0
  }

  function WorkerRanks(c: Config, s: State): seq<nat>
    requires Shape(c, s)
  {
    seq(c.Workers(), w requires 0 <= w < c.Workers() => WorkerRank(s.workers[w], |s.toWorker[w]|, |s.toMaster[w]|))
  }

  function MasterRank(c: Config, pc: MasterPc): int
    requires c.Valid()
  {
    match pc
    case Assigning(_) => 11 * c.Workers() + 2
    case AnySource => 11 * c.Workers() + 1
    case FromSource(_, _) => 11 * c.Workers() + 2
    case Deciding(_) => 11 * c.Workers() + 3
    case Stopping(p) => 11 * (c.Workers() + 1 - p)
    case Over => 0
  }

  function Rank(c: Config, s: State): int
    requires Shape(c, s)
  {
    12 * (c.plates - s.current) + MasterRank(c, s.master) + Sum(WorkerRanks(c, s))
  }

  /** An event touches the channels and the state of one worker at most. */
  lemma OneWorkerRank(c: Config, s: State, s': State, w: nat)
    requires Shape(c, s) && Shape(c, s') && w < c.Workers()
    requires s'.workers == s.workers[w := s'.workers[w]]
    requires s'.toWorker == s.toWorker[w := s'.toWorker[w]]
    requires s'.toMaster == s.toMaster[w := s'.toMaster[w]]
    ensures Sum(WorkerRanks(c, s')) - WorkerRank(s'.workers[w], |s'.toWorker[w]|, |s'.toMaster[w]|)
         == Sum(WorkerRanks(c, s)) - WorkerRank(s.workers[w], |s.toWorker[w]|, |s.toMaster[w]|)
  {
    hide WorkerRank;
    var r := WorkerRank(s'.workers[w], |s'.toWorker[w]|, |s'.toMaster[w]|);
    assert WorkerRanks(c, s') == WorkerRanks(c, s)[w := r];
    TotalUpdate(WorkerRanks(c, s), w, r, Itself);
  }

  lemma MasterRankDrops(c: Config, s: State, e: Event)
    requires Inv(c, s) && Enabled(c, s, e)
    requires e.Assign? || e.TakeIndex? || e.TakeStates? || e.Decide? || e.Stop?
    ensures Rank(c, Apply(c, s, e)) < Rank(c, s)
  {
    hide WorkerRanks, WorkerInv, PlateInv, Distinct, Outstanding;
    var w := if e.Assign? then (if s.master.process < c.Working() then s.master.process - 1 else 0)
             else if e.TakeIndex? then e.w
             else if e.Stop? then s.master.process - 1
             else s.master.worker;
    OneWorkerRank(c, s, Apply(c, s, e), w);
  }

  lemma WorkerRankDrops(c: Config, s: State, e: Event)
    requires Inv(c, s) && Enabled(c, s, e)
    requires e.Take? || e.Compute? || e.SendIndex? || e.SendStates?
    ensures Rank(c, Apply(c, s, e)) < Rank(c, s)
  {
    hide WorkerRanks, WorkerInv, MasterInv, PlateInv, Distinct;
    OneWorkerRank(c, s, Apply(c, s, e), e.w);
  }

  lemma RankDrops(c: Config, s: State, s': State)
    requires Inv(c, s) && Step(c, s, s')
    ensures Rank(c, s') < Rank(c, s)
  {
    hide Inv, Rank;
    var e :| Enabled(c, s, e) && s' == Apply(c, s, e);
    if e.Take? || e.Compute? || e.SendIndex? || e.SendStates? {
      WorkerRankDrops(c, s, e);
    } else {
      MasterRankDrops(c, s, e);
    }
  }

  lemma RankInit(c: Config, s: State)
    requires Init(c, s)
    ensures Rank(c, s) == 12 * c.plates + 12 * c.Workers() + 2
  {
    TotalConstant(WorkerRanks(c, s), Itself, 1);
  }

  lemma {:induction false} RunInv(c: Config, run: seq<State>)
    requires IsRun(c, run)
    ensures forall i :: 0 <= i < |run| ==> Inv(c, run[i])
    ensures Shape(c, run[|run| - 1])
    ensures |run| - 1 + Rank(c, run[|run| - 1]) <= 12 * c.plates + 12 * c.Workers() + 2
  {
    hide MasterInv, WorkerInv, PlateInv, Distinct, Init, Rank, Step;
    if |run| == 1 {
      InvInit(c, run[0]);
      RankInit(c, run[0]);
    } else {
      var n := |run| - 1;
      RunInv(c, run[..n]);
      assert Step(c, run[n - 1], run[n]);
      InvStep(c, run[n - 1], run[n]);
      RankDrops(c, run[n - 1], run[n]);
    }
  }

  // ---- Main results ----

  /**
   * At every moment, idle and busy workers add up to the processes that work, which are the workers or the
   * plates, whatever is less; no two workers have the same plate, and no plate is computed twice.
   */
  lemma WorkIsAccounted(c: Config, run: seq<State>)
    requires IsRun(c, run)
    ensures var s := run[|run| - 1];
            && Shape(c, s)
            && s.available + Outstanding(s.jobs)
               == (if c.processCount - 1 <= c.plates then c.processCount - 1 else c.plates)
            && (forall v, w :: 0 <= v < |s.jobs| && 0 <= w < |s.jobs| && s.jobs[v].Plate? && s.jobs[v] == s.jobs[w] ==>
                v == w)
            && forall i :: 0 <= i < c.plates ==> |s.computed[i]| <= 1
  {
    RunInv(c, run);
    var s := run[|run| - 1];
    forall i | 0 <= i < c.plates ensures |s.computed[i]| <= 1 {
      assert PlateInv(c, s, i);
      if w :| 0 <= w < |s.jobs| && s.jobs[w] == Plate(i) {
        assert WorkerInv(c, s, w);
      }
    }
  }

  /**
   * When the master leaves its initial loop, the first workers have a plate each, in order, one worker less
   * than there are processes that work; nobody else has one.
   */
  lemma FirstPlates(c: Config, run: seq<State>, i: nat)
    requires IsRun(c, run) && i + 1 < |run| && run[i].master.Assigning? && !run[i + 1].master.Assigning?
    ensures var s, n := run[i + 1], if c.processCount - 1 <= c.plates then c.processCount - 1 else c.plates;
            && Shape(c, s) && s.current == (if n == 0 then 0 else n - 1)
            && forall w :: 0 <= w < c.Workers() ==> s.jobs[w] == if w < n - 1 then Plate(w) else Free
  {
    hide PlateInv, WorkerInv, Distinct, Outstanding;
    RunInv(c, run);
    assert Inv(c, run[i]) && Step(c, run[i], run[i + 1]);
  }

  /** The receive from any source takes a plate index, and the next one takes the states of that plate. */
  lemma MessagesArePaired(c: Config, run: seq<State>)
    requires IsRun(c, run)
    ensures var s := run[|run| - 1];
            && Shape(c, s)
            && (forall w: nat :: Enabled(c, s, TakeIndex(w)) ==>
                  s.jobs[w] == Plate(s.toMaster[w][0]) && s.toMaster[w][0] < c.plates)
            && (Enabled(c, s, TakeStates) ==>
                  s.master.index < c.plates && s.computed[s.master.index] == [s.toMaster[s.master.worker][0]])
  {
    RunInv(c, run);
    var s := run[|run| - 1];
    forall w: nat | Enabled(c, s, TakeIndex(w))
      ensures s.jobs[w] == Plate(s.toMaster[w][0]) && s.toMaster[w][0] < c.plates
    {
      assert WorkerInv(c, s, w);
    }
    if s.master.FromSource? {
      assert WorkerInv(c, s, s.master.worker);
    }
  }

  /** When the master has left its loop, every plate has been computed once, and that result is recorded. */
  lemma EveryPlateOnce(c: Config, run: seq<State>)
    requires IsRun(c, run)
    ensures var s := run[|run| - 1];
            Shape(c, s) && (s.master.Stopping? || s.master.Over? ==>
              && s.available == c.Working()
              && (forall i :: 0 <= i < c.plates ==> s.computed[i] == [s.results[i]])
              && forall w :: 0 <= w < c.Workers() ==> s.toMaster[w] == [] && s.jobs[w].Free?)
  {
    RunInv(c, run);
    var s := run[|run| - 1];
    if s.master.Stopping? || s.master.Over? {
      NoneOutstanding(s.jobs);
      forall w | 0 <= w < c.Workers() ensures s.toMaster[w] == [] && s.jobs[w].Free? {
        assert WorkerInv(c, s, w);
      }
      forall i | 0 <= i < c.plates ensures s.computed[i] == [s.results[i]] {
        assert PlateInv(c, s, i);
      }
    }
  }

  /** A worker with a plate, or with a reply under way, keeps the system going. */
  lemma HolderIsActive(c: Config, s: State, w: nat)
    requires Shape(c, s) && w < c.Workers() && WorkerInv(c, s, w) && s.jobs[w].Plate?
    requires s.master.AnySource? || Taken(s, w)
    ensures !Stuck(c, s)
  {
    match s.workers[w] {
      case Waiting =>
        if s.toWorker[w] != [] {
          assert Enabled(c, s, Take(w));
        } else if s.master.AnySource? {
          assert Enabled(c, s, TakeIndex(w));
        } else {
          assert Enabled(c, s, TakeStates);
        }
      case Working(_) => assert Enabled(c, s, Compute(w, 0));
      case Computed(_, _) => assert Enabled(c, s, SendIndex(w));
      case SentIndex(_, _) => assert Enabled(c, s, SendStates(w));
      case Stopped =>
    }
  }

  lemma StuckIsDone(c: Config, s: State)
    requires Inv(c, s) && Stuck(c, s) && c.Working() >= 2
    ensures AllDone(c, s)
  {
    hide PlateInv, Distinct;
    assert !Enabled(c, s, Assign) && !Enabled(c, s, Decide) && !Enabled(c, s, Stop);
    NoneOutstanding(s.jobs);
    if s.master.AnySource? {
      var w :| 0 <= w < c.Workers() && s.jobs[w].Plate?;
      HolderIsActive(c, s, w);
    } else if s.master.FromSource? {
      HolderIsActive(c, s, s.master.worker);
    } else {
      forall w | 0 <= w < c.Workers() ensures s.workers[w].Stopped? {
        assert WorkerInv(c, s, w) && !Enabled(c, s, Take(w));
      }
    }
  }

  /**
   * No run is longer than a bound in the numbers of plates and workers; with at least two working
   * processes, the last state of a run that cannot go on has every process at its end.
   */
  lemma SimulationEnds(c: Config, run: seq<State>)
    requires IsRun(c, run)
    ensures Shape(c, run[|run| - 1]) && |run| - 1 <= 12 * c.plates + 12 * c.Workers() + 2
    ensures c.Working() >= 2 && Stuck(c, run[|run| - 1]) ==> AllDone(c, run[|run| - 1])
  {
    RunInv(c, run);
    var s := run[|run| - 1];
    if c.Working() >= 2 && Stuck(c, s) {
      StuckIsDone(c, s);
    }
  }

  // ---- Below two working processes nothing is ever handed out ----

  ghost predicate NothingSent(c: Config, s: State)
    requires Shape(c, s)
  {
    && (s.master == Assigning(1) || s.master == AnySource)
    && forall w :: 0 <= w < c.Workers() ==> s.workers[w].Waiting? && s.toWorker[w] == [] && s.toMaster[w] == []
  }

  lemma {:induction false} NothingIsSent(c: Config, run: seq<State>)
    requires IsRun(c, run) && c.Working() <= 1
    ensures Shape(c, run[|run| - 1]) && NothingSent(c, run[|run| - 1])
  {
    if |run| > 1 {
      var n := |run| - 1;
      NothingIsSent(c, run[..n]);
      assert Step(c, run[n - 1], run[n]);
    }
  }

  /** Every run that cannot go on has ended properly exactly when there are two plates and two workers to share them. */
  lemma EndsProperlyExactly(c: Config)
    requires c.Valid()
    ensures (forall run :: IsRun(c, run) && Shape(c, run[|run| - 1]) && Stuck(c, run[|run| - 1]) ==>
            AllDone(c, run[|run| - 1]))
       <==> c.processCount >= 3 && c.plates >= 2
  {
    if c.processCount >= 3 && c.plates >= 2 {
      forall run | IsRun(c, run) && Shape(c, run[|run| - 1]) && Stuck(c, run[|run| - 1])
        ensures AllDone(c, run[|run| - 1])
      {
        SimulationEnds(c, run);
      }
    } else {
      var n := c.Workers();
      var s := State(Assigning(1), 0, c.Working(), seq(c.plates, _ => 0), seq(n, _ => Waiting), seq(n, _ => []),
                     seq(n, _ => []), seq(n, _ => Free), seq(c.plates, _ => []));
      assert Init(c, s) && Enabled(c, s, Assign);
      var run := [s, Apply(c, s, Assign)];
      assert Step(c, run[0], run[1]);
      assert IsRun(c, run);
      NothingIsSent(c, run);
      assert Stuck(c, run[|run| - 1]) && !AllDone(c, run[|run| - 1]);
    }
  }

  // ---- Any numbers of states can be the results ----

  ghost predicate Reachable(c: Config, s: State) {
    exists run :: IsRun(c, run) && run[|run| - 1] == s
  }

  /** The plates computed so far took as many states as told. */
  ghost predicate ComputedAs(s: State, states: seq<nat>) {
    |s.computed| == |states| && forall i :: 0 <= i < |states| ==> s.computed[i] == [] || s.computed[i] == [states[i]]
  }

  lemma ComputedStep(c: Config, s: State, e: Event, states: seq<nat>)
    requires Inv(c, s) && Enabled(c, s, e) && ComputedAs(s, states)
    requires e.Compute? ==> e.states == states[s.workers[e.w].plate]
    ensures ComputedAs(Apply(c, s, e), states)
  {
    hide MasterInv, PlateInv, Distinct;
    if e.Compute? {
      assert WorkerInv(c, s, e.w);
    }
  }

  /** Where a worker computes, any number of states will do. */
  lemma AsTold(c: Config, s: State, e: Event, states: seq<nat>) returns (e': Event)
    requires Shape(c, s) && Enabled(c, s, e) && |states| == c.plates
    ensures Enabled(c, s, e')
    ensures e'.Compute? ==> s.workers[e'.w].plate < |states| && e'.states == states[s.workers[e'.w].plate]
  {
    e' := if e.Compute? then Compute(e.w, states[s.workers[e.w].plate]) else e;
  }

  /** Every run can be continued, with the numbers of states told, until no process can go on. */
  lemma {:induction false} Continue(c: Config, run: seq<State>, states: seq<nat>) returns (s': State)
    requires IsRun(c, run) && |states| == c.plates && ComputedAs(run[|run| - 1], states)
    ensures Reachable(c, s') && Shape(c, s') && Stuck(c, s') && ComputedAs(s', states)
    decreases 12 * c.plates + 12 * c.Workers() + 3 - |run|
  {
    hide Enabled, Apply, Inv, ComputedAs, Rank;
    SimulationEnds(c, run);
    RunInv(c, run);
    s' := run[|run| - 1];
    if e :| Enabled(c, s', e) {
      var e' := AsTold(c, s', e, states);
      var next := Apply(c, s', e');
      ComputedStep(c, s', e', states);
      assert Step(c, s', next);
      var longer := run + [next];
      forall i | 0 <= i < |longer| - 1 ensures Step(c, longer[i], longer[i + 1]) {
        if i < |run| - 1 {
          assert Step(c, run[i], run[i + 1]);
        }
      }
      SimulationEnds(c, longer);
      s' := Continue(c, longer, states);
    }
  }

  /** Whatever numbers of states the plates take, with two working processes some run ends with them recorded. */
  lemma AnyResults(c: Config, states: seq<nat>) returns (s: State)
    requires c.processCount >= 3 && c.plates >= 2 && |states| == c.plates
    ensures Reachable(c, s) && Shape(c, s) && AllDone(c, s) && s.results == states
  {
    hide Stuck, Enabled, Apply, Inv;
    var n := c.Workers();
    var start := State(Assigning(1), 0, c.Working(), seq(c.plates, _ => 0), seq(n, _ => Waiting), seq(n, _ => []),
                       seq(n, _ => []), seq(n, _ => Free), seq(c.plates, _ => []));
    assert IsRun(c, [start]);
    s := Continue(c, [start], states);
    var run :| IsRun(c, run) && run[|run| - 1] == s;
    SimulationEnds(c, run);
    EveryPlateOnce(c, run);
    assert forall i :: 0 <= i < c.plates ==> s.results[i] == states[i];
  }
}
