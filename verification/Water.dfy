/**
 * The water rendezvous: hydrogen and oxygen threads take a permit of their kind (two for hydrogen, one for
 * oxygen), meet at a barrier of three, bond, meet at the same barrier again, and give the permit back.
 * One step is one action of one atom; arriving at the barrier and waking up from it are two steps.
 */
module Water {
  import opened Sums

  datatype Kind = Hydrogen | Oxygen

  datatype Pc =
    | Outside
    | ToEnter | AtEntry(phase: nat)  // arrived in that phase of the barrier
    | ToBond | ToExit | AtExit(phase: nat)
    | ToRelease | Finished

  datatype Atom = Atom(kind: Kind, pc: Pc)

  /** A call to `bond`, with the barrier phase in which it happened. */
  datatype BondCall = BondCall(kind: Kind, phase: nat)

  /** How many atoms of each kind completed a phase of the barrier. */
  datatype Crew = Crew(hydrogens: nat, oxygens: nat)

  datatype State = State(
    atoms: seq<Atom>, hydrogenPermits: nat, oxygenPermits: nat,
    phase: nat, arrived: Crew,                            // the barrier
    hydrogenCount: nat, oxygenCount: nat, molecules: nat, // the counters of `bond`
    crews: seq<Crew>, bonds: seq<BondCall>)               // histories

  datatype Event = Move(i: nat)

  function Capacity(k: Kind): nat {
    if k.Hydrogen? then 2 else 1
  }

  function Permits(s: State, k: Kind): nat {
    if k.Hydrogen? then s.hydrogenPermits else s.oxygenPermits
  }

  function AddPermit(s: State, k: Kind, d: int): State
    requires Permits(s, k) + d >= 0
  {
    if k.Hydrogen? then s.(hydrogenPermits := s.hydrogenPermits + d) else s.(oxygenPermits := s.oxygenPermits + d)
  }

  predicate Enabled(s: State, e: Event) {
    e.i < |s.atoms| &&
    match s.atoms[e.i].pc
    case Outside => Permits(s, s.atoms[e.i].kind) > 0
    case AtEntry(g) => g < s.phase
    case AtExit(g) => g < s.phase
    case Finished => false
    case _ => true
  }

  function SetPc(s: State, i: nat, pc: Pc): State
    requires i < |s.atoms|
  {
    s.(atoms := s.atoms[i := s.atoms[i].(pc := pc)])
  }

  function Arrived(s: State, k: Kind): nat {
    if k.Hydrogen? then s.arrived.hydrogens else s.arrived.oxygens
  }

  /** Atom i arrives at the barrier. */
  function Arrive(s: State, i: nat, pc: Pc): State
    requires i < |s.atoms|
  {
    SetPc(s, i, pc).(arrived :=
      if s.atoms[i].kind.Hydrogen? then s.arrived.(hydrogens := s.arrived.hydrogens + 1)
      else s.arrived.(oxygens := s.arrived.oxygens + 1))
  }

  /** The third arrival completes the phase. */
  function Complete(s: State): State {
    if s.arrived.hydrogens + s.arrived.oxygens == 3
    then s.(phase := s.phase + 1, arrived := Crew(0, 0), crews := s.crews + [s.arrived])
    else s
  }

  /** The body of `bond`, which runs under a mutex. */
  function Bond(s: State, k: Kind): State {
    var h := s.hydrogenCount + (if k.Hydrogen? then 1 else 0);
    var o := s.oxygenCount + (if k.Oxygen? then 1 else 0);
    var s' := s.(bonds := s.bonds + [BondCall(k, s.phase)]);
    if h == 2 && o == 1 then s'.(molecules := s.molecules + 1, hydrogenCount := 0, oxygenCount := 0)
    else s'.(hydrogenCount := h, oxygenCount := o)
  }

  function Apply(s: State, e: Event): State
    requires Enabled(s, e)
  {
    var k := s.atoms[e.i].kind;
    match s.atoms[e.i].pc
    case Outside => AddPermit(SetPc(s, e.i, ToEnter), k, -1)
    case ToEnter => Complete(Arrive(s, e.i, AtEntry(s.phase)))
    case AtEntry(_) => SetPc(s, e.i, ToBond)
    case ToBond => Bond(SetPc(s, e.i, ToExit), k)
    case ToExit => Complete(Arrive(s, e.i, AtExit(s.phase)))
    case AtExit(_) => SetPc(s, e.i, ToRelease)
    case ToRelease => AddPermit(SetPc(s, e.i, Finished), k, 1)
  }

  ghost predicate Step(s: State, s': State) {
    exists e :: Enabled(s, e) && s' == Apply(s, e)
  }

  predicate Init(s: State) {
    && s.hydrogenPermits == 2 && s.oxygenPermits == 1
    && s.phase == 0 && s.arrived == Crew(0, 0)
    && s.hydrogenCount == 0 && s.oxygenCount == 0 && s.molecules == 0
    && s.crews == [] && s.bonds == []
    && forall i :: 0 <= i < |s.atoms| ==> s.atoms[i].pc.Outside?
  }

  ghost predicate IsRun(run: seq<State>) {
    && |run| > 0 && Init(run[0])
    && forall i :: 0 <= i < |run| - 1 ==> Step(run[i], run[i + 1])
  }

  ghost predicate Stuck(s: State) {
    forall e :: !Enabled(s, e)
  }

  predicate AllDone(s: State) {
    forall i :: 0 <= i < |s.atoms| ==> s.atoms[i].pc.Finished?
  }

  // ---- Counting atoms ----

  function OfKind(k: Kind): Atom -> nat {
    (a: Atom) => if a.kind == k then 1 else 0
  }

  /** Holds a permit. */
  function Holding(k: Kind): Atom -> nat {
    (a: Atom) => if a.kind == k && !a.pc.Outside? && !a.pc.Finished? then 1 else 0
  }

  function Entering(k: Kind): Atom -> nat {
    (a: Atom) => if a.kind == k && a.pc.AtEntry? then 1 else 0
  }

  function Exiting(k: Kind): Atom -> nat {
    (a: Atom) => if a.kind == k && a.pc.AtExit? then 1 else 0
  }

  function Bonded(k: Kind): Atom -> nat {
    (a: Atom) => if a.kind == k && (a.pc.ToExit? || a.pc.AtExit?) then 1 else 0
  }

  /** How often the atom has arrived at the barrier. */
  function Arrivals(k: Kind): Atom -> nat {
    (a: Atom) =>
      if a.kind != k || a.pc.Outside? || a.pc.ToEnter? then 0
      else if a.pc.AtEntry? || a.pc.ToBond? || a.pc.ToExit? then 1
      else 2
  }

  function Called(k: Kind): BondCall -> nat {
    (b: BondCall) => if b.kind == k then 1 else 0
  }

  /** When one weight is at most another everywhere and their sums agree, so do the weights. */
  lemma {:induction false} SameTotal<T>(s: seq<T>, v: T -> nat, w: T -> nat)
    requires forall x :: v(x) <= w(x)
    ensures Total(s, v) <= Total(s, w)
    ensures Total(s, v) == Total(s, w) ==> forall i :: 0 <= i < |s| ==> v(s[i]) == w(s[i])
  {
    if s != [] {
      SameTotal(s[1..], v, w);
      assert forall i :: 0 < i < |s| ==> s[i] == s[1..][i - 1];
    }
  }

  // ---- The invariant ----

  /** In even phases atoms meet to enter, in odd ones the three inside meet to leave. */
  predicate PcInv(pc: Pc, phase: nat) {
    if phase % 2 == 0
    then match pc
         case AtEntry(g) => g == phase
         case AtExit(g) => g + 1 == phase
         case ToBond => false
         case ToExit => false
         case _ => true
    else match pc
         case AtEntry(g) => g + 1 == phase
         case AtExit(g) => g == phase
         case ToEnter => false
         case ToRelease => false
         case _ => true
  }

  predicate KindInv(s: State, k: Kind) {
    && Permits(s, k) + Total(s.atoms, Holding(k)) == Capacity(k)
    && Total(s.atoms, Arrivals(k)) == (if k.Hydrogen? then 2 * s.phase else s.phase) + Arrived(s, k)
    && Arrived(s, k) == Total(s.atoms, if s.phase % 2 == 0 then Entering(k) else Exiting(k))
    && (s.phase % 2 == 1 ==> Total(s.atoms, Holding(k)) == Capacity(k))
  }

  predicate BarrierInv(s: State) {
    && KindInv(s, Hydrogen) && KindInv(s, Oxygen)
    && |s.crews| == s.phase && (forall p :: 0 <= p < s.phase ==> s.crews[p] == Crew(2, 1))
    && forall i :: 0 <= i < |s.atoms| ==> PcInv(s.atoms[i].pc, s.phase)
  }

  predicate CountersInv(s: State) {
    var h, o := Total(s.atoms, Bonded(Hydrogen)), Total(s.atoms, Bonded(Oxygen));
    if s.phase % 2 == 0 || (h == 2 && o == 1)
    then s.hydrogenCount == 0 && s.oxygenCount == 0 && s.molecules == (s.phase + 1) / 2
    else s.hydrogenCount == h && s.oxygenCount == o && s.molecules == s.phase / 2
  }

  /** The calls that built molecule m. */
  predicate IsWater(bonds: seq<BondCall>, m: nat)
    requires 3 * m + 3 <= |bonds|
  {
    var calls := bonds[3 * m..3 * m + 3];
    && Total(calls, Called(Hydrogen)) == 2 && Total(calls, Called(Oxygen)) == 1
    && calls[0].phase == calls[1].phase == calls[2].phase == 2 * m + 1
  }

  ghost predicate BondsInv(s: State) {
    && |s.bonds| == 3 * s.molecules + s.hydrogenCount + s.oxygenCount
    && (forall m :: 0 <= m < s.molecules ==> IsWater(s.bonds, m))
    && (forall j :: 3 * s.molecules <= j < |s.bonds| ==> s.bonds[j].phase == 2 * s.molecules + 1)
    && Total(s.bonds[3 * s.molecules..], Called(Hydrogen)) == s.hydrogenCount
    && Total(s.bonds[3 * s.molecules..], Called(Oxygen)) == s.oxygenCount
  }

  ghost predicate Inv(s: State) {
    BarrierInv(s) && CountersInv(s) && BondsInv(s) && s.arrived.hydrogens + s.arrived.oxygens <= 2
  }

  lemma InvInit(s: State)
    requires Init(s)
    ensures Inv(s)
  {
    forall k: Kind
      ensures Total(s.atoms, Holding(k)) == 0 && Total(s.atoms, Arrivals(k)) == 0 && Total(s.atoms, Entering(k)) == 0
    {
      TotalZero(s.atoms, Holding(k));
      TotalZero(s.atoms, Arrivals(k));
      TotalZero(s.atoms, Entering(k));
    }
    assert KindInv(s, Hydrogen) && KindInv(s, Oxygen);
  }

  /** What changing one atom does to the counts. */
  lemma CountsUpdate(s: State, i: nat, pc: Pc, k: Kind)
    requires i < |s.atoms|
    ensures var a, a', atoms := s.atoms[i], s.atoms[i].(pc := pc), SetPc(s, i, pc).atoms;
            && Total(atoms, Holding(k)) + Holding(k)(a) == Total(s.atoms, Holding(k)) + Holding(k)(a')
            && Total(atoms, Arrivals(k)) + Arrivals(k)(a) == Total(s.atoms, Arrivals(k)) + Arrivals(k)(a')
            && Total(atoms, Entering(k)) + Entering(k)(a) == Total(s.atoms, Entering(k)) + Entering(k)(a')
            && Total(atoms, Exiting(k)) + Exiting(k)(a) == Total(s.atoms, Exiting(k)) + Exiting(k)(a')
            && Total(atoms, Bonded(k)) + Bonded(k)(a) == Total(s.atoms, Bonded(k)) + Bonded(k)(a')
  {
    var a' := s.atoms[i].(pc := pc);
    TotalUpdate(s.atoms, i, a', Holding(k));
    TotalUpdate(s.atoms, i, a', Arrivals(k));
    TotalUpdate(s.atoms, i, a', Entering(k));
    TotalUpdate(s.atoms, i, a', Exiting(k));
    TotalUpdate(s.atoms, i, a', Bonded(k));
  }

  /** A step, before a third arrival completes the phase. */
  function Before(s: State, e: Event): State
    requires Enabled(s, e)
  {
    match s.atoms[e.i].pc
    case ToEnter => Arrive(s, e.i, AtEntry(s.phase))
    case ToExit => Arrive(s, e.i, AtExit(s.phase))
    case _ => Apply(s, e)
  }

  /** While the three are inside, everybody else is idle. */
  lemma HeldByAll(s: State, i: nat)
    requires BarrierInv(s) && i < |s.atoms|
    ensures s.phase % 2 == 1 && s.atoms[i].pc.Outside? ==> Permits(s, s.atoms[i].kind) == 0
  {
  }

  /** The counts of a kind survive when permits and arrivals change as the atom does. */
  lemma KindUpdate(s: State, s': State, i: nat, pc: Pc, k: Kind)
    requires KindInv(s, k) && i < |s.atoms| && s'.atoms == SetPc(s, i, pc).atoms && s'.phase == s.phase
    requires Permits(s', k) + Holding(k)(s'.atoms[i]) == Permits(s, k) + Holding(k)(s.atoms[i])
    requires Arrived(s', k) + Arrivals(k)(s.atoms[i]) == Arrived(s, k) + Arrivals(k)(s'.atoms[i])
    requires s.phase % 2 == 0 ==> Arrived(s', k) + Entering(k)(s.atoms[i]) == Arrived(s, k) + Entering(k)(s'.atoms[i])
    requires s.phase % 2 == 1 ==> Arrived(s', k) + Exiting(k)(s.atoms[i]) == Arrived(s, k) + Exiting(k)(s'.atoms[i])
    requires s.phase % 2 == 1 ==> Holding(k)(s'.atoms[i]) == Holding(k)(s.atoms[i])
    ensures KindInv(s', k)
  {
    CountsUpdate(s, i, pc, k);
  }

  /** An arrival counts for the kind of the atom. */
  lemma KindArrival(s: State, e: Event, k: Kind)
    requires Enabled(s, e) && KindInv(s, k) && PcInv(s.atoms[e.i].pc, s.phase)
    requires s.atoms[e.i].pc.ToEnter? || s.atoms[e.i].pc.ToExit?
    ensures KindInv(Before(s, e), k)
  {
    hide KindInv, Total;
    KindUpdate(s, Before(s, e), e.i, Before(s, e).atoms[e.i].pc, k);
  }

  lemma KindStep(s: State, e: Event, k: Kind)
    requires Enabled(s, e) && KindInv(s, k) && PcInv(s.atoms[e.i].pc, s.phase)
    requires s.phase % 2 == 1 && s.atoms[e.i].pc.Outside? ==> Permits(s, s.atoms[e.i].kind) == 0
    ensures KindInv(Before(s, e), k)
  {
    hide KindInv, Total, Complete, Arrive;
    if s.atoms[e.i].pc.ToEnter? || s.atoms[e.i].pc.ToExit? {
      KindArrival(s, e, k);
    } else {
      KindUpdate(s, Before(s, e), e.i, Before(s, e).atoms[e.i].pc, k);
    }
  }

  lemma BarrierStep(s: State, e: Event)
    requires Inv(s) && Enabled(s, e)
    ensures BarrierInv(Before(s, e))
  {
    hide KindInv, CountersInv, BondsInv;
    HeldByAll(s, e.i);
    assert PcInv(s.atoms[e.i].pc, s.phase);
    KindStep(s, e, Hydrogen);
    KindStep(s, e, Oxygen);
  }

  /** A complete phase: two hydrogens and one oxygen have arrived, and nobody else holds a permit. */
  lemma CrewIsComplete(s: State)
    requires BarrierInv(s) && s.arrived.hydrogens + s.arrived.oxygens == 3
    ensures s.arrived == Crew(2, 1)
    ensures Total(s.atoms, Holding(Hydrogen)) == 2 && Total(s.atoms, Holding(Oxygen)) == 1
    ensures forall i :: 0 <= i < |s.atoms| ==>
              var pc := s.atoms[i].pc;
              pc.Outside? || pc.Finished? || pc == (if s.phase % 2 == 0 then AtEntry(s.phase) else AtExit(s.phase))
  {
    forall k: Kind
      ensures Arrived(s, k) <= Total(s.atoms, Holding(k)) <= Capacity(k)
      ensures Arrived(s, k) == Total(s.atoms, Holding(k)) ==>
                forall i :: 0 <= i < |s.atoms| && Holding(k)(s.atoms[i]) == 1 ==>
                  if s.phase % 2 == 0 then s.atoms[i].pc.AtEntry? else s.atoms[i].pc.AtExit?
    {
      assert KindInv(s, k);
      SameTotal(s.atoms, Entering(k), Holding(k));
      SameTotal(s.atoms, Exiting(k), Holding(k));
    }
    assert Arrived(s, Hydrogen) == Total(s.atoms, Holding(Hydrogen)) == 2;
    assert Arrived(s, Oxygen) == Total(s.atoms, Holding(Oxygen)) == 1;
    forall i | 0 <= i < |s.atoms| && !s.atoms[i].pc.Outside? && !s.atoms[i].pc.Finished?
      ensures s.atoms[i].pc == if s.phase % 2 == 0 then AtEntry(s.phase) else AtExit(s.phase)
    {
      assert Holding(s.atoms[i].kind)(s.atoms[i]) == 1 && PcInv(s.atoms[i].pc, s.phase);
    }
  }

  lemma CompleteKeepsBarrier(s: State)
    requires BarrierInv(s) && s.arrived.hydrogens + s.arrived.oxygens <= 3
    ensures BarrierInv(Complete(s)) && Complete(s).arrived.hydrogens + Complete(s).arrived.oxygens <= 2
  {
    if s.arrived.hydrogens + s.arrived.oxygens == 3 {
      CrewIsComplete(s);
      var s' := Complete(s);
      forall k: Kind ensures KindInv(s', k) {
        assert KindInv(s, k);
        TotalZero(s.atoms, if s'.phase % 2 == 0 then Entering(k) else Exiting(k));
      }
    }
  }

  lemma CompleteKeepsCounters(s: State)
    requires BarrierInv(s) && CountersInv(s)
    ensures CountersInv(Complete(s))
  {
    if s.arrived.hydrogens + s.arrived.oxygens == 3 {
      CrewIsComplete(s);
      forall k: Kind
        ensures Total(s.atoms, Bonded(k)) == if s.phase % 2 == 0 then 0 else Capacity(k)
      {
        if s.phase % 2 == 0 {
          TotalZero(s.atoms, Bonded(k));
        } else {
          SameTotal(s.atoms, Exiting(k), Bonded(k));
          SameTotal(s.atoms, Bonded(k), Holding(k));
          assert KindInv(s, k);
        }
      }
    }
  }

  /** Only bonding matters to the counters of `bond`. */
  lemma CountersFrame(s: State, e: Event)
    requires Inv(s) && Enabled(s, e) && !s.atoms[e.i].pc.ToBond?
    ensures CountersInv(Before(s, e))
  {
    hide BondsInv, KindInv;
    var s' := Before(s, e);
    assert PcInv(s.atoms[e.i].pc, s.phase);
    CountsUpdate(s, e.i, s'.atoms[e.i].pc, Hydrogen);
    CountsUpdate(s, e.i, s'.atoms[e.i].pc, Oxygen);
    assert s.phase % 2 == 1 ==> s'.phase == s.phase;
  }

  /** An atom that is about to bond has not been counted yet. */
  lemma NotAllBonded(s: State, i: nat)
    requires BarrierInv(s) && i < |s.atoms|
    ensures forall k: Kind :: Total(s.atoms, Bonded(k)) <= Total(s.atoms, Holding(k)) <= Capacity(k)
    ensures s.atoms[i].pc.ToBond? ==>
              Total(s.atoms, Bonded(s.atoms[i].kind)) < Total(s.atoms, Holding(s.atoms[i].kind))
  {
    forall k: Kind ensures Total(s.atoms, Bonded(k)) <= Total(s.atoms, Holding(k)) <= Capacity(k) {
      assert KindInv(s, k);
      SameTotal(s.atoms, Bonded(k), Holding(k));
    }
    var k := s.atoms[i].kind;
    SameTotal(s.atoms, Bonded(k), Holding(k));
  }

  lemma CountersBond(s: State, e: Event)
    requires Inv(s) && Enabled(s, e) && s.atoms[e.i].pc.ToBond?
    ensures CountersInv(Before(s, e))
  {
    hide BondsInv, KindInv, Total;
    assert PcInv(s.atoms[e.i].pc, s.phase);
    NotAllBonded(s, e.i);
    CountsUpdate(s, e.i, ToExit, Hydrogen);
    CountsUpdate(s, e.i, ToExit, Oxygen);
  }

  lemma WaterStays(bonds: seq<BondCall>, call: BondCall, m: nat)
    requires 3 * m + 3 <= |bonds| && IsWater(bonds, m)
    ensures IsWater(bonds + [call], m)
  {
    assert (bonds + [call])[3 * m..3 * m + 3] == bonds[3 * m..3 * m + 3];
  }

  /** Two calls and a third one make a molecule. */
  lemma WaterIsMade(bonds: seq<BondCall>, m: nat)
    requires |bonds| == 3 * m + 3
    requires Total(bonds[3 * m..], Called(Hydrogen)) == 2 && Total(bonds[3 * m..], Called(Oxygen)) == 1
    requires forall j :: 3 * m <= j < |bonds| ==> bonds[j].phase == 2 * m + 1
    ensures IsWater(bonds, m)
  {
    assert bonds[3 * m..3 * m + 3] == bonds[3 * m..];
  }

  lemma TailGrows(bonds: seq<BondCall>, from: nat, call: BondCall, k: Kind)
    requires from <= |bonds|
    ensures Total((bonds + [call])[from..], Called(k)) == Total(bonds[from..], Called(k)) + Called(k)(call)
  {
    assert (bonds + [call])[from..] == bonds[from..] + [call];
    TotalAppend(bonds[from..], call, Called(k));
  }

  /** A call to `bond` in the phase of the molecule under construction. */
  lemma BondKeepsBonds(s: State, k: Kind)
    requires BondsInv(s) && s.phase == 2 * s.molecules + 1
    ensures BondsInv(Bond(s, k))
  {
    hide IsWater, Total;
    var s', m, call := Bond(s, k), s.molecules, BondCall(k, s.phase);
    TailGrows(s.bonds, 3 * m, call, Hydrogen);
    TailGrows(s.bonds, 3 * m, call, Oxygen);
    forall n | 0 <= n < m ensures IsWater(s'.bonds, n) {
      WaterStays(s.bonds, call, n);
    }
    if s'.molecules > m {
      WaterIsMade(s'.bonds, m);
      assert s'.bonds[3 * s'.molecules..] == [];
      TotalOfNothing(Called(Hydrogen));
      TotalOfNothing(Called(Oxygen));
    }
  }

  lemma BondsBond(s: State, e: Event)
    requires Inv(s) && Enabled(s, e) && s.atoms[e.i].pc.ToBond?
    ensures BondsInv(Apply(s, e))
  {
    hide KindInv;
    assert PcInv(s.atoms[e.i].pc, s.phase);
    NotAllBonded(s, e.i);
    assert s.phase == 2 * s.molecules + 1;
    BondKeepsBonds(SetPc(s, e.i, ToExit), s.atoms[e.i].kind);
  }

  lemma BondsFrame(s: State, e: Event)
    requires BondsInv(s) && Enabled(s, e) && !s.atoms[e.i].pc.ToBond?
    ensures BondsInv(Apply(s, e))
  {
    assert Apply(s, e).bonds == s.bonds;
  }

  lemma InvStep(s: State, s': State)
    requires Inv(s) && Step(s, s')
    ensures Inv(s')
  {
    hide BarrierInv, CountersInv, BondsInv;
    var e :| Enabled(s, e) && s' == Apply(s, e);
    BarrierStep(s, e);
    if s.atoms[e.i].pc.ToBond? {
      CountersBond(s, e);
      BondsBond(s, e);
    } else {
      CountersFrame(s, e);
      BondsFrame(s, e);
    }
    CompleteKeepsBarrier(Before(s, e));
    CompleteKeepsCounters(Before(s, e));
  }

  lemma {:induction false} RunInv(run: seq<State>)
    requires IsRun(run)
    ensures forall i :: 0 <= i < |run| ==> Inv(run[i])
  {
    hide Inv, Init, Step;
    if |run| == 1 {
      InvInit(run[0]);
    } else {
      var n := |run| - 1;
      RunInv(run[..n]);
      assert Step(run[n - 1], run[n]);
      InvStep(run[n - 1], run[n]);
    }
  }

  // ---- Every run ends ----

  /** Steps an atom still has to take. */
  function ToGo(a: Atom): nat {
    match a.pc
    case Outside => 7
    case ToEnter => 6
    case AtEntry(_) => 5
    case ToBond => 4
    case ToExit => 3
    case AtExit(_) => 2
    case ToRelease => 1
    case Finished => 0
  }

  lemma MovesOneAtom(s: State, e: Event)
    requires Enabled(s, e)
    ensures var s', a := Apply(s, e), s.atoms[e.i];
            exists pc :: s'.atoms == s.atoms[e.i := Atom(a.kind, pc)] && ToGo(Atom(a.kind, pc)) == ToGo(a) - 1
  {
    var s', a := Apply(s, e), s.atoms[e.i];
    var pc := if a.pc.Outside? then ToEnter else if a.pc.ToEnter? then AtEntry(s.phase)
        else if a.pc.AtEntry? then ToBond
              else if a.pc.ToBond? then ToExit else if a.pc.ToExit? then AtExit(s.phase)
              else if a.pc.AtExit? then ToRelease else Finished;
    assert s'.atoms == s.atoms[e.i := Atom(a.kind, pc)];
  }

  lemma OneStepLess(s: State, s': State)
    requires Step(s, s')
    ensures |s'.atoms| == |s.atoms| && Total(s'.atoms, ToGo) == Total(s.atoms, ToGo) - 1
    ensures forall k: Kind :: Total(s'.atoms, OfKind(k)) == Total(s.atoms, OfKind(k))
  {
    hide Apply, Total;
    var e :| Enabled(s, e) && s' == Apply(s, e);
    MovesOneAtom(s, e);
    var a := s.atoms[e.i];
    var pc :| s'.atoms == s.atoms[e.i := Atom(a.kind, pc)] && ToGo(Atom(a.kind, pc)) == ToGo(a) - 1;
    TotalUpdate(s.atoms, e.i, Atom(a.kind, pc), ToGo);
    TotalUpdate(s.atoms, e.i, Atom(a.kind, pc), OfKind(Hydrogen));
    TotalUpdate(s.atoms, e.i, Atom(a.kind, pc), OfKind(Oxygen));
  }

  lemma {:induction false} StepsToGo(run: seq<State>)
    requires IsRun(run)
    ensures |run| - 1 + Total(run[|run| - 1].atoms, ToGo) == 7 * |run[0].atoms|
    ensures |run[|run| - 1].atoms| == |run[0].atoms|
    ensures forall k: Kind :: Total(run[|run| - 1].atoms, OfKind(k)) == Total(run[0].atoms, OfKind(k))
  {
    if |run| == 1 {
      TotalConstant(run[0].atoms, ToGo, 7);
    } else {
      var n := |run| - 1;
      StepsToGo(run[..n]);
      assert Step(run[n - 1], run[n]);
      OneStepLess(run[n - 1], run[n]);
    }
  }

  function IsFinished(k: Kind): Atom -> nat {
    (a: Atom) => if a.kind == k && a.pc.Finished? then 1 else 0
  }

  function IsOutside(k: Kind): Atom -> nat {
    (a: Atom) => if a.kind == k && a.pc.Outside? then 1 else 0
  }

  /** Has finished, or waits: outside, or at the barrier. */
  predicate RestPc(a: Atom, odd: bool) {
    a.pc.Outside? || a.pc.Finished? || (if odd then a.pc.AtExit? else a.pc.AtEntry?)
  }

  lemma {:induction false} Partition(atoms: seq<Atom>, k: Kind)
    requires forall i :: 0 <= i < |atoms| ==> RestPc(atoms[i], false)
    ensures Total(atoms, OfKind(k))
            == Total(atoms, IsOutside(k)) + Total(atoms, Entering(k)) + Total(atoms, IsFinished(k))
    ensures Total(atoms, Holding(k)) == Total(atoms, Entering(k))
    ensures Total(atoms, Arrivals(k)) == Total(atoms, Entering(k)) + 2 * Total(atoms, IsFinished(k))
  {
    if atoms != [] {
      Partition(atoms[1..], k);
    }
  }

  predicate AtRest(s: State, i: nat)
    requires i < |s.atoms|
  {
    var pc := s.atoms[i].pc;
    (pc.Outside? && Permits(s, s.atoms[i].kind) == 0) || pc.Finished?
    || pc == (if s.phase % 2 == 0 then AtEntry(s.phase) else AtExit(s.phase))
  }

  lemma StuckAtom(s: State, i: nat)
    requires BarrierInv(s) && Stuck(s) && i < |s.atoms|
    ensures AtRest(s, i)
  {
    hide KindInv;
    assert PcInv(s.atoms[i].pc, s.phase) && !Enabled(s, Move(i));
  }

  lemma {:induction false} AllExiting(atoms: seq<Atom>, k: Kind)
    requires forall i :: 0 <= i < |atoms| ==> RestPc(atoms[i], true)
    ensures Total(atoms, Holding(k)) == Total(atoms, Exiting(k))
  {
    if atoms != [] {
      AllExiting(atoms[1..], k);
    }
  }

  /** In a stuck state, every atom has finished, or waits at the entry, or outside while no permit is left. */
  lemma StuckAtoms(s: State)
    requires Inv(s) && Stuck(s)
    ensures s.phase % 2 == 0 && forall i :: 0 <= i < |s.atoms| ==> AtRest(s, i) && RestPc(s.atoms[i], false)
  {
    forall i | 0 <= i < |s.atoms| ensures AtRest(s, i) && RestPc(s.atoms[i], s.phase % 2 == 1) {
      StuckAtom(s, i);
    }
    if s.phase % 2 == 1 {
      AllExiting(s.atoms, Hydrogen);
      AllExiting(s.atoms, Oxygen);
    }
  }

  /** What a stuck state says about the atoms of one kind. */
  lemma StuckKind(s: State, k: Kind)
    requires Inv(s) && Stuck(s)
    ensures Total(s.atoms, OfKind(k)) ==
            Total(s.atoms, IsOutside(k)) + Arrived(s, k) + (if k.Hydrogen? then s.phase else s.phase / 2)
    ensures Total(s.atoms, IsOutside(k)) > 0 ==> Arrived(s, k) == Capacity(k)
    ensures AllDone(s) ==> Arrived(s, k) == 0 && Total(s.atoms, IsOutside(k)) == 0
  {
    StuckAtoms(s);
    Partition(s.atoms, k);
    assert KindInv(s, k);
    TotalZero(s.atoms, IsOutside(k));
    TotalZero(s.atoms, Entering(k));
    if i :| 0 <= i < |s.atoms| && IsOutside(k)(s.atoms[i]) != 0 {
      assert AtRest(s, i);
    }
  }

  // ---- Main results ----

  /**
   * Every completed phase of the barrier is two hydrogens and one oxygen, calls to `bond` come in threes of
   * the same phase with two hydrogens and one oxygen each, and there are as many molecules as such threes.
   */
  lemma MoleculesDoNotMix(run: seq<State>)
    requires IsRun(run)
    ensures var s := run[|run| - 1];
            && |s.crews| == s.phase && (forall p :: 0 <= p < s.phase ==> s.crews[p] == Crew(2, 1))
            && s.molecules == |s.bonds| / 3 && s.phase / 2 <= s.molecules <= (s.phase + 1) / 2
            && forall m :: 0 <= m < s.molecules ==> IsWater(s.bonds, m)
  {
    RunInv(run);
    var s := run[|run| - 1];
    if s.phase % 2 == 1 {
      assert KindInv(s, Hydrogen) && KindInv(s, Oxygen);
      SameTotal(s.atoms, Bonded(Hydrogen), Holding(Hydrogen));
      SameTotal(s.atoms, Bonded(Oxygen), Holding(Oxygen));
    }
  }

  lemma NoneWaits(s: State)
    requires Inv(s) && Stuck(s)
    requires forall k: Kind :: Total(s.atoms, IsOutside(k)) == 0 && Arrived(s, k) == 0
    ensures AllDone(s)
  {
    StuckAtoms(s);
    forall i | 0 <= i < |s.atoms| ensures s.atoms[i].pc.Finished? {
      var k := s.atoms[i].kind;
      assert KindInv(s, k) && RestPc(s.atoms[i], false);
      TotalZero(s.atoms, IsOutside(k));
      TotalZero(s.atoms, Entering(k));
    }
  }

  /**
   * However many atoms arrive, a run that cannot go on has built as many molecules as the atoms allow,
   * and every thread has finished exactly when there are twice as many hydrogens as oxygens. No run takes
   * more than seven steps per atom.
   */
  lemma AllWaterIsMade(run: seq<State>)
    requires IsRun(run)
    ensures |run| - 1 <= 7 * |run[0].atoms|
    ensures var h, o := Total(run[0].atoms, OfKind(Hydrogen)), Total(run[0].atoms, OfKind(Oxygen));
            Stuck(run[|run| - 1]) ==>
              && run[|run| - 1].molecules == (if h / 2 < o then h / 2 else o)
              && (AllDone(run[|run| - 1]) <==> h == 2 * o)
  {
    hide Total, KindInv, PcInv, BondsInv, BarrierInv, Step;
    RunInv(run);
    StepsToGo(run);
    var s := run[|run| - 1];
    if Stuck(s) {
      StuckAtoms(s);
      StuckKind(s, Hydrogen);
      StuckKind(s, Oxygen);
      var h, o := Total(run[0].atoms, OfKind(Hydrogen)), Total(run[0].atoms, OfKind(Oxygen));
      if h == 2 * o {
        forall k: Kind ensures Total(s.atoms, IsOutside(k)) == 0 && Arrived(s, k) == 0 {
          assert k == Hydrogen || k == Oxygen;
        }
        NoneWaits(s);
      }
    }
  }
}
