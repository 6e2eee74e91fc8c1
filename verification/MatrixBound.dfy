/** Apart from rotations of wait queues, the number of receive, dispatch, execute and notify steps of a run is linear
    in tasks and edges. */
module MatrixBound {
  import opened MatrixModel
  import opened MatrixInvariant
  import opened MatrixBasics
  import opened MatrixExec
  import opened MatrixNotify
  import opened MatrixRecord
  import opened MatrixMeasure

  // ---------- Handshake: in-degrees and child lists count the same edges ----------

  ghost function InDegs(c: Config): seq<int> { seq(c.n, t requires 0 <= t => InDeg(c, t)) }
  ghost function KidCounts(c: Config): seq<int> { seq(c.n, t requires 0 <= t => |Kids(c, t)|) }
  ghost function EdgeCount(c: Config): int { Sum(KidCounts(c)) }

  ghost function EdgesBelow(c: Config, k: nat): set<Edge> {
    set p: nat, i: nat | 0 <= p < |c.children| && 0 <= i < |c.children[p]| && c.children[p][i] < k :: Edge(p, i)
  }

  ghost function EdgesOf(c: Config, p: nat, m: nat): set<Edge> {
    set i: nat | 0 <= i < m :: Edge(p, i)
  }

  ghost function EdgesFrom(c: Config, k: nat): set<Edge>
    requires k <= |c.children|
  {
    set p: nat, i: nat | 0 <= p < k && 0 <= i < |c.children[p]| :: Edge(p, i)
  }

  lemma SumPrefix(a: seq<int>, k: nat)
    requires k < |a|
    ensures Sum(a[..k + 1]) == Sum(a[..k]) + a[k]
  {
    assert a[..k + 1][..k] == a[..k];
  }

  lemma {:induction false} CountBelow(c: Config, k: nat)
    requires k <= c.n
    ensures |EdgesBelow(c, k)| == Sum(InDegs(c)[..k])
  {
    if k == 0 {
      assert EdgesBelow(c, 0) == {};
    } else {
      CountBelow(c, k - 1);
      SumPrefix(InDegs(c), k - 1);
      assert EdgesBelow(c, k) == EdgesBelow(c, k - 1) + EdgesInto(c, k - 1);
      assert EdgesBelow(c, k - 1) !! EdgesInto(c, k - 1);
    }
  }

  lemma {:induction false} CountOf(c: Config, p: nat, m: nat)
    ensures |EdgesOf(c, p, m)| == m
  {
    if m == 0 {
      assert EdgesOf(c, p, m) == {};
    } else {
      CountOf(c, p, m - 1);
      assert EdgesOf(c, p, m) == EdgesOf(c, p, m - 1) + {Edge(p, m - 1)};
    }
  }

  lemma {:induction false} CountFrom(c: Config, k: nat)
    requires |c.children| == c.n && k <= c.n
    ensures |EdgesFrom(c, k)| == Sum(KidCounts(c)[..k])
  {
    if k == 0 {
      assert EdgesFrom(c, 0) == {};
    } else {
      CountFrom(c, k - 1);
      SumPrefix(KidCounts(c), k - 1);
      CountOf(c, k - 1, |Kids(c, k - 1)|);
      assert EdgesFrom(c, k) == EdgesFrom(c, k - 1) + EdgesOf(c, k - 1, |Kids(c, k - 1)|);
      assert EdgesFrom(c, k - 1) !! EdgesOf(c, k - 1, |Kids(c, k - 1)|);
    }
  }

  /** In-degrees sum to the number of edges. */
  lemma Handshake(c: Config)
    requires |c.children| == c.n && forall p: nat, i: nat :: p < c.n && i < |Kids(c, p)| ==> Kids(c, p)[i] < c.n
    ensures Sum(InDegs(c)) == EdgeCount(c)
  {
    CountBelow(c, c.n);
    CountFrom(c, c.n);
    assert InDegs(c)[..c.n] == InDegs(c) && KidCounts(c)[..c.n] == KidCounts(c);
    assert EdgesBelow(c, c.n) == EdgesFrom(c, c.n) by {
      forall e | e in EdgesFrom(c, c.n)
        ensures e in EdgesBelow(c, c.n)
      {
        assert Kids(c, e.p)[e.i] < c.n;
      }
    }
  }

  // ---------- The measure is never negative ----------

  lemma RankNonNeg(c: Config, w: nat, st: State, t: Task)
    requires Inv(c, st) && t < c.n && w <= 1
    ensures Rank(c, w, st, t) >= 0
  {
    hide Inv, Conserved, Slots, InDeg, NotifiedUpTo, CoreOk, Snapshot, CoreRank, CctRank;
    ConservedFacts(c, st);
    WhereSound(c, st.q, t);
    var p := Where(st.q, t);
    var i := CntIndex(st.q, p, t);
    if p.Core? { CoreRankNonNeg(c, st, p.s, p.k, i, t); }
    if p.Notify? { CctRankNonNeg(c, st, p.s, i, t); }
  }

  lemma CoreRankNonNeg(c: Config, st: State, s: Sched, k: nat, i: nat, t: Task)
    requires Inv(c, st) && i < |At(st.q, Core(s, k))| && At(st.q, Core(s, k))[i].id == t
    ensures CoreRank(CoreAt(st.core, Core(s, k)), InDeg(c, t)) >= 0
  {
    hide Inv, InDeg, InputOk;
    SlotFull(c, st, s, k);
    var t1 := ReadyCore(c, st, s, k);
  }

  lemma SlotFull(c: Config, st: State, s: Sched, k: nat)
    requires Inv(c, st)
    ensures |At(st.q, Core(s, k))| > 0 ==> CoreBusy(CoreAt(st.core, Core(s, k)))
    ensures |At(st.q, Notify(s))| > 0 ==> !CctAt(st.cct, s).CctIdle?
    ensures |At(st.q, Core(s, k))| <= 1 && |At(st.q, Notify(s))| <= 1
  {
    hide Conserved, Stages, NotesOk, Records, Notifiers, CompleteOk, Checkers, Stored, Cores, InputsOk, History,
         Received, Accounted, CountStages, CountedOk, CountingOk, CoreDomain, CrtDomain, CctDomain, RecDomain;
  }

  lemma CctRankNonNeg(c: Config, st: State, s: Sched, i: nat, t: Task)
    requires Inv(c, st) && i < |At(st.q, Notify(s))| && At(st.q, Notify(s))[i].id == t
    ensures CctRank(CctAt(st.cct, s), |Kids(c, t)|) >= 0
  {
    hide Inv, Snapshot, NotifiedUpTo;
    SlotFull(c, st, s, 0);
    var t1 := AtNotify(c, st, s);
  }

  lemma PotentialNonNeg(c: Config, w: nat, st: State)
    requires Inv(c, st) && w <= 1
    ensures Potential(c, w, st) >= 0
  {
    hide Inv, Rank;
    var a := Ranks(c, w, st);
    forall t | 0 <= t < |a|
      ensures a[t] >= 0
    {
      RankNonNeg(c, w, st, t);
    }
    SumNonNeg(a);
    SumNonNeg(SchedRanks(c, st));
  }

  lemma MeasureNonNeg(c: Config, st: State)
    requires Inv(c, st)
    ensures Measure(c, st) >= 0
  {
    PotentialNonNeg(c, 0, st);
  }

  // ---------- The measure at the start ----------

  lemma {:induction false} SumLinear(a: seq<int>, x: seq<int>, y: seq<int>, m: int)
    requires |a| == |x| == |y| && forall i :: 0 <= i < |a| ==> a[i] == 2 * x[i] + 3 * y[i] + m
    ensures Sum(a) == 2 * Sum(x) + 3 * Sum(y) + m * |a|
  {
    if |a| > 0 {
      var k := |a| - 1;
      SumLinear(a[..k], x[..k], y[..k], m);
      assert m * |a| == m * k + m;
    }
  }

  lemma InitRank(c: Config, w: nat, st: State, t: Task)
    requires WellFormed(c) && Init(c, st) && t < c.n
    ensures Rank(c, w, st, t) == 2 * |Kids(c, t)| + 3 * InDeg(c, t) + 17
  {
    hide WellFormed, InDeg;
    InitConserved(c, st);
    WhereSound(c, st.q, t);
    var p := Where(st.q, t);
    var i := CntIndex(st.q, p, t);
    assert p.Client?;
  }

  lemma InitPotential(c: Config, w: nat, st: State)
    requires WellFormed(c) && Init(c, st)
    ensures Potential(c, w, st) == 17 * c.n + 5 * EdgeCount(c) + 3 * c.numSched
  {
    hide Rank, InDeg, Init;
    var a := Ranks(c, w, st);
    forall t | 0 <= t < c.n
      ensures a[t] == 2 * KidCounts(c)[t] + 3 * InDegs(c)[t] + 17
    {
      InitRank(c, w, st, t);
    }
    SumLinear(a, KidCounts(c), InDegs(c), 17);
    Handshake(c);
    InitSched(c, st);
  }

  lemma InitSched(c: Config, st: State)
    requires Init(c, st)
    ensures SchedWork(c, st) == 3 * c.numSched
  {
    var b := SchedRanks(c, st);
    var z := seq(c.numSched, i => 0);
    SumZero(z);
    SumLinear(b, z, z, 3);
  }

  // ---------- Runs ----------

  /** Every step except steals, failed compare_swaps and status reports. */
  ghost predicate Counted(st: State, step: Step) {
    match step
    case ClientStep(s, a) => a.RecvCas? ==> RecvSwaps(st, s)
    case CheckStep(s, a) => true
    case BalanceStep(s, a) => a.MigrateOut? || a.MigrateIn?
    case ExecStep(s, k, a) => true
    case NotifyStep(s, a) => a.NotifyCas? ==> NotifySwaps(st, s)
    case RecordStep(s, a) => false
  }

  /** A task that was found not ready goes back to its wait queue. */
  ghost predicate Returns(step: Step) { step.CheckStep? && step.check.CrtReturn? }

  ghost function CountedSteps(states: seq<State>, steps: seq<Step>): nat
    requires |states| == |steps| + 1
  {
    if steps == [] then 0
    else CountedSteps(states[..|steps|], steps[..|steps| - 1]) + B(Counted(states[|steps| - 1], steps[|steps| - 1]))
  }

  ghost function Rotations(steps: seq<Step>): nat {
    if steps == [] then 0 else Rotations(steps[..|steps| - 1]) + B(Returns(steps[|steps| - 1]))
  }

  lemma WeightIs(st: State, step: Step)
    ensures Weight(1, st, step) == B(Counted(st, step)) - 3 * B(Returns(step))
  {
  }

  lemma {:induction false} CountedBound(c: Config, states: seq<State>, steps: seq<Step>)
    requires WellFormed(c) && IsRun(c, states, steps) && Inv(c, states[0])
    ensures Inv(c, states[|steps|])
    ensures CountedSteps(states, steps) - 3 * Rotations(steps)
         <= Potential(c, 1, states[0]) - Potential(c, 1, states[|steps|])
    decreases |steps|
  {
    hide WellFormed, Inv, Potential, NextStep, Counted, Returns, Weight;
    if steps != [] {
      var n := |steps| - 1;
      assert IsRun(c, states[..|steps|], steps[..n]);
      CountedBound(c, states[..|steps|], steps[..n]);
      StepPotential(c, 1, states[n], states[n + 1], steps[n]);
      WeightIs(states[n], steps[n]);
    }
  }

  /**
    Any run, however long, has at most 17 counted steps a task, 5 an edge and 3 a scheduler, and 3 more
    for each rotation of a wait queue: its pop, its lookup and its return.
  */
  lemma BoundedWork(c: Config, states: seq<State>, steps: seq<Step>)
    requires WellFormed(c) && IsRun(c, states, steps) && Init(c, states[0])
    ensures CountedSteps(states, steps) <= 17 * c.n + 5 * EdgeCount(c) + 3 * c.numSched + 3 * Rotations(steps)
  {
    hide WellFormed, Init, Inv, Potential, NextStep;
    InitInv(c, states[0]);
    CountedBound(c, states, steps);
    InitPotential(c, 1, states[0]);
    PotentialNonNeg(c, 1, states[|steps|]);
  }
}
