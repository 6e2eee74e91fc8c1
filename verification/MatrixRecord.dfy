/** Reporting finished tasks keeps the invariant; every step does. */
module MatrixRecord {
  import opened MatrixModel
  import opened MatrixInvariant
  import opened MatrixBasics
  import opened MatrixDispatch
  import opened MatrixRun
  import opened MatrixNotify

  // ---------- How much can have been counted ----------

  /** The sets of tasks counted by different schedulers are disjoint. */
  lemma UnionDisjoint(c: Config, counted: map<Sched, set<Task>>, ranAt: Sites, k: nat)
    requires CountedOk(c, counted, ranAt)
    ensures UnionTo(counted, k) !! SetAt(counted, k)
  {
    var u := UnionTo(counted, k);
    forall t: nat | t in u
      ensures t !in SetAt(counted, k)
    {
      UnionMember(counted, k, t);
      var s: nat :| s < k && t in SetAt(counted, s);
      assert RanThere(c, SetAt(counted, s), ranAt, s);
      assert RanThere(c, SetAt(counted, k), ranAt, k);
    }
  }

  lemma SumSnoc(fin: map<Sched, int>, k: nat)
    ensures Sum(seq(k + 1, s requires 0 <= s => NumAt(fin, s)))
              == Sum(seq(k, s requires 0 <= s => NumAt(fin, s))) + NumAt(fin, k)
  {
    var a := seq(k + 1, s requires 0 <= s => NumAt(fin, s));
    assert a[..k] == seq(k, s requires 0 <= s => NumAt(fin, s));
  }

  lemma {:induction false} UnionSize(c: Config, counted: map<Sched, set<Task>>, ranAt: Sites, fin: map<Sched, int>,
                                     k: nat)
    requires CountedOk(c, counted, ranAt) && forall s: nat :: NumAt(fin, s) == |SetAt(counted, s)|
    ensures |UnionTo(counted, k)| == Sum(seq(k, s requires 0 <= s => NumAt(fin, s)))
  {
    hide CountedOk;
    if k > 0 {
      UnionSize(c, counted, ranAt, fin, k - 1);
      SumSnoc(fin, k - 1);
      UnionDisjoint(c, counted, ranAt, k - 1);
    }
  }

  lemma UnionBelow(c: Config, counted: map<Sched, set<Task>>, ranAt: Sites)
    requires CountedOk(c, counted, ranAt)
    ensures UnionTo(counted, c.numSched) <= Below(c.n)
  {
    BelowCard(c.n);
    forall t: nat | t in UnionTo(counted, c.numSched)
      ensures t in Below(c.n)
    {
      UnionMember(counted, c.numSched, t);
      var s: nat :| s < c.numSched && t in SetAt(counted, s);
      assert RanThere(c, SetAt(counted, s), ranAt, s);
    }
  }

  /** No more is reported than finished, and no more finished than there are tasks. */
  lemma DoneBound(c: Config, rec: map<Sched, RecPc>, fin: map<Sched, int>, prev: map<Sched, int>,
                  counted: map<Sched, set<Task>>,
                  doneCtr: int, stopped: set<Sched>, ranAt: Sites)
    requires Accounted(c, rec, fin, prev, counted, doneCtr, stopped) && CountedOk(c, counted, ranAt)
    ensures doneCtr <= Sum(FinParts(c, fin)) <= c.n
    ensures doneCtr == c.n ==> forall s: nat :: s < c.numSched ==> DonePart(rec, fin, prev, s) == NumAt(fin, s)
    ensures Sum(FinParts(c, fin)) == c.n ==> UnionTo(counted, c.numSched) == Below(c.n)
  {
    SumMono(DoneParts(c, rec, fin, prev), FinParts(c, fin));
    UnionSize(c, counted, ranAt, fin, c.numSched);
    UnionBelow(c, counted, ranAt);
    BelowCard(c.n);
    SubsetCard(UnionTo(counted, c.numSched), Below(c.n));
    if Sum(FinParts(c, fin)) == c.n { SameCard(UnionTo(counted, c.numSched), Below(c.n)); }
    if doneCtr == c.n {
      forall s: nat | s < c.numSched
        ensures DonePart(rec, fin, prev, s) == NumAt(fin, s)
      {
        assert DoneParts(c, rec, fin, prev)[s] == FinParts(c, fin)[s];
      }
    }
  }

  // ---------- recording_stat ----------

  lemma AccountedLookup(c: Config, rec: map<Sched, RecPc>, fin: map<Sched, int>, prev: map<Sched, int>,
                        counted: map<Sched, set<Task>>,
                        doneCtr: int, stopped: set<Sched>, s: Sched, pc: RecPc)
    requires Accounted(c, rec, fin, prev, counted, doneCtr, stopped) && s !in stopped
    requires !RecAt(rec, s).RecSwapped? && !pc.RecSwapped?
    ensures Accounted(c, rec[s := pc], fin, prev, counted, doneCtr, stopped)
  {
    var rec' := rec[s := pc];
    assert DoneParts(c, rec', fin, prev) == DoneParts(c, rec, fin, prev);
    forall s1: nat | s1 in stopped
      ensures s1 < c.numSched && RecAt(rec', s1).RecIdle?
    {
      assert RecAt(rec, s1).RecIdle?;
    }
  }

  lemma AccountedStop(c: Config, rec: map<Sched, RecPc>, fin: map<Sched, int>, prev: map<Sched, int>,
                      counted: map<Sched, set<Task>>,
                      doneCtr: int, stopped: set<Sched>, s: Sched)
    requires Accounted(c, rec, fin, prev, counted, doneCtr, stopped) && doneCtr == c.n && s < c.numSched
             && RecAt(rec, s).RecIdle?
    ensures Accounted(c, rec, fin, prev, counted, doneCtr, stopped + {s})
  {
  }

  /** The swap adds what s had not reported; the early break drops nothing. */
  lemma AccountedSwap(c: Config, rec: map<Sched, RecPc>, fin: map<Sched, int>, prev: map<Sched, int>,
                      counted: map<Sched, set<Task>>,
                      doneCtr: int, stopped: set<Sched>, ranAt: Sites, s: Sched)
    requires Accounted(c, rec, fin, prev, counted, doneCtr, stopped) && CountedOk(c, counted, ranAt) && s < c.numSched
    requires RecAt(rec, s).RecLocked?
    ensures Accounted(c, rec[s := RecSwapped], fin, prev, counted, doneCtr + (NumAt(fin, s) - NumAt(prev, s)), stopped)
    ensures doneCtr == c.n ==> NumAt(fin, s) == NumAt(prev, s)
  {
    hide CountedOk, FinOk, StopOk;
    var rec' := rec[s := RecSwapped];
    SumSame(DoneParts(c, rec, fin, prev), DoneParts(c, rec', fin, prev), s);
    DoneBound(c, rec, fin, prev, counted, doneCtr, stopped, ranAt);
    StopSwap(c, rec, doneCtr, doneCtr + (NumAt(fin, s) - NumAt(prev, s)), stopped, s, RecSwapped);
  }

  lemma StopSwap(c: Config, rec: map<Sched, RecPc>, doneCtr: int, doneCtr': int, stopped: set<Sched>, s: Sched,
                 pc: RecPc)
    requires StopOk(c, rec, doneCtr, stopped) && !RecAt(rec, s).RecIdle? && (doneCtr == c.n ==> doneCtr' == c.n)
    ensures StopOk(c, rec[s := pc], doneCtr', stopped)
  {
    var rec' := rec[s := pc];
    forall s1: nat | s1 in stopped
      ensures s1 < c.numSched && RecAt(rec', s1).RecIdle?
    {
      assert RecAt(rec, s1).RecIdle?;
    }
  }

  lemma AccountedUnlock(c: Config, rec: map<Sched, RecPc>, fin: map<Sched, int>, prev: map<Sched, int>,
                        counted: map<Sched, set<Task>>,
                        doneCtr: int, stopped: set<Sched>, s: Sched)
    requires Accounted(c, rec, fin, prev, counted, doneCtr, stopped) && RecAt(rec, s).RecSwapped?
    ensures Accounted(c, rec[s := RecIdle], fin, prev[s := NumAt(fin, s)], counted, doneCtr, stopped)
  {
    var rec' := rec[s := RecIdle];
    var prev' := prev[s := NumAt(fin, s)];
    assert DoneParts(c, rec', fin, prev') == DoneParts(c, rec, fin, prev);
    forall s1: nat
      ensures NumAt(fin, s1) == |SetAt(counted, s1)| && NumAt(prev', s1) <= NumAt(fin, s1)
    {
      assert NumAt(fin, s1) == |SetAt(counted, s1)| && NumAt(prev, s1) <= NumAt(fin, s1);
    }
  }

  lemma RecDomainSwap(c: Config, rec: map<Sched, RecPc>, s: Sched, pc: RecPc)
    requires RecDomain(c, rec) && s < c.numSched
    ensures RecDomain(c, rec[s := pc])
  {
    var rec' := rec[s := pc];
    forall s1: nat | !RecAt(rec', s1).RecIdle?
      ensures s1 < c.numSched
    {
      assert s1 != s ==> !RecAt(rec, s1).RecIdle?;
    }
  }

  lemma NotStopped(c: Config, rec: map<Sched, RecPc>, fin: map<Sched, int>, prev: map<Sched, int>,
                   counted: map<Sched, set<Task>>,
                   doneCtr: int, stopped: set<Sched>, s: Sched)
    requires Accounted(c, rec, fin, prev, counted, doneCtr, stopped) && !RecAt(rec, s).RecIdle?
    ensures s !in stopped
  {
  }

  lemma RecordInv(c: Config, st: State, st': State, s: Sched, a: RecordAct)
    requires Inv(c, st) && s < c.numSched && RecordNext(c, st, st', s, a)
    ensures Inv(c, st')
  {
    hide Conserved, Slots, Stages, NotesOk, Records, Notifiers, CompleteOk, Checkers, Stored, Cores, InputsOk, History,
         Received, Accounted, CountStages, CountedOk, CountingOk, CoreDomain, CrtDomain, CctDomain, RecDomain;
    RecDomainSwap(c, st.rec, s, RecAt(st'.rec, s));
    var pc := RecAt(st.rec, s);
    match a
    case RecLookup =>
      if st.doneCtr == c.n {
        AccountedStop(c, st.rec, st.fin, st.prev, st.counted, st.doneCtr, st.stopped, s);
      } else {
        AccountedLookup(c, st.rec, st.fin, st.prev, st.counted, st.doneCtr, st.stopped, s, RecSeen(st.doneCtr));
      }
    case RecLock =>
      NotStopped(c, st.rec, st.fin, st.prev, st.counted, st.doneCtr, st.stopped, s);
      AccountedLookup(c, st.rec, st.fin, st.prev, st.counted, st.doneCtr, st.stopped, s, RecLocked(pc.seen));
    case RecCas =>
      NotStopped(c, st.rec, st.fin, st.prev, st.counted, st.doneCtr, st.stopped, s);
      AccountedSwap(c, st.rec, st.fin, st.prev, st.counted, st.doneCtr, st.stopped, st.ranAt, s);
      AccountedLookup(c, st.rec, st.fin, st.prev, st.counted, st.doneCtr, st.stopped, s, RecLocked(st.doneCtr));
    case RecUnlock =>
      AccountedUnlock(c, st.rec, st.fin, st.prev, st.counted, st.doneCtr, st.stopped, s);
  }

  // ---------- The invariant is inductive ----------

  lemma InitInv(c: Config, st: State)
    requires WellFormed(c) && Init(c, st)
    ensures Inv(c, st)
  {
    InitConserved(c, st);
    InitRest(c, st);
    InitCounters(c, st);
  }

  lemma ItemsIds(ts: seq<Task>)
    ensures Ids(Items(ts)) == ts
  {
  }

  lemma InitCnt(c: Config, st: State, p: Place, t: Task)
    requires Init(c, st)
    ensures Cnt(st.q, p, t) == if p.Client? && p.s < c.numSched then multiset(Batch(c, p.s))[t] else 0
  {
    if p.Client? && p.s < c.numSched {
      ItemsIds(Batch(c, p.s));
    } else {
      assert Ids([]) == [];
    }
  }

  lemma InitConserved(c: Config, st: State)
    requires WellFormed(c) && Init(c, st)
    ensures Conserved(c, st.q)
  {
    forall p, t: nat
      ensures Cnt(st.q, p, t) == if p.Client? && p.s < c.numSched then multiset(Batch(c, p.s))[t] else 0
    {
      InitCnt(c, st, p, t);
    }
    forall t: nat | t < c.n
      ensures Somewhere(st.q, t)
    {
      assert Submitted(c, t);
      var s: nat :| s < c.numSched && t in Batch(c, s);
      assert multiset(Batch(c, s))[t] == 1;
      assert Cnt(st.q, Client(s), t) == 1;
    }
    forall p1, p2, t: nat | Cnt(st.q, p1, t) > 0 && Cnt(st.q, p2, t) > 0
      ensures p1 == p2
    {
      assert t in Batch(c, p1.s) && t in Batch(c, p2.s);
    }
    forall p, t: nat | Cnt(st.q, p, t) > 0
      ensures t < c.n && ValidPlace(c, p)
    {
      assert t in Batch(c, p.s);
    }
  }

  lemma InitRest(c: Config, st: State)
    requires Init(c, st)
    ensures Slots(st.q, st.crt, st.core, st.cct) && Stages(c, st.q, st.crt, st.core, st.cct, st.ranAt, st.notified)
    ensures NotesOk(c, st.notified, st.ranAt) && Records(c, st.zht, st.notified, st.ranAt)
    ensures Notifiers(c, st.q, st.cct, st.notified, st.ranAt) && CompleteOk(c, st.q)
            && Checkers(c, st.q, st.crt, st.notified, st.ranAt)
    ensures Stored(c, st.data, st.ranAt, st.result) && Cores(c, st.q, st.core, st.notified, st.ranAt, st.result)
    ensures InputsOk(c, st.input, st.notified, st.ranAt, st.result) && History(c, st.runs, st.ranAt)
  {
    forall p, t: nat | Cnt(st.q, p, t) > 0
      ensures Placed(c, st.crt, st.core, st.cct, st.ranAt, st.notified, p, t)
    {
      InitCnt(c, st, p, t);
    }
  }

  lemma InitCounters(c: Config, st: State)
    requires Init(c, st)
    ensures Received(c, st.q, st.recv, st.recvCtr, st.started)
    ensures Accounted(c, st.rec, st.fin, st.prev, st.counted, st.doneCtr, st.stopped)
    ensures CountStages(st.q, st.core, st.counted) && CountedOk(c, st.counted, st.ranAt)
            && CountingOk(st.core, st.counted, st.ranAt)
    ensures CoreDomain(c, st.core) && CrtDomain(c, st.crt) && CctDomain(c, st.cct) && RecDomain(c, st.rec)
  {
    SumZero(RecvParts(c, st.recv));
    SumZero(DoneParts(c, st.rec, st.fin, st.prev));
    forall p, t: nat | Cnt(st.q, p, t) > 0
      ensures CountStage(st.core, st.counted, p, t)
    {
      InitCnt(c, st, p, t);
    }
  }

  /** Every step of every thread keeps the invariant. */
  lemma StepInv(c: Config, st: State, st': State, step: Step)
    requires WellFormed(c) && Inv(c, st) && NextStep(c, st, st', step)
    ensures Inv(c, st')
  {
    hide Inv, WellFormed, ClientNext, CheckNext, BalanceNext, ExecNext, NotifyNext, RecordNext;
    match step
    case ClientStep(s, a) => ClientInv(c, st, st', s, a);
    case CheckStep(s, a) => CheckInv(c, st, st', s, a);
    case BalanceStep(s, a) => BalanceInv(c, st, st', s, a);
    case ExecStep(s, k, a) => ExecInv(c, st, st', s, k, a);
    case NotifyStep(s, a) => NotifyInv(c, st, st', s, a);
    case RecordStep(s, a) => RecordInv(c, st, st', s, a);
  }

  lemma {:induction false} RunInv(c: Config, states: seq<State>, steps: seq<Step>, i: nat)
    requires WellFormed(c) && IsRun(c, states, steps) && Inv(c, states[0]) && i <= |steps|
    ensures Inv(c, states[i])
  {
    hide Inv, WellFormed, NextStep;
    if i > 0 {
      RunInv(c, states, steps, i - 1);
      StepInv(c, states[i - 1], states[i], steps[i - 1]);
    }
  }

  lemma ReachableInv(c: Config, st: State)
    requires WellFormed(c) && Reachable(c, st)
    ensures Inv(c, st)
  {
    hide Inv, WellFormed, NextStep, Init;
    var st0 :| Init(c, st0) && CanReach(c, st0, st);
    var states, steps :| IsRun(c, states, steps) && states[0] == st0 && states[|steps|] == st;
    InitInv(c, st0);
    RunInv(c, states, steps, |steps|);
  }
}
