/** Infinite behaviours, fairness, and what the steps that remove no work can change. */
module MatrixFairness {
  import opened MatrixModel
  import opened MatrixInvariant
  import opened MatrixBasics
  import opened MatrixRecord
  import opened MatrixMeasure
  import opened MatrixBound
  import opened MatrixTheorems
  import opened MatrixProgress

  /** The states of an infinite execution, and the step from each to the next; None is a pause. */
  datatype Behaviour = Behaviour(at: nat -> State, step: nat -> Option<Step>)

  ghost predicate StepAt(c: Config, b: Behaviour, i: nat) {
    match b.step(i)
    case None => b.at(i + 1) == b.at(i)
    case Some(step) => NextStep(c, b.at(i), b.at(i + 1), step)
  }

  ghost predicate IsBehaviour(c: Config, b: Behaviour) {
    Init(c, b.at(0)) && forall i: nat :: StepAt(c, b, i)
  }

  ghost predicate Enabled(c: Config, st: State, th: Thread) {
    exists st', step :: NextStep(c, st, st', step) && ThreadOf(step) == th
  }

  /** The thread can take a step, and its scheduler has not stopped. */
  ghost predicate Runnable(c: Config, st: State, th: Thread) { th.s !in st.stopped && Enabled(c, st, th) }

  ghost predicate EnabledAt(c: Config, b: Behaviour, i: nat, th: Thread) { Runnable(c, b.at(i), th) }

  ghost predicate Takes(b: Behaviour, i: nat, th: Thread) { b.step(i).Some? && ThreadOf(b.step(i).value) == th }

  ghost predicate LaterEnabled(c: Config, b: Behaviour, i: nat, th: Thread) {
    exists j: nat :: i <= j && EnabledAt(c, b, j, th)
  }

  ghost predicate LaterTakes(b: Behaviour, i: nat, th: Thread) { exists j: nat :: i <= j && Takes(b, j, th) }

  /** A thread that again and again can take a step while its scheduler runs takes steps again and again. */
  ghost predicate FairTo(c: Config, b: Behaviour, th: Thread) {
    (forall i: nat :: LaterEnabled(c, b, i, th)) ==> forall i: nat :: LaterTakes(b, i, th)
  }

  /** Strong fairness to every thread of a running scheduler, but nobody has to start a steal or a migration. */
  ghost predicate Fair(c: Config, b: Behaviour) { forall th: Thread :: !th.BalanceThread? ==> FairTo(c, b, th) }

  lemma {:induction false} InvAt(c: Config, b: Behaviour, i: nat)
    requires WellFormed(c) && IsBehaviour(c, b)
    ensures Inv(c, b.at(i))
  {
    hide WellFormed, Init, Inv, NextStep;
    if i == 0 {
      InitInv(c, b.at(0));
    } else {
      InvAt(c, b, i - 1);
      assert StepAt(c, b, i - 1);
      if b.step(i - 1).Some? { StepInv(c, b.at(i - 1), b.at(i), b.step(i - 1).value); }
    }
  }

  // ---------- Quantities that cannot fall for ever ----------

  /** f is not negative, does not grow, and falls when the thread takes a step. */
  ghost predicate Falls(b: Behaviour, th: Thread, f: nat -> int, j: nat) {
    f(j) >= 0 && f(j + 1) <= f(j) && (Takes(b, j, th) ==> f(j + 1) < f(j))
  }

  ghost predicate Descends(f: nat -> int, j: nat) { f(j) >= 0 && f(j + 1) <= f(j) }

  lemma {:induction false} Descended(f: nat -> int, m: nat, j: nat)
    requires m <= j && forall i: nat :: m <= i ==> Descends(f, i)
    ensures 0 <= f(j) <= f(m)
    decreases j
  {
    assert Descends(f, j);
    if m < j {
      Descended(f, m, j - 1);
      assert Descends(f, j - 1);
    }
  }

  lemma {:induction false} Settle(f: nat -> int, m: nat) returns (t: nat)
    requires forall i: nat :: m <= i ==> Descends(f, i)
    ensures m <= t && forall j: nat :: t <= j ==> f(j) == f(t)
    decreases f(m)
  {
    Descended(f, m, m);
    if j: nat :| m <= j && f(j) < f(m) {
      Descended(f, j, j);
      t := Settle(f, j);
    } else {
      t := m;
      forall j: nat | m <= j
        ensures f(j) == f(m)
      {
        Descended(f, m, j);
      }
    }
  }

  /** A thread whose steps exhaust a quantity is at last disabled for good. */
  lemma Exhausts(c: Config, b: Behaviour, th: Thread, f: nat -> int, m: nat) returns (i: nat)
    requires Fair(c, b) && !th.BalanceThread? && forall j: nat :: m <= j ==> Falls(b, th, f, j)
    ensures m <= i && forall j: nat :: i <= j ==> !EnabledAt(c, b, j, th)
  {
    hide EnabledAt, Takes;
    forall j: nat | m <= j
      ensures Descends(f, j)
    {
      assert Falls(b, th, f, j);
    }
    var t := Settle(f, m);
    forall j: nat | t <= j
      ensures !Takes(b, j, th)
    {
      assert Falls(b, th, f, j);
      assert f(j) == f(t) == f(j + 1);
    }
    assert !LaterTakes(b, t, th);
    assert FairTo(c, b, th);
    var i0: nat :| !LaterEnabled(c, b, i0, th);
    i := if i0 < m then m else i0;
  }

  // ---------- The end of useful steps ----------

  ghost predicate IdleMove(c: Config, st: State, st': State, o: Option<Step>) {
    match o
    case None => st' == st
    case Some(step) => NextStep(c, st, st', step) && !Useful(st, step)
  }

  ghost predicate IdleAt(c: Config, b: Behaviour, j: nat) { IdleMove(c, b.at(j), b.at(j + 1), b.step(j)) }

  /** From m on no useful step is taken. */
  ghost predicate Ended(c: Config, b: Behaviour, m: nat) {
    WellFormed(c) && IsBehaviour(c, b) && Fair(c, b) && forall j: nat :: m <= j ==> IdleAt(c, b, j)
  }

  ghost predicate NoneStopped(b: Behaviour, j: nat) { b.at(j).stopped == {} }

  /** From m on no useful step is taken, and no scheduler ever stops. */
  ghost predicate Tail(c: Config, b: Behaviour, m: nat) {
    Ended(c, b, m) && forall j: nat :: NoneStopped(b, j)
  }

  lemma TailEnded(c: Config, b: Behaviour, m: nat)
    requires Tail(c, b, m)
    ensures Ended(c, b, m)
  {
  }

  lemma StillEnabled(c: Config, b: Behaviour, m: nat, j: nat, th: Thread)
    requires Tail(c, b, m) && Enabled(c, b.at(j), th)
    ensures EnabledAt(c, b, j, th)
  {
    hide Ended, Enabled;
    assert NoneStopped(b, j);
  }

  lemma MeasureDescends(c: Config, b: Behaviour, j: nat)
    requires WellFormed(c) && IsBehaviour(c, b)
    ensures 0 <= Measure(c, b.at(j + 1)) <= Measure(c, b.at(j))
    ensures b.step(j).Some? && Useful(b.at(j), b.step(j).value) ==> Measure(c, b.at(j + 1)) < Measure(c, b.at(j))
  {
    hide WellFormed, Init, Inv, NextStep, Measure, Useful;
    InvAt(c, b, j);
    InvAt(c, b, j + 1);
    MeasureNonNeg(c, b.at(j + 1));
    assert StepAt(c, b, j);
    if b.step(j).Some? { StepMeasure(c, b.at(j), b.at(j + 1), b.step(j).value); }
  }

  /** Useful steps end. */
  lemma UsefulEnds(c: Config, b: Behaviour) returns (m: nat)
    requires WellFormed(c) && IsBehaviour(c, b) && Fair(c, b)
    ensures Ended(c, b, m)
  {
    hide WellFormed, Init, NextStep, Measure, Useful, Fair;
    var f := (j: nat) => Measure(c, b.at(j));
    forall j: nat | 0 <= j
      ensures Descends(f, j)
    {
      MeasureDescends(c, b, j);
    }
    m := Settle(f, 0);
    forall j: nat | m <= j
      ensures IdleAt(c, b, j)
    {
      assert f(j) == f(m) == f(j + 1);
      MeasureDescends(c, b, j);
      assert StepAt(c, b, j);
    }
  }

  lemma TailInv(c: Config, b: Behaviour, m: nat, j: nat)
    requires Tail(c, b, m)
    ensures Inv(c, b.at(j))
  {
    hide Inv, Fair, WellFormed;
    InvAt(c, b, j);
  }

  lemma TailLater(c: Config, b: Behaviour, m: nat, j: nat)
    requires Tail(c, b, m) && m <= j
    ensures Tail(c, b, j) && IdleAt(c, b, j)
  {
    hide WellFormed, IsBehaviour, Fair, IdleAt;
  }

  // ---------- What stays as it is ----------

  ghost predicate Movable(p: Place) { p.Wait? || p.Check? || p.Ws? || p.Steal? }

  ghost predicate SameRecv(a: RecvPc, b: RecvPc) { a == b || (a.RecvSeen? && b.RecvSeen?) }

  ghost predicate SameCct(a: CctPc, b: CctPc) { a == b || (a.CctRead? && b.CctRead? && a.kids == b.kids && a.i == b.i) }

  ghost predicate FrozenFields(a: State, b: State) {
    && b.zht == a.zht && b.notified == a.notified && b.core == a.core && b.fin == a.fin && b.counted == a.counted
    && b.ranAt == a.ranAt && b.runs == a.runs && b.recvCtr == a.recvCtr && b.started == a.started
    && a.stopped <= b.stopped
  }

  ghost predicate Frozen(a: State, b: State) {
    && FrozenFields(a, b)
    && (forall p :: !Movable(p) ==> At(b.q, p) == At(a.q, p))
    && (forall s: nat :: SameRecv(RecvAt(a.recv, s), RecvAt(b.recv, s)))
    && (forall s: nat :: SameCct(CctAt(a.cct, s), CctAt(b.cct, s)))
  }

  lemma FrozenCheck(c: Config, st: State, st': State, s: Sched, a: CheckAct)
    requires CheckNext(c, st, st', s, a) && CheckWeight(0, st, s, a) <= 0
    ensures Frozen(st, st')
  {
    hide Decide;
  }

  lemma FrozenBalance(c: Config, st: State, st': State, s: Sched, a: BalanceAct)
    requires BalanceNext(c, st, st', s, a) && (a.StealSend? || a.StealRecv?)
    ensures Frozen(st, st')
  {
    hide PoppedTops;
  }

  lemma RecordFields(c: Config, st: State, st': State, s: Sched, a: RecordAct)
    requires RecordNext(c, st, st', s, a)
    ensures st' == st.(stopped := st'.stopped, doneCtr := st'.doneCtr, rec := st'.rec, prev := st'.prev)
    ensures st.stopped <= st'.stopped
  {
  }

  lemma FrozenRecord(c: Config, st: State, st': State, s: Sched, a: RecordAct)
    requires RecordNext(c, st, st', s, a)
    ensures Frozen(st, st')
  {
    hide RecordNext;
    RecordFields(c, st, st', s, a);
  }

  lemma FrozenRecv(c: Config, st: State, st': State, s: Sched)
    requires DoRecvCas(c, st, st', s) && !RecvSwaps(st, s)
    ensures Frozen(st, st')
  {
  }

  lemma FrozenNotify(c: Config, st: State, st': State, s: Sched)
    requires DoNotifyCas(c, st, st', s) && !NotifySwaps(st, s)
    ensures Frozen(st, st')
  {
  }

  lemma FrozenStep(c: Config, st: State, st': State, o: Option<Step>)
    requires IdleMove(c, st, st', o)
    ensures Frozen(st, st')
  {
    hide CheckNext, BalanceNext, ExecNext, RecordNext, CheckWeight, RecvSwaps, NotifySwaps, Frozen, DoRecvPkg,
         DoRecvLookup, DoRecvCas,
         DoStart, DoNotifyPop, DoNotifyLookup, DoNotifyRead, DoNotifyCas, DoNotifyEnd;
    match o
    case None => assert Frozen(st, st') by { FrozenSelf(st); }
    case Some(ClientStep(s, a)) => FrozenRecv(c, st, st', s);
    case Some(CheckStep(s, a)) => FrozenCheck(c, st, st', s, a);
    case Some(BalanceStep(s, a)) => FrozenBalance(c, st, st', s, a);
    case Some(NotifyStep(s, a)) => FrozenNotify(c, st, st', s);
    case Some(RecordStep(s, a)) => FrozenRecord(c, st, st', s, a);
  }

  lemma FrozenSelf(st: State)
    ensures Frozen(st, st)
  {
  }

  lemma FrozenTrans(a: State, b: State, d: State)
    requires Frozen(a, b) && Frozen(b, d)
    ensures Frozen(a, d)
  {
  }

  lemma {:induction false} FrozenFrom(c: Config, b: Behaviour, m: nat, j: nat)
    requires Tail(c, b, m) && m <= j
    ensures Frozen(b.at(m), b.at(j))
    decreases j
  {
    hide Frozen, IdleMove, WellFormed, IsBehaviour, Fair;
    if j == m {
      FrozenSelf(b.at(m));
    } else {
      FrozenFrom(c, b, m, j - 1);
      assert IdleAt(c, b, j - 1);
      FrozenStep(c, b.at(j - 1), b.at(j), b.step(j - 1));
      FrozenTrans(b.at(m), b.at(j - 1), b.at(j));
    }
  }

  // ---------- Threads that take useful steps only ----------

  ghost predicate UsefulThread(th: Thread) { th.MainThread? || th.MonitorThread? || th.CoreThread? }

  lemma NeverTakes(c: Config, b: Behaviour, m: nat, th: Thread, j: nat)
    requires Ended(c, b, m) && m <= j && UsefulThread(th)
    ensures !Takes(b, j, th)
  {
    hide WellFormed, IsBehaviour, Fair, NextStep;
    assert IdleAt(c, b, j);
  }

  /** Such a thread is at last disabled for good. */
  lemma Disabled(c: Config, b: Behaviour, m: nat, th: Thread) returns (i: nat)
    requires Ended(c, b, m) && UsefulThread(th)
    ensures m <= i && forall j: nat :: i <= j ==> !EnabledAt(c, b, j, th)
  {
    hide WellFormed, IsBehaviour, Takes, EnabledAt;
    var f := (j: nat) => 0;
    forall j: nat | m <= j
      ensures Falls(b, th, f, j)
    {
      NeverTakes(c, b, m, th, j);
    }
    i := Exhausts(c, b, th, f, m);
  }

  lemma CanEnabled(c: Config, b: Behaviour, m: nat, j: nat, th: Thread)
    requires Tail(c, b, m) && CanUse(c, b.at(j), th)
    ensures EnabledAt(c, b, j, th)
  {
    hide NextStep, Useful, Ended;
    assert NoneStopped(b, j);
    var st', step :| NextStep(c, b.at(j), st', step) && Useful(b.at(j), step) && ThreadOf(step) == th;
  }
}
