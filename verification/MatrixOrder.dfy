/** What happens before a scheduler starts, and the order in which its tasks notify their children. */
module MatrixOrder {
  import opened MatrixModel
  import opened MatrixInvariant
  import opened MatrixBasics
  import opened MatrixRecord
  import opened MatrixTheorems

  // ---------- Before the start ----------

  /** The queues of s that only its own threads fill. */
  ghost predicate OwnPlace(p: Place, s: Sched) { p.s == s && !p.Client? && !p.Wait? && !p.Local? }

  ghost predicate OwnEmpty(q: Queues, s: Sched) { forall p :: OwnPlace(p, s) ==> At(q, p) == [] }

  ghost predicate CoresAsleep(core: map<Place, CorePc>, s: Sched) {
    forall k: nat :: CoreAt(core, Core(s, k)).CoreIdle?
  }

  /** The tasks submitted to s and not yet checked, in order. */
  function Waiting(q: Queues, s: Sched): seq<Task> { Ids(At(q, Wait(s))) + Ids(At(q, Client(s))) }

  /** Scheduler s has only received tasks: it holds what the client sent, in the order sent, and no thread runs. */
  ghost predicate Asleep(c: Config, st: State, s: Sched) {
    && Waiting(st.q, s) == Batch(c, s) && OwnEmpty(st.q, s) && CoresAsleep(st.core, s)
    && CrtAt(st.crt, s).CrtIdle? && CctAt(st.cct, s).CctIdle? && RecAt(st.rec, s).RecIdle?
  }

  ghost predicate LocalsEmpty(q: Queues) { forall s: nat :: At(q, Local(s)) == [] }

  ghost predicate Barrier(c: Config, st: State) {
    && (forall s: nat :: s !in st.started ==> Asleep(c, st, s))
    && (st.started == {} ==> LocalsEmpty(st.q) && st.runs == [])
  }

  /** The step changes nothing of s0 but its local queue. */
  ghost predicate Untouched(st: State, st': State, s0: Sched) {
    && (forall p: Place :: p.s == s0 && !p.Local? ==> At(st'.q, p) == At(st.q, p))
    && (forall k: nat :: CoreAt(st'.core, Core(s0, k)) == CoreAt(st.core, Core(s0, k)))
    && CrtAt(st'.crt, s0) == CrtAt(st.crt, s0) && CctAt(st'.cct, s0) == CctAt(st.cct, s0)
    && RecAt(st'.rec, s0) == RecAt(st.rec, s0)
  }

  lemma StaysAsleep(c: Config, st: State, st': State, s0: Sched)
    requires Asleep(c, st, s0) && Untouched(st, st', s0)
    ensures Asleep(c, st', s0)
  {
    assert At(st'.q, Wait(s0)) == At(st.q, Wait(s0)) && At(st'.q, Client(s0)) == At(st.q, Client(s0));
    forall p | OwnPlace(p, s0)
      ensures At(st'.q, p) == []
    {
      assert At(st.q, p) == [];
    }
  }

  /** A step of a thread that has been started. */
  lemma StartedStep(c: Config, st: State, st': State, s: Sched)
    requires Barrier(c, st) && s in st.started && st'.started == st.started
    requires forall s0: nat :: s0 !in st.started ==> Untouched(st, st', s0)
    ensures Barrier(c, st')
  {
    hide Asleep, Untouched;
    forall s0: nat | s0 !in st'.started
      ensures Asleep(c, st', s0)
    {
      StaysAsleep(c, st, st', s0);
    }
  }

  lemma PkgWaiting(q: Queues, s: Sched, k: nat)
    requires k <= |At(q, Client(s))|
    ensures var b := At(q, Client(s));
            Waiting(Move(q, Client(s), b[k..], Wait(s), At(q, Wait(s)) + b[..k]), s) == Waiting(q, s)
  {
    var b, w := At(q, Client(s)), At(q, Wait(s));
    assert Ids(w + b[..k]) + Ids(b[k..]) == Ids(w) + Ids(b);
  }

  lemma RecvPkgBarrier(c: Config, st: State, st': State, s: Sched, k: nat)
    requires Barrier(c, st) && DoRecvPkg(c, st, st', s, k)
    ensures Barrier(c, st')
  {
    hide Ids;
    PkgWaiting(st.q, s, k);
    forall s0: nat | s0 !in st'.started
      ensures Asleep(c, st', s0)
    {
      assert Asleep(c, st, s0);
      forall p | OwnPlace(p, s0)
        ensures At(st'.q, p) == []
      {
        assert At(st.q, p) == [];
      }
    }
    if st.started == {} {
      forall s0: nat
        ensures At(st'.q, Local(s0)) == []
      {
        assert At(st.q, Local(s0)) == [];
      }
    }
  }

  lemma ClientBarrier(c: Config, st: State, st': State, s: Sched, a: ClientAct)
    requires Barrier(c, st) && ClientNext(c, st, st', s, a)
    ensures Barrier(c, st')
  {
    hide Asleep;
    if a.RecvPkg? {
      RecvPkgBarrier(c, st, st', s, a.k);
    } else {
      forall s0: nat | s0 !in st'.started
        ensures Asleep(c, st', s0)
      {
        StaysAsleep(c, st, st', s0) by { assert Untouched(st, st', s0); }
      }
    }
  }

  lemma CheckUntouched(c: Config, st: State, st': State, s: Sched, a: CheckAct, s0: Sched)
    requires CheckNext(c, st, st', s, a) && s0 != s
    ensures Untouched(st, st', s0) && st'.started == st.started && st'.runs == st.runs
  {
    hide Decide, ZhtAt, DataAt;
  }

  lemma CheckBarrier(c: Config, st: State, st': State, s: Sched, a: CheckAct)
    requires Barrier(c, st) && CheckNext(c, st, st', s, a)
    ensures Barrier(c, st')
  {
    hide CheckNext, Untouched, Barrier;
    CheckAwake(c, st, st', s, a);
    forall s0: nat | s0 !in st.started
      ensures Untouched(st, st', s0)
    {
      CheckUntouched(c, st, st', s, a, s0);
    }
    CheckUntouched(c, st, st', s, a, s + 1);
    StartedStep(c, st, st', s);
  }

  lemma AsleepAt(c: Config, st: State, s: Sched)
    requires Barrier(c, st) && s !in st.started
    ensures CrtAt(st.crt, s).CrtIdle? && CctAt(st.cct, s).CctIdle? && RecAt(st.rec, s).RecIdle?
    ensures forall k: nat :: CoreAt(st.core, Core(s, k)).CoreIdle?
    ensures forall p :: OwnPlace(p, s) ==> At(st.q, p) == []
  {
    assert Asleep(c, st, s);
  }

  lemma CheckAwake(c: Config, st: State, st': State, s: Sched, a: CheckAct)
    requires Barrier(c, st) && CheckNext(c, st, st', s, a)
    ensures s in st.started
  {
    hide Decide, Barrier;
    if s !in st.started { AsleepAt(c, st, s); }
  }

  lemma SourceEmpty(c: Config, st: State, p: Place)
    requires Barrier(c, st) && p.s !in st.started && OwnPlace(p, p.s)
    ensures At(st.q, p) == []
  {
    assert Asleep(c, st, p.s);
  }

  lemma BalanceAwake(c: Config, st: State, st': State, s: Sched, a: BalanceAct)
    requires Barrier(c, st) && BalanceNext(c, st, st', s, a)
    ensures s in st.started
  {
    hide PoppedTops;
    if s !in st.started {
      SourceEmpty(c, st, Steal(s));
      SourceEmpty(c, st, Migr(s));
    }
  }

  lemma NothingPopped(taken: seq<Item>, rest: seq<Item>)
    requires PoppedTops([], taken, rest)
    ensures taken == [] && rest == []
  {
    assert |multiset(taken) + multiset(rest)| == 0;
  }

  /** Nothing can be stolen from a scheduler that has not started. */
  lemma VictimUntouched(c: Config, st: State, st': State, s: Sched, a: BalanceAct, s0: Sched)
    requires Barrier(c, st) && BalanceNext(c, st, st', s, a) && s0 !in st.started && s in st.started
    ensures Untouched(st, st', s0)
  {
    hide PoppedTops, Barrier;
    if a.StealSend? && a.victim == s0 {
      SourceEmpty(c, st, Ws(s0));
      NothingPopped(a.taken, a.rest);
    }
  }

  lemma BalanceBarrier(c: Config, st: State, st': State, s: Sched, a: BalanceAct)
    requires Barrier(c, st) && BalanceNext(c, st, st', s, a)
    ensures Barrier(c, st')
  {
    hide Barrier, PoppedTops, Untouched;
    BalanceAwake(c, st, st', s, a);
    forall s0: nat | s0 !in st.started
      ensures Untouched(st, st', s0)
    {
      VictimUntouched(c, st, st', s, a, s0);
    }
    StartedStep(c, st, st', s);
  }

  lemma ExecAwake(c: Config, st: State, st': State, s: Sched, k: nat, a: ExecAct)
    requires Barrier(c, st) && ExecNext(c, st, st', s, k, a)
    ensures s in st.started
  {
    hide PoppedTops, InsertNew, Find, Barrier;
    if s !in st.started { AsleepAt(c, st, s); }
  }

  lemma ExecQueues(c: Config, st: State, st': State, s: Sched, k: nat, a: ExecAct)
    requires ExecNext(c, st, st', s, k, a)
    ensures forall p: Place :: p.s != s ==> At(st'.q, p) == At(st.q, p)
  {
    hide PoppedTops, InsertNew, Find, NameAt, ParentAt, SizeAt;
  }

  lemma ExecCores(c: Config, st: State, st': State, s: Sched, k: nat, a: ExecAct)
    requires ExecNext(c, st, st', s, k, a)
    ensures forall p: Place :: p.s != s ==> CoreAt(st'.core, p) == CoreAt(st.core, p)
    ensures st'.crt == st.crt && st'.cct == st.cct && st'.rec == st.rec && st'.started == st.started
  {
    hide PoppedTops, InsertNew, Find, NameAt, ParentAt, SizeAt;
  }

  lemma ExecUntouched(c: Config, st: State, st': State, s: Sched, k: nat, a: ExecAct, s0: Sched)
    requires ExecNext(c, st, st', s, k, a) && s0 != s
    ensures Untouched(st, st', s0) && st'.started == st.started
  {
    hide ExecNext;
    ExecQueues(c, st, st', s, k, a);
    ExecCores(c, st, st', s, k, a);
  }

  lemma ExecBarrier(c: Config, st: State, st': State, s: Sched, k: nat, a: ExecAct)
    requires Barrier(c, st) && ExecNext(c, st, st', s, k, a)
    ensures Barrier(c, st')
  {
    hide Barrier, ExecNext, Untouched;
    ExecAwake(c, st, st', s, k, a);
    forall s0: nat | s0 !in st.started
      ensures Untouched(st, st', s0)
    {
      ExecUntouched(c, st, st', s, k, a, s0);
    }
    ExecUntouched(c, st, st', s, k, a, s + 1);
    StartedStep(c, st, st', s);
  }

  lemma NotifyAwake(c: Config, st: State, st': State, s: Sched, a: NotifyAct)
    requires Barrier(c, st) && NotifyNext(c, st, st', s, a)
    ensures s in st.started
  {
    hide NotifyChild, Barrier;
    if s !in st.started { AsleepAt(c, st, s); }
  }

  lemma NotifyUntouched(c: Config, st: State, st': State, s: Sched, a: NotifyAct, s0: Sched)
    requires NotifyNext(c, st, st', s, a) && s0 != s
    ensures Untouched(st, st', s0) && st'.started == st.started && st'.runs == st.runs
  {
    hide NotifyChild, ZhtAt, NotesAt;
  }

  lemma NotifyBarrier(c: Config, st: State, st': State, s: Sched, a: NotifyAct)
    requires Barrier(c, st) && NotifyNext(c, st, st', s, a)
    ensures Barrier(c, st')
  {
    hide Barrier, NotifyNext, Untouched;
    NotifyAwake(c, st, st', s, a);
    forall s0: nat | s0 !in st.started
      ensures Untouched(st, st', s0)
    {
      NotifyUntouched(c, st, st', s, a, s0);
    }
    NotifyUntouched(c, st, st', s, a, s + 1);
    StartedStep(c, st, st', s);
  }

  lemma RecordBarrier(c: Config, st: State, st': State, s: Sched, a: RecordAct)
    requires Barrier(c, st) && RecordNext(c, st, st', s, a)
    ensures Barrier(c, st')
  {
    hide Barrier;
    RecordAwake(c, st, st', s, a);
    StartedStep(c, st, st', s);
  }

  lemma RecordAwake(c: Config, st: State, st': State, s: Sched, a: RecordAct)
    requires Barrier(c, st) && RecordNext(c, st, st', s, a)
    ensures s in st.started
  {
    hide Barrier;
    if s !in st.started { AsleepAt(c, st, s); }
  }

  lemma StepBarrier(c: Config, st: State, st': State, step: Step)
    requires Barrier(c, st) && NextStep(c, st, st', step)
    ensures Barrier(c, st')
  {
    hide Barrier, ClientNext, CheckNext, BalanceNext, ExecNext, NotifyNext, RecordNext;
    match step
    case ClientStep(s, a) => ClientBarrier(c, st, st', s, a);
    case CheckStep(s, a) => CheckBarrier(c, st, st', s, a);
    case BalanceStep(s, a) => BalanceBarrier(c, st, st', s, a);
    case ExecStep(s, k, a) => ExecBarrier(c, st, st', s, k, a);
    case NotifyStep(s, a) => NotifyBarrier(c, st, st', s, a);
    case RecordStep(s, a) => RecordBarrier(c, st, st', s, a);
  }

  lemma InitBarrier(c: Config, st: State)
    requires WellFormed(c) && Init(c, st)
    ensures Barrier(c, st)
  {
    forall s: nat
      ensures Asleep(c, st, s)
    {
      ItemsIds(Batch(c, s));
      assert At(st.q, Client(s)) == Items(Batch(c, s));
    }
  }

  lemma {:induction false} RunBarrier(c: Config, states: seq<State>, steps: seq<Step>, i: nat)
    requires WellFormed(c) && IsRun(c, states, steps) && Init(c, states[0]) && i <= |steps|
    ensures Barrier(c, states[i])
  {
    hide Barrier, WellFormed, NextStep, Init;
    if i == 0 {
      InitBarrier(c, states[0]);
    } else {
      RunBarrier(c, states, steps, i - 1);
      StepBarrier(c, states[i - 1], states[i], steps[i - 1]);
    }
  }

  /**
    A scheduler that has not started holds exactly what the client submitted to it, in that order, except what
    others have pushed to it; while tasks are still missing somewhere, nothing at all has been dispatched or executed.
  */
  lemma NothingBeforeStart(c: Config, st: State, s: Sched)
    requires WellFormed(c) && Reachable(c, st)
    ensures s !in st.started ==> Asleep(c, st, s)
    ensures st.recvCtr < c.n ==> st.runs == [] && forall p: Place :: !p.Client? && !p.Wait? ==> At(st.q, p) == []
  {
    hide WellFormed, NextStep, Init, Asleep, Inv;
    ReachableInv(c, st);
    if st.recvCtr < c.n && st.started != {} { AllReceived(c, st); }
    var st0 :| Init(c, st0) && CanReach(c, st0, st);
    var states, steps :| IsRun(c, states, steps) && states[0] == st0 && states[|steps|] == st;
    RunBarrier(c, states, steps, |steps|);
    if st.recvCtr < c.n {
      forall p: Place | !p.Client? && !p.Wait?
        ensures At(st.q, p) == []
      {
        NotStartedEmpty(c, st, p);
      }
    }
  }

  lemma NotStartedEmpty(c: Config, st: State, p: Place)
    requires Barrier(c, st) && st.started == {} && !p.Client? && !p.Wait?
    ensures At(st.q, p) == []
  {
    assert Asleep(c, st, p.s);
    if !p.Local? { assert OwnPlace(p, p.s); }
  }

  // ---------- The completion queue ----------

  /** The tasks executed at s in the order of their completion: those that have notified, are notifying, will notify. */
  function Completed(q: Queues, s: Sched): seq<Task> {
    Ids(At(q, Finished(s))) + Ids(At(q, Notify(s))) + Ids(At(q, Complete(s)))
  }

  lemma SameCompleted(st: State, st': State, s: Sched)
    requires forall p: Place :: AfterExec(p) ==> At(st'.q, p) == At(st.q, p)
    ensures Completed(st'.q, s) == Completed(st.q, s)
  {
  }

  lemma PopCompleted(c: Config, st: State, st': State, s: Sched, s0: Sched)
    requires Slots(st.q, st.crt, st.core, st.cct) && DoNotifyPop(c, st, st', s)
    ensures Completed(st'.q, s0) == Completed(st.q, s0)
  {
    var w := At(st.q, Complete(s));
    assert |At(st.q, Notify(s))| == 0;
    assert Ids(w) == Ids([w[0]]) + Ids(w[1..]);
    if s0 == s { assert Completed(st'.q, s) == Ids(At(st.q, Finished(s))) + (Ids([w[0]]) + Ids(w[1..])); }
  }

  lemma EndCompleted(c: Config, st: State, st': State, s: Sched, s0: Sched)
    requires DoNotifyEnd(c, st, st', s)
    ensures Completed(st'.q, s0) == Completed(st.q, s0)
  {
    var f, n := At(st.q, Finished(s)), At(st.q, Notify(s));
    IdsConcat(f, n);
    assert Ids(f + n) == Ids(f) + Ids(n);
    assert Ids([]) == [];
  }

  lemma OneCompleted(c: Config, st: State, st': State, s: Sched, k: nat, s0: Sched)
    requires DoExecComplete(c, st, st', s, k)
    ensures Completed(st'.q, s0) == Completed(st.q, s0) + if s0 == s then Ids(At(st.q, Core(s, k))) else []
  {
    var w, t := At(st.q, Complete(s)), At(st.q, Core(s, k))[0].id;
    var x := Item(t, CoreAt(st.core, Core(s, k)).v.outputSize);
    assert Ids(w + [x]) == Ids(w) + [t];
    assert Ids(At(st.q, Core(s, k))) == [t];
  }

  lemma NotifyCompleted(c: Config, st: State, st': State, s: Sched, a: NotifyAct, s0: Sched)
    requires Slots(st.q, st.crt, st.core, st.cct) && NotifyNext(c, st, st', s, a)
    ensures Completed(st'.q, s0) == Completed(st.q, s0)
  {
    hide Slots, Completed, DoNotifyPop, DoNotifyEnd, NotifyChild;
    match a
    case NotifyPop => PopCompleted(c, st, st', s, s0);
    case NotifyEnd => EndCompleted(c, st, st', s, s0);
    case _ => assert st'.q == st.q;
  }

  lemma ExecCompleted(c: Config, st: State, st': State, s: Sched, k: nat, a: ExecAct, s0: Sched)
    requires ExecNext(c, st, st', s, k, a)
    ensures Completed(st.q, s0) <= Completed(st'.q, s0)
  {
    hide Completed, DoExecComplete, PoppedTops, InsertNew, Find;
    if a.ExecComplete? { OneCompleted(c, st, st', s, k, s0); } else { SameCompleted(st, st', s0); }
  }

  lemma ClientCompleted(c: Config, st: State, st': State, s: Sched, a: ClientAct, s0: Sched)
    requires ClientNext(c, st, st', s, a)
    ensures Completed(st'.q, s0) == Completed(st.q, s0)
  {
    SameCompleted(st, st', s0);
  }

  lemma CheckCompleted(c: Config, st: State, st': State, s: Sched, a: CheckAct, s0: Sched)
    requires CheckNext(c, st, st', s, a)
    ensures Completed(st'.q, s0) == Completed(st.q, s0)
  {
    hide Decide;
    SameCompleted(st, st', s0);
  }

  lemma BalanceCompleted(c: Config, st: State, st': State, s: Sched, a: BalanceAct, s0: Sched)
    requires BalanceNext(c, st, st', s, a)
    ensures Completed(st'.q, s0) == Completed(st.q, s0)
  {
    hide PoppedTops;
    SameCompleted(st, st', s0);
  }

  lemma RecordCompleted(c: Config, st: State, st': State, s: Sched, a: RecordAct, s0: Sched)
    requires RecordNext(c, st, st', s, a)
    ensures Completed(st'.q, s0) == Completed(st.q, s0)
  {
    SameCompleted(st, st', s0);
  }

  /** A step completes at most one task, and reorders nothing. */
  lemma StepCompleted(c: Config, st: State, st': State, step: Step, s0: Sched)
    requires Slots(st.q, st.crt, st.core, st.cct) && NextStep(c, st, st', step)
    ensures Completed(st.q, s0) <= Completed(st'.q, s0)
  {
    hide Slots, Completed, ClientNext, CheckNext, BalanceNext, ExecNext, NotifyNext, RecordNext;
    match step
    case NotifyStep(s, a) => NotifyCompleted(c, st, st', s, a, s0);
    case ExecStep(s, k, a) => ExecCompleted(c, st, st', s, k, a, s0);
    case ClientStep(s, a) => ClientCompleted(c, st, st', s, a, s0);
    case CheckStep(s, a) => CheckCompleted(c, st, st', s, a, s0);
    case BalanceStep(s, a) => BalanceCompleted(c, st, st', s, a, s0);
    case RecordStep(s, a) => RecordCompleted(c, st, st', s, a, s0);
  }

  lemma InvSlots(c: Config, st: State)
    requires Inv(c, st)
    ensures Slots(st.q, st.crt, st.core, st.cct)
  {
  }

  /** In any run the tasks of a scheduler notify their children in the order in which they complete. */
  lemma {:induction false} CompletionOrder(c: Config, states: seq<State>, steps: seq<Step>, i: nat, j: nat, s: Sched)
    requires WellFormed(c) && IsRun(c, states, steps) && Init(c, states[0]) && i <= j <= |steps|
    ensures Completed(states[i].q, s) <= Completed(states[j].q, s)
    decreases j
  {
    hide WellFormed, NextStep, Init, Inv, Completed, Slots;
    if i < j {
      CompletionOrder(c, states, steps, i, j - 1, s);
      InitInv(c, states[0]);
      RunInv(c, states, steps, j - 1);
      InvSlots(c, states[j - 1]);
      StepCompleted(c, states[j - 1], states[j], steps[j - 1], s);
    }
  }
}
