/** From every reachable state the protocol can get nearer to completion. */
module MatrixProgress {
  import opened MatrixModel
  import opened MatrixInvariant
  import opened MatrixBasics
  import opened MatrixDispatch
  import opened MatrixExec
  import opened MatrixNotify
  import opened MatrixRecord
  import opened MatrixMeasure
  import opened MatrixTheorems

  // ---------- Reachability ----------

  lemma ReachSelf(c: Config, st: State)
    ensures CanReach(c, st, st)
  {
    var steps: seq<Step> := [];
    assert IsRun(c, [st], steps) && [st][0] == st && [st][|steps|] == st;
  }

  lemma ReachStep(c: Config, st: State, mid: State, st': State, step: Step)
    requires NextStep(c, st, mid, step) && CanReach(c, mid, st')
    ensures CanReach(c, st, st')
  {
    hide NextStep;
    var states, steps :| IsRun(c, states, steps) && states[0] == mid && states[|steps|] == st';
    var states', steps' := [st] + states, [step] + steps;
    forall i | 0 <= i < |steps'|
      ensures NextStep(c, states'[i], states'[i + 1], steps'[i])
    {
      if i > 0 { assert NextStep(c, states[i - 1], states[i], steps[i - 1]); }
    }
    assert IsRun(c, states', steps') && states'[0] == st && states'[|steps'|] == st';
  }

  lemma {:induction false} ReachTrans(c: Config, st: State, mid: State, st': State)
    requires CanReach(c, st, mid) && CanReach(c, mid, st')
    ensures CanReach(c, st, st')
  {
    hide NextStep;
    var a, x :| IsRun(c, a, x) && a[0] == st && a[|x|] == mid;
    var b, y :| IsRun(c, b, y) && b[0] == mid && b[|y|] == st';
    var states, steps := a + b[1..], x + y;
    forall i | 0 <= i < |steps|
      ensures NextStep(c, states[i], states[i + 1], steps[i])
    {
      if i < |x| {
        assert NextStep(c, a[i], a[i + 1], x[i]);
      } else {
        assert NextStep(c, b[i - |x|], b[i - |x| + 1], y[i - |x|]);
      }
    }
    assert IsRun(c, states, steps) && states[0] == st && states[|steps|] == st';
  }

  ghost predicate Nearer(c: Config, st: State, st': State) {
    CanReach(c, st, st') && Inv(c, st') && Measure(c, st') < Measure(c, st)
  }

  /** Some continuation leaves less work to do. */
  ghost predicate Progressed(c: Config, st: State) { exists st' :: Nearer(c, st, st') }

  // ---------- Threads ----------

  datatype Thread =
    | ClientThread(s: Sched)        // receives the client's batch
    | MainThread(s: Sched)          // waits for all tasks and starts the other threads
    | CheckThread(s: Sched)         // checking_ready_task
    | StealThread(s: Sched)         // workstealing, once it has asked for tasks
    | MonitorThread(s: Sched)       // localQueue_monitor, once it has taken tasks out
    | BalanceThread(s: Sched)       // the choice of those two to steal or to migrate
    | CoreThread(s: Sched, k: nat)  // executing_task
    | NotifyThread(s: Sched)        // checking_complete_task
    | RecordThread(s: Sched)        // recording_stat

  function ThreadOf(step: Step): Thread {
    match step
    case ClientStep(s, a) => if a.Start? then MainThread(s) else ClientThread(s)
    case CheckStep(s, a) => CheckThread(s)
    case BalanceStep(s, a) =>
      if a.StealRecv? then StealThread(s) else if a.MigrateIn? then MonitorThread(s) else BalanceThread(s)
    case ExecStep(s, k, a) => CoreThread(s, k)
    case NotifyStep(s, a) => NotifyThread(s)
    case RecordStep(s, a) => RecordThread(s)
  }

  /** The thread can take a useful step. */
  ghost predicate CanUse(c: Config, st: State, th: Thread) {
    exists st', step :: NextStep(c, st, st', step) && Useful(st, step) && ThreadOf(step) == th
  }

  lemma Use(c: Config, st: State, st': State, step: Step)
    requires NextStep(c, st, st', step) && Useful(st, step)
    ensures CanUse(c, st, ThreadOf(step))
  {
  }

  lemma Used(c: Config, st: State, th: Thread)
    requires WellFormed(c) && Inv(c, st) && CanUse(c, st, th)
    ensures Progressed(c, st)
  {
    hide WellFormed, Inv, NextStep, Useful, Measure;
    var st', step :| NextStep(c, st, st', step) && Useful(st, step) && ThreadOf(step) == th;
    StepMeasure(c, st, st', step);
    ReachSelf(c, st');
    ReachStep(c, st, st', st', step);
    assert Nearer(c, st, st');
  }

  lemma After(c: Config, st: State, mid: State, step: Step)
    requires WellFormed(c) && Inv(c, st) && NextStep(c, st, mid, step) && Progressed(c, mid)
    ensures Progressed(c, st)
  {
    hide WellFormed, Inv, NextStep, Useful, Measure;
    StepMeasure(c, st, mid, step);
    var st' :| Nearer(c, mid, st');
    ReachStep(c, st, mid, st', step);
    assert Nearer(c, st, st');
  }

  lemma AfterReach(c: Config, st: State, mid: State)
    requires CanReach(c, st, mid) && Measure(c, mid) <= Measure(c, st) && Progressed(c, mid)
    ensures Progressed(c, st)
  {
    hide Inv, Measure;
    var st' :| Nearer(c, mid, st');
    ReachTrans(c, st, mid, st');
    assert Nearer(c, st, st');
  }

  // ---------- Receiving ----------

  lemma ClientCan(c: Config, st: State, s: Sched)
    requires s < c.numSched && At(st.q, Client(s)) != []
    ensures CanUse(c, st, ClientThread(s))
  {
    hide CanUse;
    var b := At(st.q, Client(s));
    var st' := st.(q := Move(st.q, Client(s), b[|b|..], Wait(s), At(st.q, Wait(s)) + b[..|b|]));
    Use(c, st, st', ClientStep(s, RecvPkg(|b|)));
  }

  lemma RecvLookupCan(c: Config, st: State, s: Sched)
    requires s < c.numSched && At(st.q, Client(s)) == [] && |Batch(c, s)| > 0 && RecvAt(st.recv, s).RecvIdle?
    ensures CanUse(c, st, ClientThread(s))
  {
    hide CanUse;
    Use(c, st, st.(recv := st.recv[s := RecvSeen(st.recvCtr)]), ClientStep(s, RecvLookup));
  }

  lemma RecvProgress(c: Config, st: State, s: Sched)
    requires WellFormed(c) && Inv(c, st) && s < c.numSched && At(st.q, Client(s)) == [] && |Batch(c, s)| > 0
    requires !RecvAt(st.recv, s).RecvDone?
    ensures Progressed(c, st)
  {
    hide WellFormed, Inv, Progressed, CanUse;
    var pc := RecvAt(st.recv, s);
    if pc.RecvIdle? {
      RecvLookupCan(c, st, s);
      Used(c, st, ClientThread(s));
    } else if pc.seen == st.recvCtr {
      RecvSwapCan(c, st, s);
      Used(c, st, ClientThread(s));
    } else {
      var st1 := st.(recv := st.recv[s := RecvSeen(st.recvCtr)]);
      assert DoRecvCas(c, st, st1, s);
      StepInv(c, st, st1, ClientStep(s, RecvCas));
      RecvSwapCan(c, st1, s);
      Used(c, st1, ClientThread(s));
      After(c, st, st1, ClientStep(s, RecvCas));
    }
  }

  lemma RecvSwapCan(c: Config, st: State, s: Sched)
    requires s < c.numSched && RecvAt(st.recv, s) == RecvSeen(st.recvCtr)
    ensures CanUse(c, st, ClientThread(s))
  {
    hide CanUse;
    var st' := st.(recvCtr := st.recvCtr + |Batch(c, s)|, recv := st.recv[s := RecvDone]);
    Use(c, st, st', ClientStep(s, RecvCas));
  }

  lemma StartCan(c: Config, st: State, s: Sched)
    requires s < c.numSched && s !in st.started && st.recvCtr == c.n
    ensures CanUse(c, st, MainThread(s))
  {
    hide CanUse;
    Use(c, st, st.(started := st.started + {s}), ClientStep(s, Start));
  }

  ghost predicate Arrived(c: Config, st: State) {
    forall s: nat :: s < c.numSched ==>
      At(st.q, Client(s)) == [] && (|Batch(c, s)| > 0 ==> RecvAt(st.recv, s).RecvDone?)
  }

  lemma ArrivedCount(c: Config, st: State)
    requires WellFormed(c) && Inv(c, st) && Arrived(c, st)
    ensures st.recvCtr == c.n
  {
    hide Conserved, Slots, Stages, NotesOk, Records, Notifiers, CompleteOk, Checkers, Stored, Cores, InputsOk, History,
         Accounted, CountStages, CountedOk, CountingOk, CoreDomain, CrtDomain, CctDomain, RecDomain;
    assert RecvParts(c, st.recv) == BatchSizes(c);
  }

  ghost predicate AllStarted(c: Config, st: State) { forall s: nat :: s < c.numSched ==> s in st.started }

  /** Every scheduler can be started. */
  lemma StartupProgress(c: Config, st: State)
    requires WellFormed(c) && Inv(c, st) && !AllStarted(c, st)
    ensures Progressed(c, st)
  {
    hide WellFormed, Inv, Progressed, CanUse;
    if Arrived(c, st) {
      ArrivedCount(c, st);
      var s: nat :| s < c.numSched && s !in st.started;
      StartCan(c, st, s);
      Used(c, st, MainThread(s));
    } else {
      var s: nat :| s < c.numSched
                    && !(At(st.q, Client(s)) == [] && (|Batch(c, s)| > 0 ==> RecvAt(st.recv, s).RecvDone?));
      if At(st.q, Client(s)) != [] {
        ClientCan(c, st, s);
        Used(c, st, ClientThread(s));
      } else {
        RecvProgress(c, st, s);
      }
    }
  }

  // ---------- Executing ----------

  lemma GatherCan(c: Config, st: State, s: Sched, k: nat)
    requires s < c.numSched && |At(st.q, Core(s, k))| == 1
    requires CoreBusy(CoreAt(st.core, Core(s, k))) && !CoreAt(st.core, Core(s, k)).CoreRan?
             && !CoreAt(st.core, Core(s, k)).CoreFetch?
    ensures CanUse(c, st, CoreThread(s, k))
  {
    hide CanUse, InsertNew, Find;
    var pc := CoreAt(st.core, Core(s, k));
    if pc.CorePopped? {
      Use(c, st, st.(core := st.core[Core(s, k) := CoreFetch(ZhtAt(st.zht, At(st.q, Core(s, k))[0].id), 0, [])]),
          ExecStep(s, k, ExecLookup));
    } else if pc.CoreNeed? {
      Use(c, st, st.(core := st.core[Core(s, k) :=
            CoreGot(pc.v, pc.i, pc.acc, Find(DataAt(st.data, ParentAt(pc.v, pc.i)), NameAt(pc.v, pc.i)))]),
          ExecStep(s, k, ExecRemote));
    } else {
      Use(c, st, st.(core := st.core[Core(s, k) := CoreFetch(pc.v, pc.i + 1, pc.acc + [pc.piece])],
                     data := st.data[s := InsertNew(DataAt(st.data, s), NameAt(pc.v, pc.i), pc.piece)]),
          ExecStep(s, k, ExecCache));
    }
  }

  lemma FetchCan(c: Config, st: State, s: Sched, k: nat)
    requires s < c.numSched && |At(st.q, Core(s, k))| == 1 && CoreAt(st.core, Core(s, k)).CoreFetch?
    ensures CanUse(c, st, CoreThread(s, k))
  {
    hide CanUse, InsertNew, Find;
    var pc := CoreAt(st.core, Core(s, k));
    if pc.i < |pc.v.parents| {
      Use(c, st, st.(core := st.core[Core(s, k) :=
                      if SizeAt(pc.v, pc.i) <= 0 then CoreFetch(pc.v, pc.i + 1, pc.acc)
                      else if ParentAt(pc.v, pc.i) == s || NameAt(pc.v, pc.i) in DataAt(st.data, s)
                      then CoreFetch(pc.v, pc.i + 1, pc.acc + [Find(DataAt(st.data, s), NameAt(pc.v, pc.i))])
                      else CoreNeed(pc.v, pc.i, pc.acc)]), ExecStep(s, k, ExecFetch));
    } else {
      var t, out := At(st.q, Core(s, k))[0].id, Piece("");
      Use(c, st, st.(core := st.core[Core(s, k) := CoreRan(pc.v)],
                     data := st.data[s := InsertNew(DataAt(st.data, s), Name(s, t), out)],
                     runs := st.runs + [t], ranAt := st.ranAt[t := s],
                     result := st.result[t := out], input := st.input[t := pc.acc]), ExecStep(s, k, ExecRun(out)));
    }
  }

  lemma RanCan(c: Config, st: State, s: Sched, k: nat)
    requires s < c.numSched && |At(st.q, Core(s, k))| == 1 && CoreAt(st.core, Core(s, k)).CoreRan?
    ensures CanUse(c, st, CoreThread(s, k))
  {
    hide CanUse;
    var t := At(st.q, Core(s, k))[0].id;
    Use(c, st, st.(q := Move(st.q, Core(s, k), [], Complete(s),
                             At(st.q, Complete(s)) + [Item(t, CoreAt(st.core, Core(s, k)).v.outputSize)]),
                   core := st.core[Core(s, k) := CoreCounting(t)]), ExecStep(s, k, ExecComplete));
  }

  // ---------- Reporting ----------

  ghost predicate OnlyRecord(st: State, st': State, s: Sched) {
    && st' == st.(rec := st'.rec, prev := st'.prev, doneCtr := st'.doneCtr)
    && forall s1: nat :: s1 != s ==>
         RecAt(st'.rec, s1) == RecAt(st.rec, s1) && NumAt(st'.prev, s1) == NumAt(st.prev, s1)
  }

  ghost predicate Reported(st: State, s: Sched) { RecAt(st.rec, s).RecIdle? && NumAt(st.prev, s) == NumAt(st.fin, s) }

  /** Scheduler s finishes its report and nothing else happens. */
  ghost predicate Reports(c: Config, st: State, st': State, s: Sched) {
    CanReach(c, st, st') && Inv(c, st') && OnlyRecord(st, st', s) && Reported(st', s)
  }

  lemma ReportStep(c: Config, st: State, mid: State, st': State, s: Sched, a: RecordAct)
    requires NextStep(c, st, mid, RecordStep(s, a)) && OnlyRecord(st, mid, s) && Reports(c, mid, st', s)
    ensures Reports(c, st, st', s)
  {
    hide NextStep, CanReach, Inv;
    ReachStep(c, st, mid, st', RecordStep(s, a));
  }

  lemma UnlockReport(c: Config, st: State, s: Sched) returns (st': State)
    requires WellFormed(c) && Inv(c, st) && s < c.numSched && RecAt(st.rec, s).RecSwapped?
    ensures Reports(c, st, st', s)
  {
    hide WellFormed, Inv, CanReach;
    st' := st.(prev := st.prev[s := NumAt(st.fin, s)], rec := st.rec[s := RecIdle]);
    StepInv(c, st, st', RecordStep(s, RecUnlock));
    ReachSelf(c, st');
    ReportStep(c, st, st', st', s, RecUnlock);
  }

  lemma SwapReport(c: Config, st: State, s: Sched) returns (st': State)
    requires WellFormed(c) && Inv(c, st) && s < c.numSched && RecAt(st.rec, s) == RecLocked(st.doneCtr)
    ensures Reports(c, st, st', s)
  {
    hide WellFormed, Inv, Reports;
    var mid := st.(doneCtr := st.doneCtr + (NumAt(st.fin, s) - NumAt(st.prev, s)), rec := st.rec[s := RecSwapped]);
    assert DoRecCas(c, st, mid, s);
    StepInv(c, st, mid, RecordStep(s, RecCas));
    st' := UnlockReport(c, mid, s);
    ReportStep(c, st, mid, st', s, RecCas);
  }

  lemma BreakReport(c: Config, st: State, s: Sched) returns (st': State)
    requires WellFormed(c) && Inv(c, st) && s < c.numSched && RecAt(st.rec, s).RecLocked?
    requires RecAt(st.rec, s).seen != st.doneCtr == c.n
    ensures Reports(c, st, st', s)
  {
    hide WellFormed, Inv, Reports;
    var mid := st.(rec := st.rec[s := RecSwapped]);
    assert DoRecCas(c, st, mid, s);
    StepInv(c, st, mid, RecordStep(s, RecCas));
    st' := UnlockReport(c, mid, s);
    ReportStep(c, st, mid, st', s, RecCas);
  }

  lemma RetryReport(c: Config, st: State, s: Sched) returns (st': State)
    requires WellFormed(c) && Inv(c, st) && s < c.numSched && RecAt(st.rec, s).RecLocked?
    requires RecAt(st.rec, s).seen != st.doneCtr && st.doneCtr != c.n
    ensures Reports(c, st, st', s)
  {
    hide WellFormed, Inv, Reports;
    var mid := st.(rec := st.rec[s := RecLocked(st.doneCtr)]);
    assert DoRecCas(c, st, mid, s);
    StepInv(c, st, mid, RecordStep(s, RecCas));
    st' := SwapReport(c, mid, s);
    ReportStep(c, st, mid, st', s, RecCas);
  }

  lemma LockedReport(c: Config, st: State, s: Sched) returns (st': State)
    requires WellFormed(c) && Inv(c, st) && s < c.numSched && RecAt(st.rec, s).RecLocked?
    ensures Reports(c, st, st', s)
  {
    hide WellFormed, Inv, Reports;
    if RecAt(st.rec, s).seen == st.doneCtr {
      st' := SwapReport(c, st, s);
    } else if st.doneCtr == c.n {
      st' := BreakReport(c, st, s);
    } else {
      st' := RetryReport(c, st, s);
    }
  }

  lemma SeenReport(c: Config, st: State, s: Sched) returns (st': State)
    requires WellFormed(c) && Inv(c, st) && s < c.numSched && RecAt(st.rec, s).RecSeen?
    ensures Reports(c, st, st', s)
  {
    hide WellFormed, Inv, Reports;
    var mid := st.(rec := st.rec[s := RecLocked(RecAt(st.rec, s).seen)]);
    StepInv(c, st, mid, RecordStep(s, RecLock));
    st' := LockedReport(c, mid, s);
    ReportStep(c, st, mid, st', s, RecLock);
  }

  lemma IdleReport(c: Config, st: State, s: Sched) returns (st': State)
    requires WellFormed(c) && Inv(c, st) && s < c.numSched && RecAt(st.rec, s).RecIdle? && s in st.started
    ensures Reports(c, st, st', s)
  {
    hide WellFormed, Inv, Reports;
    if st.doneCtr == c.n || s in st.stopped {
      AlreadyReported(c, st, s);
      st' := st;
    } else {
      var mid := st.(rec := st.rec[s := RecSeen(st.doneCtr)]);
      assert DoRecLookup(c, st, mid, s);
      StepInv(c, st, mid, RecordStep(s, RecLookup));
      st' := SeenReport(c, mid, s);
      ReportStep(c, st, mid, st', s, RecLookup);
    }
  }

  /** A started scheduler can always bring its report up to date. */
  lemma Report(c: Config, st: State, s: Sched) returns (st': State)
    requires WellFormed(c) && Inv(c, st) && s < c.numSched && s in st.started
    ensures Reports(c, st, st', s)
  {
    hide WellFormed, Inv, Reports;
    match RecAt(st.rec, s)
    case RecIdle => st' := IdleReport(c, st, s);
    case RecSeen(_) => st' := SeenReport(c, st, s);
    case RecLocked(_) => st' := LockedReport(c, st, s);
    case RecSwapped => st' := UnlockReport(c, st, s);
  }

  lemma AlreadyReported(c: Config, st: State, s: Sched)
    requires WellFormed(c) && Inv(c, st) && s < c.numSched && RecAt(st.rec, s).RecIdle?
             && (st.doneCtr == c.n || s in st.stopped)
    ensures Reports(c, st, st, s)
  {
    hide WellFormed, Inv, CanReach, CountedOk, FinOk;
    ReachSelf(c, st);
    CounterFacts(c, st);
    DoneBound(c, st.rec, st.fin, st.prev, st.counted, st.doneCtr, st.stopped, st.ranAt);
  }

  // ---------- Executing, continued ----------

  lemma ReportWork(c: Config, st: State, st': State, s: Sched)
    requires OnlyRecord(st, st', s)
    ensures Measure(c, st') == Measure(c, st)
  {
    SameWork(c, 0, st, st');
    SameSchedWork(c, st, st');
  }

  lemma CountCan(c: Config, st: State, s: Sched, k: nat)
    requires s < c.numSched && CoreAt(st.core, Core(s, k)).CoreCounting? && !RecAt(st.rec, s).RecLocked?
             && !RecAt(st.rec, s).RecSwapped?
    ensures CanUse(c, st, CoreThread(s, k))
  {
    hide CanUse;
    var pc := CoreAt(st.core, Core(s, k));
    Use(c, st, st.(core := st.core[Core(s, k) := CoreIdle], fin := st.fin[s := NumAt(st.fin, s) + 1],
                   counted := st.counted[s := SetAt(st.counted, s) + {pc.t}]), ExecStep(s, k, ExecCount));
  }

  lemma CountProgress(c: Config, st: State, s: Sched, k: nat)
    requires WellFormed(c) && Inv(c, st) && s < c.numSched && CoreAt(st.core, Core(s, k)).CoreCounting?
             && s in st.started
    ensures Progressed(c, st)
  {
    hide WellFormed, Inv, Progressed, CanReach, Measure, CanUse;
    var mid := Report(c, st, s);
    ReportWork(c, st, mid, s);
    CountCan(c, mid, s, k);
    Used(c, mid, CoreThread(s, k));
    AfterReach(c, st, mid);
  }

  /** A core with a task can always continue. */
  lemma CoreCan(c: Config, st: State, s: Sched, k: nat)
    requires Inv(c, st) && s < c.numSched && CoreBusy(CoreAt(st.core, Core(s, k)))
    ensures CanUse(c, st, CoreThread(s, k))
  {
    hide Inv, CanUse, CoreOk, Placed, Replay, NoteOk;
    var t := AtCore(c, st, s, k);
    var pc := CoreAt(st.core, Core(s, k));
    if pc.CoreRan? { RanCan(c, st, s, k); }
    else if pc.CoreFetch? { FetchCan(c, st, s, k); }
    else { GatherCan(c, st, s, k); }
  }

  lemma CoreProgress(c: Config, st: State, p: Place)
    requires WellFormed(c) && Inv(c, st) && AllStarted(c, st) && !CoreAt(st.core, p).CoreIdle?
    ensures Progressed(c, st)
  {
    hide WellFormed, Inv, Progressed, CanUse;
    CoreValid(c, st, p);
    if CoreAt(st.core, p).CoreCounting? {
      CountProgress(c, st, p.s, p.k);
    } else {
      CoreCan(c, st, p.s, p.k);
      Used(c, st, CoreThread(p.s, p.k));
    }
  }

  lemma CoreValid(c: Config, st: State, p: Place)
    requires Inv(c, st) && !CoreAt(st.core, p).CoreIdle?
    ensures p.Core? && ValidPlace(c, p)
  {
    hide Conserved, Slots, Stages, NotesOk, Records, Notifiers, CompleteOk, Checkers, Stored, Cores, InputsOk, History,
         Received, Accounted, CountStages, CountedOk, CountingOk, CrtDomain, CctDomain, RecDomain;
  }

  // ---------- Notifying ----------

  lemma HeldCan(c: Config, st: State, s: Sched)
    requires s < c.numSched && |At(st.q, Notify(s))| == 1 && CctAt(st.cct, s).CctHeld?
    ensures CanUse(c, st, NotifyThread(s))
  {
    hide CanUse;
    var kids := ZhtAt(st.zht, At(st.q, Notify(s))[0].id).children;
    Use(c, st, st.(cct := st.cct[s := CctNext(kids, 0)]), NotifyStep(s, NotifyLookup));
  }

  /** A notifying thread can always continue, unless its read is stale. */
  lemma NotifyCan(c: Config, st: State, s: Sched)
    requires Inv(c, st) && s < c.numSched && !CctAt(st.cct, s).CctIdle?
             && (CctAt(st.cct, s).CctRead? ==> NotifySwaps(st, s))
    ensures CanUse(c, st, NotifyThread(s))
  {
    hide Inv, CanUse, Snapshot, NotifiedUpTo, Replay;
    var t := AtNotify(c, st, s);
    match CctAt(st.cct, s)
    case CctRead(_, _, _, _) => NotifySwapCan(c, st, s);
    case CctNext(_, _) => NextCan(c, st, s);
    case CctHeld => HeldCan(c, st, s);
  }

  lemma NotifyProgress(c: Config, st: State, s: Sched)
    requires WellFormed(c) && Inv(c, st) && !CctAt(st.cct, s).CctIdle? && s < c.numSched
    ensures Progressed(c, st)
  {
    hide WellFormed, Inv, Progressed, CanUse, NotifySwaps;
    if CctAt(st.cct, s).CctRead? && !NotifySwaps(st, s) {
      RetryProgress(c, st, s);
    } else {
      NotifyCan(c, st, s);
      Used(c, st, NotifyThread(s));
    }
  }

  lemma NextCan(c: Config, st: State, s: Sched)
    requires s < c.numSched && |At(st.q, Notify(s))| == 1 && CctAt(st.cct, s).CctNext?
    ensures CanUse(c, st, NotifyThread(s))
  {
    hide CanUse;
    var pc := CctAt(st.cct, s);
    if pc.i < |pc.kids| {
      Use(c, st, st.(cct := st.cct[s := CctRead(pc.kids, pc.i, ZhtAt(st.zht, pc.kids[pc.i]), 0)]),
          NotifyStep(s, NotifyRead));
    } else {
      Use(c, st, st.(q := Move(st.q, Notify(s), [], Finished(s), At(st.q, Finished(s)) + At(st.q, Notify(s))),
                     cct := st.cct[s := CctIdle]), NotifyStep(s, NotifyEnd));
    }
  }

  lemma ReadFacts(c: Config, st: State, s: Sched)
    requires Inv(c, st) && CctAt(st.cct, s).CctRead?
    ensures |At(st.q, Notify(s))| == 1 && CctAt(st.cct, s).i < |CctAt(st.cct, s).kids|
  {
    hide Inv, Snapshot, NotifiedUpTo, Replay;
    var t := AtNotify(c, st, s);
  }

  /** A failing compare_swap refreshes the read. */
  lemma RetryStep(c: Config, st: State, s: Sched) returns (mid: State)
    requires Inv(c, st) && s < c.numSched && CctAt(st.cct, s).CctRead? && !NotifySwaps(st, s)
    ensures NextStep(c, st, mid, NotifyStep(s, NotifyCas)) && CctAt(mid.cct, s).CctRead? && NotifySwaps(mid, s)
  {
    hide Inv;
    ReadFacts(c, st, s);
    var pc := CctAt(st.cct, s);
    mid := st.(cct := st.cct[s := CctRead(pc.kids, pc.i, ZhtAt(st.zht, pc.kids[pc.i]), pc.fails + 1)]);
    assert DoNotifyCas(c, st, mid, s);
  }

  lemma RetryProgress(c: Config, st: State, s: Sched)
    requires WellFormed(c) && Inv(c, st) && s < c.numSched && CctAt(st.cct, s).CctRead? && !NotifySwaps(st, s)
    ensures Progressed(c, st)
  {
    hide WellFormed, Inv, Progressed, CanUse, NextStep, NotifySwaps;
    var mid := RetryStep(c, st, s);
    StepInv(c, st, mid, NotifyStep(s, NotifyCas));
    NotifyCan(c, mid, s);
    Used(c, mid, NotifyThread(s));
    After(c, st, mid, NotifyStep(s, NotifyCas));
  }

  lemma NotifySwapCan(c: Config, st: State, s: Sched)
    requires s < c.numSched && |At(st.q, Notify(s))| == 1 && CctAt(st.cct, s).CctRead?
    requires CctAt(st.cct, s).i < |CctAt(st.cct, s).kids|
             && ZhtAt(st.zht, CctAt(st.cct, s).kids[CctAt(st.cct, s).i]) == CctAt(st.cct, s).seen
    ensures CanUse(c, st, NotifyThread(s))
  {
    hide CanUse;
    var pc, x := CctAt(st.cct, s), At(st.q, Notify(s))[0];
    var kid := pc.kids[pc.i];
    Use(c, st, st.(zht := st.zht[kid := NotifyChild(pc.seen, s, Name(s, x.id), x.size)],
                   cct := st.cct[s := CctNext(pc.kids, pc.i + 1)],
                   notified := st.notified[kid := NotesAt(st.notified, kid) + [Edge(x.id, pc.i)]]),
        NotifyStep(s, NotifyCas));
  }

  lemma CctValid(c: Config, st: State, s: Sched)
    requires Inv(c, st) && !CctAt(st.cct, s).CctIdle?
    ensures s < c.numSched
  {
    hide Conserved, Slots, Stages, NotesOk, Records, Notifiers, CompleteOk, Checkers, Stored, Cores, InputsOk, History,
         Received, Accounted, CountStages, CountedOk, CountingOk, CrtDomain, CoreDomain, RecDomain;
  }

  lemma CompleteCan(c: Config, st: State, s: Sched)
    requires CctAt(st.cct, s).CctIdle? && s < c.numSched && s in st.started && At(st.q, Complete(s)) != []
    ensures CanUse(c, st, NotifyThread(s))
  {
    hide CanUse;
    var w := At(st.q, Complete(s));
    Use(c, st, st.(q := Move(st.q, Complete(s), w[1..], Notify(s), [w[0]]), cct := st.cct[s := CctHeld]),
        NotifyStep(s, NotifyPop));
  }

  // ---------- Popping a ready task ----------

  lemma ReadyQueueCan(c: Config, st: State, s: Sched, from: Place)
    requires s < c.numSched && s in st.started && CoreAt(st.core, Core(s, 0)).CoreIdle? && c.cores >= 1
    requires from in {Local(s), Ws(s)} && At(st.q, from) != []
    ensures CanUse(c, st, CoreThread(s, 0))
  {
    hide CanUse, PoppedTops;
    var x, rest := PopTop(At(st.q, from));
    Use(c, st, st.(q := Move(st.q, from, rest, Core(s, 0), [x]), core := st.core[Core(s, 0) := CorePopped]),
        ExecStep(s, 0, ExecStart(from, x, rest)));
  }

  lemma MigrCan(c: Config, st: State, s: Sched)
    requires s < c.numSched && At(st.q, Migr(s)) != []
    ensures CanUse(c, st, MonitorThread(s))
  {
    hide CanUse;
    Use(c, st, st.(q := Move(st.q, Migr(s), [], Ws(s), At(st.q, Ws(s)) + At(st.q, Migr(s)))),
        BalanceStep(s, MigrateIn));
  }

  lemma StealRecvStep(c: Config, st: State, s: Sched) returns (mid: State)
    requires s < c.numSched && At(st.q, Steal(s)) != []
    ensures NextStep(c, st, mid, BalanceStep(s, StealRecv(|At(st.q, Steal(s))|)))
    ensures At(mid.q, Ws(s)) != [] && mid.core == st.core && mid.started == st.started
  {
    var b := At(st.q, Steal(s));
    mid := st.(q := Move(st.q, Steal(s), b[|b|..], Ws(s), At(st.q, Ws(s)) + b[..|b|]));
    assert DoStealRecv(c, st, mid, s, |b|);
    assert |At(mid.q, Ws(s))| > 0;
  }

  lemma StealProgress(c: Config, st: State, s: Sched)
    requires WellFormed(c) && Inv(c, st) && s < c.numSched && s in st.started && CoreAt(st.core, Core(s, 0)).CoreIdle?
             && c.cores >= 1
    requires At(st.q, Steal(s)) != []
    ensures Progressed(c, st)
  {
    hide WellFormed, Inv, Progressed, CanUse, NextStep;
    var mid := StealRecvStep(c, st, s);
    StepInv(c, st, mid, BalanceStep(s, StealRecv(|At(st.q, Steal(s))|)));
    ReadyQueueCan(c, mid, s, Ws(s));
    Used(c, mid, CoreThread(s, 0));
    After(c, st, mid, BalanceStep(s, StealRecv(|At(st.q, Steal(s))|)));
  }

  // ---------- Dispatching ----------

  lemma CheckerFacts(c: Config, st: State, s: Sched)
    requires Inv(c, st) && CrtBusy(CrtAt(st.crt, s))
    ensures |At(st.q, Check(s))| == 1 && s < c.numSched
    ensures CheckerOk(c, st.notified, st.ranAt, CrtAt(st.crt, s), At(st.q, Check(s))[0])
  {
    hide Conserved, Stages, NotesOk, Records, Notifiers, CompleteOk, Stored, Cores, InputsOk, History,
         Received, Accounted, CountStages, CountedOk, CountingOk, CctDomain, CoreDomain, RecDomain, CheckerOk;
  }

  /** Task t is in a ready queue. */
  ghost predicate InReadyQueue(st: State, t: Task) { exists p: Place :: (p.Ws? || p.Local?) && Cnt(st.q, p, t) > 0 }

  /** The checked task is back at the end of the wait queue. */
  ghost predicate PutBack(st: State, st': State, s: Sched) {
    At(st'.q, Wait(s)) == At(st.q, Wait(s)) + At(st.q, Check(s))
  }

  /** The checked task is in a ready queue. */
  ghost predicate SentOff(c: Config, st: State, st': State, s: Sched) {
    && At(st'.q, Wait(s)) == At(st.q, Wait(s)) && Measure(c, st') < Measure(c, st)
    && |At(st.q, Check(s))| == 1 && InReadyQueue(st', At(st.q, Check(s))[0].id)
  }

  /** The checking thread of s becomes idle, and no other thread takes a step. */
  ghost predicate Rounded(c: Config, st: State, st': State, s: Sched) {
    && CanReach(c, st, st') && Inv(c, st') && Measure(c, st') <= Measure(c, st)
    && CrtAt(st'.crt, s).CrtIdle? && st'.notified == st.notified && st'.started == st.started
  }

  lemma RoundStep(c: Config, st: State, mid: State, st': State, s: Sched, step: Step)
    requires WellFormed(c) && Inv(c, st) && NextStep(c, st, mid, step) && Rounded(c, mid, st', s)
    requires mid.notified == st.notified && mid.started == st.started
    ensures Rounded(c, st, st', s) && Measure(c, mid) <= Measure(c, st)
  {
    hide WellFormed, Inv, NextStep, CanReach, Measure, Useful;
    StepMeasure(c, st, mid, step);
    ReachStep(c, st, mid, st', step);
  }

  lemma IdleRound(c: Config, st: State, s: Sched)
    requires Inv(c, st) && CrtAt(st.crt, s).CrtIdle?
    ensures Rounded(c, st, st, s)
  {
    hide Inv, Measure;
    ReachSelf(c, st);
  }

  lemma AckRound(c: Config, st: State, s: Sched) returns (st': State)
    requires WellFormed(c) && Inv(c, st) && s < c.numSched && CrtAt(st.crt, s).CrtAck?
    ensures Rounded(c, st, st', s) && st'.q == st.q
  {
    hide WellFormed, Inv, Rounded;
    st' := st.(crt := st.crt[s := CrtIdle]);
    StepInv(c, st, st', CheckStep(s, CrtDone));
    IdleRound(c, st', s);
    RoundStep(c, st, st', st', s, CheckStep(s, CrtDone));
  }

  lemma EnqueueRound(c: Config, st: State, s: Sched) returns (st': State)
    requires WellFormed(c) && Inv(c, st) && CrtAt(st.crt, s).CrtDecided? && !CrtAt(st.crt, s).to.ToPeer?
    ensures Rounded(c, st, st', s) && SentOff(c, st, st', s)
  {
    hide WellFormed, Inv, Snapshot, Rounded, Cnt, Measure;
    CheckerFacts(c, st, s);
    var pc, id := CrtAt(st.crt, s), At(st.q, Check(s))[0].id;
    var dst := if pc.to == ToWs then Ws(s) else Local(s);
    AppendedAt(st.q, Check(s), dst, Item(id, pc.len));
    st' := st.(q := Move(st.q, Check(s), [], dst, At(st.q, dst) + [Item(id, pc.len)]), crt := st.crt[s := CrtIdle]);
    assert DoCrtEnqueue(c, st, st', s);
    StepMeasure(c, st, st', CheckStep(s, CrtEnqueue));
    IdleRound(c, st', s);
    RoundStep(c, st, st', st', s, CheckStep(s, CrtEnqueue));
  }

  lemma PushRound(c: Config, st: State, s: Sched) returns (st': State)
    requires WellFormed(c) && Inv(c, st) && CrtAt(st.crt, s).CrtDecided? && CrtAt(st.crt, s).to.ToPeer?
    ensures Rounded(c, st, st', s) && SentOff(c, st, st', s)
  {
    hide WellFormed, Inv, Snapshot, Cnt, CanReach, Measure;
    CheckerFacts(c, st, s);
    var pc, id := CrtAt(st.crt, s), At(st.q, Check(s))[0].id;
    var dst := Local(pc.to.target);
    AppendedAt(st.q, Check(s), dst, Item(id, pc.len));
    var mid := st.(q := Move(st.q, Check(s), [], dst, At(st.q, dst) + [Item(id, pc.len)]), crt := st.crt[s := CrtAck]);
    assert DoPushRecv(c, st, mid, s);
    StepMeasure(c, st, mid, CheckStep(s, PushRecv));
    st' := AckRound(c, mid, s);
    RoundStep(c, st, mid, st', s, CheckStep(s, PushRecv));
  }

  lemma DecidedRound(c: Config, st: State, s: Sched) returns (st': State)
    requires WellFormed(c) && Inv(c, st) && CrtAt(st.crt, s).CrtDecided?
    ensures Rounded(c, st, st', s) && SentOff(c, st, st', s)
  {
    hide WellFormed, Inv, Rounded, SentOff;
    if CrtAt(st.crt, s).to.ToPeer? { st' := PushRound(c, st, s); } else { st' := EnqueueRound(c, st, s); }
  }

  lemma ReadyRound(c: Config, st: State, s: Sched) returns (st': State)
    requires WellFormed(c) && Inv(c, st) && CrtAt(st.crt, s).CrtLooked? && CrtAt(st.crt, s).v.indegree == 0
    ensures Rounded(c, st, st', s) && SentOff(c, st, st', s)
  {
    hide WellFormed, Inv, CheckerOk, Rounded, Measure, InReadyQueue;
    CheckerFacts(c, st, s);
    var mid := st.(crt := st.crt[s := Decide(c, s, CrtAt(st.crt, s).v, DataAt(st.data, s))]);
    assert DoCrtDecide(c, st, mid, s);
    StepInv(c, st, mid, CheckStep(s, CrtDecide));
    st' := DecidedRound(c, mid, s);
    RoundStep(c, st, mid, st', s, CheckStep(s, CrtDecide));
  }

  lemma ReturnRound(c: Config, st: State, s: Sched) returns (st': State)
    requires WellFormed(c) && Inv(c, st) && CrtAt(st.crt, s).CrtLooked? && CrtAt(st.crt, s).v.indegree != 0
    ensures Rounded(c, st, st', s) && PutBack(st, st', s)
  {
    hide WellFormed, Inv, CheckerOk, Rounded;
    CheckerFacts(c, st, s);
    var w := At(st.q, Check(s));
    st' := st.(q := Move(st.q, Check(s), [], Wait(s), At(st.q, Wait(s)) + [w[0]]), crt := st.crt[s := CrtIdle]);
    assert DoCrtReturn(c, st, st', s);
    StepInv(c, st, st', CheckStep(s, CrtReturn));
    IdleRound(c, st', s);
    RoundStep(c, st, st', st', s, CheckStep(s, CrtReturn));
    assert [w[0]] == w;
  }

  lemma LookedRound(c: Config, st: State, s: Sched) returns (st': State)
    requires WellFormed(c) && Inv(c, st) && CrtAt(st.crt, s).CrtLooked?
    ensures Rounded(c, st, st', s)
            && if CrtAt(st.crt, s).v.indegree == 0 then SentOff(c, st, st', s) else PutBack(st, st', s)
  {
    hide WellFormed, Inv, Rounded, SentOff, PutBack;
    if CrtAt(st.crt, s).v.indegree == 0 { st' := ReadyRound(c, st, s); } else { st' := ReturnRound(c, st, s); }
  }

  lemma HeldRound(c: Config, st: State, s: Sched) returns (st': State)
    requires WellFormed(c) && Inv(c, st) && CrtAt(st.crt, s).CrtHeld?
    ensures |At(st.q, Check(s))| == 1 && Rounded(c, st, st', s)
    ensures if ZhtAt(st.zht, At(st.q, Check(s))[0].id).indegree == 0 then SentOff(c, st, st', s)
              else PutBack(st, st', s)
  {
    hide WellFormed, Inv, CheckerOk, Rounded, Measure, InReadyQueue;
    CheckerFacts(c, st, s);
    var mid := st.(crt := st.crt[s := CrtLooked(ZhtAt(st.zht, At(st.q, Check(s))[0].id))]);
    assert DoCrtLookup(c, st, mid, s);
    StepInv(c, st, mid, CheckStep(s, CrtLookup));
    st' := LookedRound(c, mid, s);
    RoundStep(c, st, mid, st', s, CheckStep(s, CrtLookup));
  }

  lemma CheckEmpty(c: Config, st: State, s: Sched)
    requires Inv(c, st) && !CrtBusy(CrtAt(st.crt, s))
    ensures At(st.q, Check(s)) == []
  {
    hide Conserved, Stages, NotesOk, Records, Notifiers, CompleteOk, Checkers, Stored, Cores, InputsOk, History,
         Received, Accounted, CountStages, CountedOk, CountingOk, CctDomain, CoreDomain, RecDomain, CrtDomain;
  }

  /** The checking thread of s finishes with the task it has, if any. */
  lemma CheckRound(c: Config, st: State, s: Sched) returns (st': State)
    requires WellFormed(c) && Inv(c, st) && s < c.numSched
    ensures Rounded(c, st, st', s) && (PutBack(st, st', s) || SentOff(c, st, st', s))
  {
    hide WellFormed, Inv, Rounded, SentOff;
    match CrtAt(st.crt, s)
    case CrtHeld => st' := HeldRound(c, st, s);
    case CrtLooked(_) => st' := LookedRound(c, st, s);
    case CrtDecided(_, _) => st' := DecidedRound(c, st, s);
    case CrtAck => CheckEmpty(c, st, s); st' := AckRound(c, st, s);
    case CrtIdle => CheckEmpty(c, st, s); IdleRound(c, st, s); st' := st;
  }

  lemma ReadyRecord(c: Config, st: State, t: Task)
    requires Inv(c, st) && t < c.n
    ensures Ready(c, st.notified, t) <==> ZhtAt(st.zht, t).indegree == 0
  {
    hide Conserved, Slots, Stages, NotesOk, Notifiers, CompleteOk, Checkers, Stored, Cores, InputsOk, History,
         Received, Accounted, CountStages, CountedOk, CountingOk, CctDomain, CoreDomain, RecDomain, CrtDomain, InDeg;
  }

  lemma QueuedBelow(c: Config, st: State, p: Place, j: nat)
    requires Inv(c, st) && j < |At(st.q, p)|
    ensures At(st.q, p)[j].id < c.n
  {
    hide Slots, Stages, NotesOk, Records, Notifiers, CompleteOk, Checkers, Stored, Cores, InputsOk, History,
         Received, Accounted, CountStages, CountedOk, CountingOk, CctDomain, CoreDomain, RecDomain, CrtDomain, Cnt;
    CntAt(st.q, p, j);
  }

  /** The head of the wait queue is checked: it goes to a ready queue if it is ready, and to the end otherwise. */
  lemma HeadRound(c: Config, st: State, s: Sched) returns (st': State)
    requires WellFormed(c) && Inv(c, st) && s < c.numSched && s in st.started && CrtAt(st.crt, s).CrtIdle?
             && |At(st.q, Wait(s))| > 0
    ensures Rounded(c, st, st', s)
    ensures var w := At(st.q, Wait(s));
            if Ready(c, st.notified, w[0].id)
            then At(st'.q, Wait(s)) == w[1..] && InReadyQueue(st', w[0].id) && Measure(c, st') < Measure(c, st)
            else At(st'.q, Wait(s)) == w[1..] + [w[0]]
  {
    hide WellFormed, Inv, Rounded, Measure, Ready, InReadyQueue;
    var w := At(st.q, Wait(s));
    var mid := st.(q := Move(st.q, Wait(s), w[1..], Check(s), [w[0]]), crt := st.crt[s := CrtHeld]);
    assert DoWaitPop(c, st, mid, s);
    StepInv(c, st, mid, CheckStep(s, WaitPop));
    st' := HeldRound(c, mid, s);
    RoundStep(c, st, mid, st', s, CheckStep(s, WaitPop));
    QueuedBelow(c, st, Wait(s), 0);
    ReadyRecord(c, st, w[0].id);
  }

  /** Task t leaves the wait queue or the checking thread for a ready queue. */
  ghost predicate Dispatches(c: Config, st: State, st': State, t: Task) {
    CanReach(c, st, st') && Inv(c, st') && Measure(c, st') < Measure(c, st) && InReadyQueue(st', t)
  }

  lemma DispatchesLater(c: Config, st: State, mid: State, st': State, s: Sched, t: Task)
    requires Rounded(c, st, mid, s) && Dispatches(c, mid, st', t)
    ensures Dispatches(c, st, st', t)
  {
    hide Inv, CanReach, Measure, InReadyQueue;
    ReachTrans(c, st, mid, st');
  }

  /** The task at any place of a wait queue can be dispatched if it is ready. */
  lemma {:induction false} WaitDispatch(c: Config, st: State, s: Sched, j: nat) returns (st': State)
    requires WellFormed(c) && Inv(c, st) && s < c.numSched && s in st.started && CrtAt(st.crt, s).CrtIdle?
    requires j < |At(st.q, Wait(s))| && Ready(c, st.notified, At(st.q, Wait(s))[j].id)
    ensures Dispatches(c, st, st', At(st.q, Wait(s))[j].id)
    decreases j
  {
    hide WellFormed, Inv, CanReach, Measure, Ready, InReadyQueue;
    var mid := HeadRound(c, st, s);
    if j == 0 {
      st' := mid;
    } else {
      assert At(mid.q, Wait(s))[j - 1] == At(st.q, Wait(s))[j];
      st' := WaitDispatch(c, mid, s, j - 1);
      DispatchesLater(c, st, mid, st', s, At(st.q, Wait(s))[j].id);
    }
  }

  /** From a wait queue or a checking thread a ready task can be dispatched. */
  lemma ReadyDispatch(c: Config, st: State, s: Sched, p: Place, t: Task) returns (st': State)
    requires WellFormed(c) && Inv(c, st) && s < c.numSched && s in st.started
    requires p in {Wait(s), Check(s)} && Cnt(st.q, p, t) > 0 && Ready(c, st.notified, t)
    ensures Dispatches(c, st, st', t)
  {
    hide WellFormed, Inv, CanReach, Measure, Ready, Cnt, InReadyQueue;
    var mid := CheckRound(c, st, s);
    var i := CntIndex(st.q, p, t);
    if p == Check(s) && SentOff(c, st, mid, s) {
      OnlyAtCheck(st.q, s, t);
      st' := mid;
    } else {
      var j := if p == Wait(s) then i else |At(st.q, Wait(s))| + i;
      assert At(mid.q, Wait(s))[j].id == t;
      st' := WaitDispatch(c, mid, s, j);
      DispatchesLater(c, st, mid, st', s, t);
    }
  }

  lemma ReadyProgress(c: Config, st: State, s: Sched, p: Place, t: Task)
    requires WellFormed(c) && Inv(c, st) && s < c.numSched && s in st.started
    requires p in {Wait(s), Check(s)} && Cnt(st.q, p, t) > 0 && Ready(c, st.notified, t)
    ensures Progressed(c, st)
  {
    hide WellFormed, Inv, CanReach, Measure, Ready, Cnt, InReadyQueue;
    var st' := ReadyDispatch(c, st, s, p, t);
    assert Nearer(c, st, st');
  }
}
