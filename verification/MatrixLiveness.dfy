/** Every fair behaviour of an acyclic task graph completes. */
module MatrixLiveness {
  import opened MatrixModel
  import opened MatrixInvariant
  import opened MatrixBasics
  import opened MatrixDispatch
  import opened MatrixRecord
  import opened MatrixMeasure
  import opened MatrixTheorems
  import opened MatrixProgress
  import opened MatrixCompletion
  import opened MatrixFairness

  // ---------- Every scheduler starts ----------

  ghost function RecvStage(st: State, s: Sched): int {
    if RecvAt(st.recv, s).RecvSeen? then (if RecvSwaps(st, s) then 1 else 2) else 0
  }

  lemma RecvFalls(c: Config, st: State, st': State, o: Option<Step>, s: Sched)
    requires IdleMove(c, st, st', o)
    ensures 0 <= RecvStage(st', s) <= RecvStage(st, s)
    ensures o.Some? && ThreadOf(o.value) == ClientThread(s) ==> RecvStage(st', s) < RecvStage(st, s)
  {
    hide CheckNext, BalanceNext, ExecNext, NotifyNext, RecordNext, CheckWeight, NotifySwaps, Frozen;
    FrozenStep(c, st, st', o);
    if o.Some? && ThreadOf(o.value) == ClientThread(s) {
      RecvFailure(c, st, st', s, o.value.client);
    } else {
      RecvElsewhere(c, st, st', o, s);
    }
  }

  lemma RecvFailure(c: Config, st: State, st': State, s: Sched, a: ClientAct)
    requires ClientNext(c, st, st', s, a) && a.RecvCas? && !RecvSwaps(st, s)
    ensures RecvStage(st', s) == 1 && RecvStage(st, s) == 2
  {
  }

  lemma RecvElsewhere(c: Config, st: State, st': State, o: Option<Step>, s: Sched)
    requires IdleMove(c, st, st', o) && !(o.Some? && ThreadOf(o.value) == ClientThread(s)) && Frozen(st, st')
    ensures RecvAt(st'.recv, s) == RecvAt(st.recv, s) && RecvStage(st', s) == RecvStage(st, s)
  {
    hide CheckNext, BalanceNext, ExecNext, NotifyNext, RecordNext, CheckWeight, NotifySwaps;
    match o
    case None =>
    case Some(ClientStep(s1, a)) =>
    case Some(CheckStep(s1, a)) => CheckRecv(c, st, st', s1, a);
    case Some(BalanceStep(s1, a)) => BalanceArrivals(c, st, st', s1, a);
    case Some(NotifyStep(s1, a)) => NotifyArrivals(c, st, st', s1, a);
    case Some(RecordStep(s1, a)) => RecordArrivals(c, st, st', s1, a);
  }

  lemma CheckRecv(c: Config, st: State, st': State, s: Sched, a: CheckAct)
    requires CheckNext(c, st, st', s, a)
    ensures st'.recv == st.recv
  {
    hide Decide;
  }

  /** Scheduler s has something to receive. */
  ghost predicate Expects(c: Config, st: State, s: Sched) {
    At(st.q, Client(s)) != [] || (|Batch(c, s)| > 0 && !RecvAt(st.recv, s).RecvDone?)
  }

  lemma ExpectsEnabled(c: Config, st: State, s: Sched)
    requires s < c.numSched && Expects(c, st, s)
    ensures Enabled(c, st, ClientThread(s))
  {
    hide Enabled, CanUse;
    var pc := RecvAt(st.recv, s);
    if At(st.q, Client(s)) != [] {
      ClientCan(c, st, s);
      CanIsEnabled(c, st, ClientThread(s));
    } else if pc.RecvIdle? {
      RecvLookupCan(c, st, s);
      CanIsEnabled(c, st, ClientThread(s));
    } else if pc.seen == st.recvCtr {
      RecvSwapCan(c, st, s);
      CanIsEnabled(c, st, ClientThread(s));
    } else {
      RecvRetryEnabled(c, st, s);
    }
  }

  lemma CanIsEnabled(c: Config, st: State, th: Thread)
    requires CanUse(c, st, th)
    ensures Enabled(c, st, th)
  {
    hide NextStep, Useful;
  }

  lemma RecvRetryEnabled(c: Config, st: State, s: Sched)
    requires s < c.numSched && RecvAt(st.recv, s).RecvSeen? && RecvAt(st.recv, s).seen != st.recvCtr
    ensures Enabled(c, st, ClientThread(s))
  {
    var st' := st.(recv := st.recv[s := RecvSeen(st.recvCtr)]);
    assert DoRecvCas(c, st, st', s);
    assert NextStep(c, st, st', ClientStep(s, RecvCas));
  }

  lemma TailReceived(c: Config, b: Behaviour, m: nat, s: Sched)
    requires Tail(c, b, m) && s < c.numSched
    ensures !Expects(c, b.at(m), s)
  {
    hide WellFormed, IsBehaviour, Fair, IdleMove, Takes, EnabledAt, Expects, RecvStage;
    var th := ClientThread(s);
    var f := (j: nat) => RecvStage(b.at(j), s);
    forall j: nat | m <= j
      ensures Falls(b, th, f, j)
    {
      TailLater(c, b, m, j);
      RecvFallsAt(c, b, j, s);
    }
    var i := Exhausts(c, b, th, f, m);
    if Expects(c, b.at(m), s) { ExpectsLater(c, b, m, s, i); }
  }

  lemma RecvFallsAt(c: Config, b: Behaviour, j: nat, s: Sched)
    requires IdleAt(c, b, j)
    ensures 0 <= RecvStage(b.at(j + 1), s) <= RecvStage(b.at(j), s)
    ensures Takes(b, j, ClientThread(s)) ==> RecvStage(b.at(j + 1), s) < RecvStage(b.at(j), s)
    ensures RecvStage(b.at(j), s) >= 0
  {
    hide IdleMove;
    RecvFalls(c, b.at(j), b.at(j + 1), b.step(j), s);
  }

  lemma ExpectsLater(c: Config, b: Behaviour, m: nat, s: Sched, i: nat)
    requires Tail(c, b, m) && s < c.numSched && Expects(c, b.at(m), s) && m <= i
    ensures EnabledAt(c, b, i, ClientThread(s))
  {
    hide Tail, Enabled;
    FrozenFrom(c, b, m, i);
    ExpectsEnabled(c, b.at(i), s);
    StillEnabled(c, b, m, i, ClientThread(s));
  }

  lemma MainEnabled(c: Config, b: Behaviour, m: nat, s: Sched, i: nat)
    requires Tail(c, b, m) && s < c.numSched && b.at(m).recvCtr == c.n && s !in b.at(m).started && m <= i
    ensures EnabledAt(c, b, i, MainThread(s))
  {
    hide Tail, CanUse, EnabledAt;
    FrozenFrom(c, b, m, i);
    StartCan(c, b.at(i), s);
    CanEnabled(c, b, m, i, MainThread(s));
  }

  lemma TailStarted(c: Config, b: Behaviour, m: nat)
    requires Tail(c, b, m)
    ensures AllStarted(c, b.at(m))
  {
    hide WellFormed, IsBehaviour, Fair, IdleAt, Inv, EnabledAt;
    forall s: nat | s < c.numSched
      ensures At(b.at(m).q, Client(s)) == [] && (|Batch(c, s)| > 0 ==> RecvAt(b.at(m).recv, s).RecvDone?)
    {
      TailReceived(c, b, m, s);
    }
    TailInv(c, b, m, m);
    ArrivedCount(c, b.at(m));
    forall s: nat | s < c.numSched
      ensures s in b.at(m).started
    {
      TailEnded(c, b, m);
      var i := Disabled(c, b, m, MainThread(s));
      if s !in b.at(m).started { MainEnabled(c, b, m, s, i); }
    }
  }

  // ---------- Reports end, and release their mutex ----------

  lemma DoneGrows(c: Config, st: State, st': State, o: Option<Step>)
    requires WellFormed(c) && Inv(c, st) && Inv(c, st') && IdleMove(c, st, st', o)
    ensures st.doneCtr <= st'.doneCtr <= c.n
  {
    hide WellFormed, Inv, CheckNext, BalanceNext, ExecNext, RecordNext, CheckWeight, NotifySwaps, FinOk, StopOk,
         CountedOk;
    CounterFacts(c, st);
    CounterFacts(c, st');
    DoneBound(c, st'.rec, st'.fin, st'.prev, st'.counted, st'.doneCtr, st'.stopped, st'.ranAt);
    match o
    case None =>
    case Some(ClientStep(s1, a)) =>
    case Some(CheckStep(s1, a)) => CheckDone(c, st, st', s1, a);
    case Some(BalanceStep(s1, a)) => BalanceDone(c, st, st', s1, a);
    case Some(NotifyStep(s1, a)) => NotifyDone(c, st, st', s1, a);
    case Some(RecordStep(s1, a)) => RecordDone(c, st, st', s1, a);
  }

  lemma CheckDone(c: Config, st: State, st': State, s: Sched, a: CheckAct)
    requires CheckNext(c, st, st', s, a)
    ensures st'.doneCtr == st.doneCtr && st'.rec == st.rec && st'.prev == st.prev && st'.stopped == st.stopped
  {
    hide Decide;
  }

  lemma BalanceDone(c: Config, st: State, st': State, s: Sched, a: BalanceAct)
    requires BalanceNext(c, st, st', s, a)
    ensures st'.doneCtr == st.doneCtr && st'.rec == st.rec && st'.prev == st.prev && st'.stopped == st.stopped
  {
    hide PoppedTops;
  }

  lemma NotifyDone(c: Config, st: State, st': State, s: Sched, a: NotifyAct)
    requires NotifyNext(c, st, st', s, a)
    ensures st'.doneCtr == st.doneCtr && st'.rec == st.rec && st'.prev == st.prev && st'.stopped == st.stopped
  {
  }

  lemma RecordDone(c: Config, st: State, st': State, s: Sched, a: RecordAct)
    requires RecordNext(c, st, st', s, a) && FinOk(st.fin, st.prev, st.counted)
    ensures st.doneCtr <= st'.doneCtr
  {
    assert NumAt(st.prev, s) <= NumAt(st.fin, s);
  }

  /** The reporting thread of s is as it was unless it takes a step. */
  lemma RecordElsewhere(c: Config, st: State, st': State, o: Option<Step>, s: Sched)
    requires IdleMove(c, st, st', o) && !(o.Some? && ThreadOf(o.value) == RecordThread(s))
    ensures RecAt(st'.rec, s) == RecAt(st.rec, s) && NumAt(st'.prev, s) == NumAt(st.prev, s)
            && (s in st'.stopped <==> s in st.stopped)
  {
    hide CheckNext, BalanceNext, ExecNext, CheckWeight, NotifySwaps, NotifyNext;
    match o
    case None =>
    case Some(ClientStep(s1, a)) =>
    case Some(CheckStep(s1, a)) => CheckDone(c, st, st', s1, a);
    case Some(BalanceStep(s1, a)) => BalanceDone(c, st, st', s1, a);
    case Some(NotifyStep(s1, a)) => NotifyDone(c, st, st', s1, a);
    case Some(RecordStep(s1, a)) => RecordOther(c, st, st', s1, a, s);
  }

  lemma RecordOther(c: Config, st: State, st': State, s1: Sched, a: RecordAct, s: Sched)
    requires RecordNext(c, st, st', s1, a) && s != s1
    ensures RecAt(st'.rec, s) == RecAt(st.rec, s) && NumAt(st'.prev, s) == NumAt(st.prev, s)
            && (s in st'.stopped <==> s in st.stopped)
  {
  }

  /** From m on useful steps have ended and the done counter has settled. */
  ghost predicate Settled(c: Config, b: Behaviour, m: nat) {
    Tail(c, b, m) && forall j: nat :: m <= j ==> DoneAt(b, j) == DoneAt(b, m)
  }

  ghost function DoneAt(b: Behaviour, j: nat): int { b.at(j).doneCtr }

  lemma SettledLater(c: Config, b: Behaviour, m: nat, j: nat)
    requires Settled(c, b, m) && m <= j
    ensures Settled(c, b, j) && IdleAt(c, b, j) && Inv(c, b.at(j)) && Inv(c, b.at(j + 1)) && Frozen(b.at(m), b.at(j))
    ensures b.at(j + 1).doneCtr == b.at(j).doneCtr == b.at(m).doneCtr
  {
    hide Tail, Frozen, Inv, IdleAt;
    TailLater(c, b, m, j);
    TailInv(c, b, m, j);
    TailInv(c, b, m, j + 1);
    FrozenFrom(c, b, m, j);
    assert DoneAt(b, j) == DoneAt(b, m) && DoneAt(b, j + 1) == DoneAt(b, m);
  }

  lemma Settling(c: Config, b: Behaviour, m: nat) returns (i: nat)
    requires Tail(c, b, m)
    ensures m <= i && Settled(c, b, i)
  {
    hide IsBehaviour, Fair, WellFormed, IdleMove, Inv;
    var f := (j: nat) => c.n - b.at(j).doneCtr;
    forall j: nat | m <= j
      ensures Descends(f, j)
    {
      assert IdleAt(c, b, j);
      TailInv(c, b, m, j);
      TailInv(c, b, m, j + 1);
      DoneGrows(c, b.at(j), b.at(j + 1), b.step(j));
    }
    i := Settle(f, m);
    forall j: nat | i <= j
      ensures DoneAt(b, j) == DoneAt(b, i)
    {
      assert f(j) == f(i);
    }
    TailLater(c, b, m, i);
  }

  // ---------- Reporting threads release the mutex of the finish counter ----------

  ghost predicate Reporting(st: State, s: Sched) { RecAt(st.rec, s).RecLocked? || RecAt(st.rec, s).RecSwapped? }

  ghost function LockStage(st: State, s: Sched): int {
    match RecAt(st.rec, s)
    case RecSwapped => 1
    case RecLocked(seen) => if seen == st.doneCtr then 2 else 3
    case _ => 0
  }

  lemma LockOwn(c: Config, st: State, st': State, s: Sched, a: RecordAct)
    requires RecordNext(c, st, st', s, a) && st'.doneCtr == st.doneCtr && Reporting(st, s)
    ensures 0 <= LockStage(st', s) < LockStage(st, s)
  {
  }

  lemma LockOther(st: State, st': State, s: Sched)
    requires RecAt(st'.rec, s) == RecAt(st.rec, s) && st'.doneCtr == st.doneCtr && Reporting(st, s)
    ensures 0 <= LockStage(st', s) == LockStage(st, s)
  {
  }

  lemma LockFalls(c: Config, st: State, st': State, o: Option<Step>, s: Sched)
    requires IdleMove(c, st, st', o) && st'.doneCtr == st.doneCtr && Reporting(st, s)
    ensures 0 <= LockStage(st', s) <= LockStage(st, s)
    ensures o.Some? && ThreadOf(o.value) == RecordThread(s) ==> LockStage(st', s) < LockStage(st, s)
  {
    hide ClientNext, CheckNext, BalanceNext, ExecNext, CheckWeight, NotifySwaps, NotifyNext, RecordNext, LockStage,
         Reporting;
    if o.Some? && ThreadOf(o.value) == RecordThread(s) {
      LockOwn(c, st, st', s, o.value.record);
    } else {
      RecordElsewhere(c, st, st', o, s);
      LockOther(st, st', s);
    }
  }

  lemma Enables(c: Config, st: State, st': State, step: Step)
    requires NextStep(c, st, st', step)
    ensures Enabled(c, st, ThreadOf(step))
  {
    hide NextStep;
  }

  lemma UnlockEnabled(c: Config, st: State, s: Sched)
    requires s < c.numSched && RecAt(st.rec, s).RecSwapped?
    ensures Enabled(c, st, RecordThread(s))
  {
    hide Enabled;
    var st' := st.(prev := st.prev[s := NumAt(st.fin, s)], rec := st.rec[s := RecIdle]);
    assert DoRecUnlock(c, st, st', s);
    Enables(c, st, st', RecordStep(s, RecUnlock));
  }

  lemma CasEnabled(c: Config, st: State, s: Sched)
    requires s < c.numSched && RecAt(st.rec, s).RecLocked?
    ensures Enabled(c, st, RecordThread(s))
  {
    hide Enabled;
    var seen := RecAt(st.rec, s).seen;
    var ok := st.doneCtr == seen;
    var st' := st.(doneCtr := if ok then seen + (NumAt(st.fin, s) - NumAt(st.prev, s)) else st.doneCtr,
                   rec := st.rec[s := if ok || st.doneCtr == c.n then RecSwapped else RecLocked(st.doneCtr)]);
    assert DoRecCas(c, st, st', s);
    Enables(c, st, st', RecordStep(s, RecCas));
  }

  lemma ReportingEnabled(c: Config, st: State, s: Sched)
    requires s < c.numSched && Reporting(st, s)
    ensures Enabled(c, st, RecordThread(s))
  {
    hide Enabled;
    if RecAt(st.rec, s).RecSwapped? { UnlockEnabled(c, st, s); } else { CasEnabled(c, st, s); }
  }

  ghost predicate ReportingAt(b: Behaviour, j: nat, s: Sched) { Reporting(b.at(j), s) }

  /** Again and again the mutex is free. */
  lemma MutexReleased(c: Config, b: Behaviour, m: nat, s: Sched, i: nat) returns (j: nat)
    requires Settled(c, b, m) && s < c.numSched && m <= i
    ensures i <= j && !Reporting(b.at(j), s)
  {
    hide Settled, IdleMove, Inv, LockStage, Reporting, Fair, WellFormed, IsBehaviour, EnabledAt;
    if k: nat :| i <= k && !ReportingAt(b, k, s) {
      j := k;
    } else {
      var th := RecordThread(s);
      var f := (j: nat) => LockStage(b.at(j), s);
      SettledTail(c, b, m);
      forall k: nat | i <= k
        ensures Falls(b, th, f, k)
      {
        SettledLater(c, b, m, k);
        assert ReportingAt(b, k, s) && ReportingAt(b, k + 1, s);
        LockFallsAt(c, b, k, s);
      }
      j := Exhausts(c, b, th, f, i);
      assert ReportingAt(b, j, s);
      ReportingLater(c, b, m, j, s);
    }
  }

  lemma SettledTail(c: Config, b: Behaviour, m: nat)
    requires Settled(c, b, m)
    ensures Tail(c, b, m) && Fair(c, b) && WellFormed(c)
  {
  }

  lemma LockFallsAt(c: Config, b: Behaviour, j: nat, s: Sched)
    requires IdleAt(c, b, j) && b.at(j + 1).doneCtr == b.at(j).doneCtr && ReportingAt(b, j, s)
    ensures 0 <= LockStage(b.at(j + 1), s) <= LockStage(b.at(j), s)
    ensures Takes(b, j, RecordThread(s)) ==> LockStage(b.at(j + 1), s) < LockStage(b.at(j), s)
  {
    hide IdleMove, LockStage;
    LockFalls(c, b.at(j), b.at(j + 1), b.step(j), s);
  }

  lemma ReportingLater(c: Config, b: Behaviour, m: nat, j: nat, s: Sched)
    requires Tail(c, b, m) && s < c.numSched && ReportingAt(b, j, s)
    ensures EnabledAt(c, b, j, RecordThread(s))
  {
    hide Tail, Enabled;
    ReportingEnabled(c, b.at(j), s);
    StillEnabled(c, b, m, j, RecordThread(s));
  }

  // ---------- Cores become idle ----------

  lemma CoreLater(c: Config, b: Behaviour, m: nat, s: Sched, k: nat, i: nat) returns (j: nat)
    requires Settled(c, b, m) && m <= i && !CoreAt(b.at(m).core, Core(s, k)).CoreIdle?
    ensures i <= j && EnabledAt(c, b, j, CoreThread(s, k))
  {
    hide Settled, IdleMove, Inv, EnabledAt, CanUse, Reporting, IdleAt;
    SettledLater(c, b, m, m);
    CoreValid(c, b.at(m), Core(s, k));
    if CoreAt(b.at(m).core, Core(s, k)).CoreCounting? {
      j := MutexReleased(c, b, m, s, i);
      SettledLater(c, b, m, j);
      FreeMutex(b.at(j), s);
      CountCan(c, b.at(j), s, k);
    } else {
      j := i;
      SettledLater(c, b, m, j);
      CoreCan(c, b.at(j), s, k);
    }
    SettledTail(c, b, m);
    CanEnabled(c, b, m, j, CoreThread(s, k));
  }

  lemma FreeMutex(st: State, s: Sched)
    requires !Reporting(st, s)
    ensures !RecAt(st.rec, s).RecLocked? && !RecAt(st.rec, s).RecSwapped?
  {
  }

  lemma CoresIdle(c: Config, b: Behaviour, m: nat, p: Place)
    requires Settled(c, b, m)
    ensures CoreAt(b.at(m).core, p).CoreIdle?
  {
    hide Settled, Inv, EnabledAt, IdleAt;
    if !CoreAt(b.at(m).core, p).CoreIdle? {
      SettledLater(c, b, m, m);
      CoreValid(c, b.at(m), p);
      SettledTail(c, b, m);
      TailEnded(c, b, m);
      var i := Disabled(c, b, m, CoreThread(p.s, p.k));
      var j := CoreLater(c, b, m, p.s, p.k, i);
    }
  }

  // ---------- Notifications end ----------

  ghost function NotifyStage(st: State, s: Sched): int {
    if CctAt(st.cct, s).CctRead? then (if NotifySwaps(st, s) then 1 else 2) else 0
  }

  lemma NotifyOwn(c: Config, st: State, st': State, s: Sched)
    requires DoNotifyCas(c, st, st', s) && !NotifySwaps(st, s)
    ensures NotifyStage(st', s) == 1 && NotifyStage(st, s) == 2
  {
  }

  lemma NotifyOther(st: State, st': State, s: Sched)
    requires CctAt(st'.cct, s) == CctAt(st.cct, s) && st'.zht == st.zht
    ensures 0 <= NotifyStage(st', s) == NotifyStage(st, s)
  {
  }

  lemma NotifyElsewhere(c: Config, st: State, st': State, o: Option<Step>, s: Sched)
    requires IdleMove(c, st, st', o) && !(o.Some? && ThreadOf(o.value) == NotifyThread(s))
    ensures CctAt(st'.cct, s) == CctAt(st.cct, s)
  {
    hide ClientNext, CheckNext, BalanceNext, ExecNext, NotifyNext, RecordNext, CheckWeight, NotifySwaps, RecvSwaps;
    match o
    case None =>
    case Some(ClientStep(s1, a)) => ClientCct(c, st, st', s1, a);
    case Some(CheckStep(s1, a)) => CheckCct(c, st, st', s1, a);
    case Some(BalanceStep(s1, a)) => BalanceCct(c, st, st', s1, a);
    case Some(NotifyStep(s1, a)) => CasCct(c, st, st', s1, a, s);
    case Some(RecordStep(s1, a)) => RecordArrivals(c, st, st', s1, a);
  }

  lemma ClientCct(c: Config, st: State, st': State, s: Sched, a: ClientAct)
    requires ClientNext(c, st, st', s, a)
    ensures st'.cct == st.cct
  {
  }

  lemma CasCct(c: Config, st: State, st': State, s1: Sched, a: NotifyAct, s: Sched)
    requires NotifyNext(c, st, st', s1, a) && a.NotifyCas? && s != s1
    ensures CctAt(st'.cct, s) == CctAt(st.cct, s)
  {
  }

  lemma CheckCct(c: Config, st: State, st': State, s: Sched, a: CheckAct)
    requires CheckNext(c, st, st', s, a)
    ensures st'.cct == st.cct
  {
    hide Decide;
  }

  lemma BalanceCct(c: Config, st: State, st': State, s: Sched, a: BalanceAct)
    requires BalanceNext(c, st, st', s, a)
    ensures st'.cct == st.cct
  {
    hide PoppedTops;
  }

  lemma NotifyFalls(c: Config, b: Behaviour, j: nat, s: Sched)
    requires IdleAt(c, b, j)
    ensures 0 <= NotifyStage(b.at(j + 1), s) <= NotifyStage(b.at(j), s)
    ensures Takes(b, j, NotifyThread(s)) ==> NotifyStage(b.at(j + 1), s) < NotifyStage(b.at(j), s)
    ensures NotifyStage(b.at(j), s) >= 0
  {
    hide NotifyStage, NotifySwaps, ClientNext, CheckNext, BalanceNext, ExecNext, RecordNext, CheckWeight, Frozen;
    var st, st', o := b.at(j), b.at(j + 1), b.step(j);
    if Takes(b, j, NotifyThread(s)) {
      NotifyOwn(c, st, st', s);
    } else {
      FrozenStep(c, st, st', o);
      NotifyElsewhere(c, st, st', o, s);
      SameZht(st, st');
      NotifyOther(st, st', s);
    }
  }

  lemma SameZht(st: State, st': State)
    requires Frozen(st, st')
    ensures st'.zht == st.zht
  {
  }

  /** The completion thread of s has something to do. */
  ghost predicate Completes(st: State, s: Sched) { !CctAt(st.cct, s).CctIdle? || At(st.q, Complete(s)) != [] }

  lemma CompletesEnabled(c: Config, st: State, s: Sched)
    requires Inv(c, st) && s < c.numSched && s in st.started && Completes(st, s)
    ensures Enabled(c, st, NotifyThread(s))
  {
    hide Inv, Enabled, CanUse, NotifySwaps, NextStep;
    if CctAt(st.cct, s).CctRead? && !NotifySwaps(st, s) {
      var mid := RetryStep(c, st, s);
      Enables(c, st, mid, NotifyStep(s, NotifyCas));
    } else {
      if CctAt(st.cct, s).CctIdle? { CompleteCan(c, st, s); } else { NotifyCan(c, st, s); }
      CanIsEnabled(c, st, NotifyThread(s));
    }
  }

  lemma CompletesLater(c: Config, b: Behaviour, m: nat, s: Sched, i: nat)
    requires Tail(c, b, m) && s < c.numSched && Completes(b.at(m), s) && m <= i
    ensures EnabledAt(c, b, i, NotifyThread(s))
  {
    hide Tail, Enabled, Inv;
    FrozenFrom(c, b, m, i);
    TailStarted(c, b, m);
    TailInv(c, b, m, i);
    CompletesEnabled(c, b.at(i), s);
    StillEnabled(c, b, m, i, NotifyThread(s));
  }

  lemma TailNotified(c: Config, b: Behaviour, m: nat, s: Sched)
    requires Tail(c, b, m) && s < c.numSched
    ensures !Completes(b.at(m), s)
  {
    hide WellFormed, IsBehaviour, Fair, IdleAt, Takes, EnabledAt, Completes, NotifyStage;
    var th := NotifyThread(s);
    var f := (j: nat) => NotifyStage(b.at(j), s);
    forall j: nat | m <= j
      ensures Falls(b, th, f, j)
    {
      NotifyFalls(c, b, j, s);
    }
    var i := Exhausts(c, b, th, f, m);
    if Completes(b.at(m), s) { CompletesLater(c, b, m, s, i); }
  }

  // ---------- Ready queues empty ----------

  lemma LocalLater(c: Config, b: Behaviour, m: nat, s: Sched, i: nat)
    requires Settled(c, b, m) && s < c.numSched && m <= i
    ensures At(b.at(m).q, Local(s)) != [] || At(b.at(i).q, Ws(s)) != [] ==> EnabledAt(c, b, i, CoreThread(s, 0))
    ensures At(b.at(m).q, Migr(s)) != [] ==> EnabledAt(c, b, i, MonitorThread(s))
  {
    hide Settled, Tail, Inv, EnabledAt, CanUse, IdleAt, WellFormed;
    SettledTail(c, b, m);
    SettledLater(c, b, m, i);
    TailStarted(c, b, m);
    CoresIdle(c, b, m, Core(s, 0));
    WfCores(c);
    if At(b.at(m).q, Local(s)) != [] {
      ReadyQueueCan(c, b.at(i), s, Local(s));
      CanEnabled(c, b, m, i, CoreThread(s, 0));
    } else if At(b.at(i).q, Ws(s)) != [] {
      ReadyQueueCan(c, b.at(i), s, Ws(s));
      CanEnabled(c, b, m, i, CoreThread(s, 0));
    }
    if At(b.at(m).q, Migr(s)) != [] {
      MigrCan(c, b.at(i), s);
      CanEnabled(c, b, m, i, MonitorThread(s));
    }
  }

  ghost predicate WsEmptyAt(b: Behaviour, j: nat, s: Sched) { At(b.at(j).q, Ws(s)) == [] }

  ghost predicate StealEmptyAt(b: Behaviour, j: nat, s: Sched) { At(b.at(j).q, Steal(s)) == [] }

  /** From some point on the stealing queue of s is empty; the local queue and the migration buffer have been so. */
  lemma QueuesEmpty(c: Config, b: Behaviour, m: nat, s: Sched) returns (i: nat)
    requires Settled(c, b, m) && s < c.numSched
    ensures m <= i && forall j: nat :: i <= j ==> WsEmptyAt(b, j, s)
    ensures At(b.at(m).q, Local(s)) == [] && At(b.at(m).q, Migr(s)) == []
  {
    hide Settled, Tail, Ended, EnabledAt;
    SettledTail(c, b, m);
    TailEnded(c, b, m);
    i := Disabled(c, b, m, CoreThread(s, 0));
    var i' := Disabled(c, b, m, MonitorThread(s));
    LocalLater(c, b, m, s, i);
    LocalLater(c, b, m, s, i');
    forall j: nat | i <= j
      ensures WsEmptyAt(b, j, s)
    {
      LocalLater(c, b, m, s, j);
    }
  }

  lemma StealStays(c: Config, st: State, st': State, o: Option<Step>, s: Sched)
    requires IdleMove(c, st, st', o) && At(st.q, Steal(s)) != [] && At(st'.q, Ws(s)) == []
    ensures At(st'.q, Steal(s)) != [] && !(o.Some? && ThreadOf(o.value) == StealThread(s))
  {
    hide ClientNext, CheckNext, ExecNext, RecordNext, NotifyNext, CheckWeight, NotifySwaps;
    match o
    case None =>
    case Some(ClientStep(s1, a)) => FrozenStealClient(c, st, st', s1, a);
    case Some(CheckStep(s1, a)) => FrozenStealCheck(c, st, st', s1, a);
    case Some(BalanceStep(s1, a)) => StealBalance(c, st, st', s1, a, s);
    case Some(NotifyStep(s1, a)) => FrozenStealNotify(c, st, st', s1, a);
    case Some(RecordStep(s1, a)) => RecordArrivals(c, st, st', s1, a);
  }

  lemma FrozenStealClient(c: Config, st: State, st': State, s: Sched, a: ClientAct)
    requires ClientNext(c, st, st', s, a) && a.RecvCas?
    ensures st'.q == st.q
  {
  }

  lemma FrozenStealCheck(c: Config, st: State, st': State, s: Sched, a: CheckAct)
    requires CheckNext(c, st, st', s, a)
    ensures forall s1: nat :: At(st'.q, Steal(s1)) == At(st.q, Steal(s1))
  {
    hide Decide;
  }

  lemma FrozenStealNotify(c: Config, st: State, st': State, s: Sched, a: NotifyAct)
    requires NotifyNext(c, st, st', s, a) && a.NotifyCas?
    ensures st'.q == st.q
  {
  }

  lemma StealBalance(c: Config, st: State, st': State, s1: Sched, a: BalanceAct, s: Sched)
    requires BalanceNext(c, st, st', s1, a) && (a.StealSend? || a.StealRecv?) && At(st.q, Steal(s)) != []
             && At(st'.q, Ws(s)) == []
    ensures At(st'.q, Steal(s)) != [] && s1 != s
  {
    hide PoppedTops;
  }

  lemma {:induction false} StealKept(c: Config, b: Behaviour, m: nat, s: Sched, i: nat, j: nat)
    requires Tail(c, b, m) && m <= i <= j && !StealEmptyAt(b, i, s) && forall k: nat :: m <= k ==> WsEmptyAt(b, k, s)
    ensures !StealEmptyAt(b, j, s) && !Takes(b, j, StealThread(s))
    decreases j
  {
    hide IdleMove, WellFormed, IsBehaviour, Fair;
    if i < j {
      StealKept(c, b, m, s, i, j - 1);
      assert IdleAt(c, b, j - 1) && WsEmptyAt(b, j, s);
      StealStays(c, b.at(j - 1), b.at(j), b.step(j - 1), s);
    }
    assert IdleAt(c, b, j) && WsEmptyAt(b, j + 1, s);
    StealStays(c, b.at(j), b.at(j + 1), b.step(j), s);
  }

  /** Once the stealing queue stays empty, nothing is on its way to s. */
  lemma StealsEnd(c: Config, b: Behaviour, m: nat, s: Sched, i: nat)
    requires Tail(c, b, m) && s < c.numSched && m <= i && forall k: nat :: m <= k ==> WsEmptyAt(b, k, s)
    ensures StealEmptyAt(b, i, s)
  {
    hide IdleAt, WellFormed, IsBehaviour, Takes, EnabledAt, WsEmptyAt;
    if !StealEmptyAt(b, i, s) {
      var th := StealThread(s);
      var f := (j: nat) => 0;
      forall j: nat | i <= j
        ensures Falls(b, th, f, j)
      {
        StealKept(c, b, m, s, i, j);
      }
      var j := Exhausts(c, b, th, f, i);
      StealKept(c, b, m, s, i, j);
      StealEnabled(c, b, m, j, s);
    }
  }

  lemma StealEnabled(c: Config, b: Behaviour, m: nat, j: nat, s: Sched)
    requires Tail(c, b, m) && s < c.numSched && !StealEmptyAt(b, j, s)
    ensures EnabledAt(c, b, j, StealThread(s))
  {
    hide Tail, Enabled, NextStep;
    var mid := StealRecvStep(c, b.at(j), s);
    Enables(c, b.at(j), mid, BalanceStep(s, StealRecv(|At(b.at(j).q, Steal(s))|)));
    StillEnabled(c, b, m, j, StealThread(s));
  }
}
