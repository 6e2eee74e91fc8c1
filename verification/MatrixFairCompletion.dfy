/**
  The end of every fair behaviour.  As long as no scheduler stops, all threads run: every ready task is
  executed, all finishes are reported, and so, on an acyclic graph, some scheduler stops.  By then
  all tasks are done, and the reporting threads of the other schedulers only have to notice.
*/
module MatrixFairCompletion {
  import opened MatrixModel
  import opened MatrixInvariant
  import opened MatrixBasics
  import opened MatrixDispatch
  import opened MatrixRecord
  import opened MatrixMeasure
  import opened MatrixTheorems
  import opened MatrixProgress
  import opened MatrixCompletion
  import opened MatrixFairness
  import opened MatrixLiveness

  // ---------- Quiet ----------

  lemma {:induction false} AllEmpty(c: Config, b: Behaviour, m: nat, k: nat) returns (i: nat)
    requires Settled(c, b, m) && k <= c.numSched
    ensures m <= i && forall s: nat, j: nat :: s < k && i <= j ==> WsEmptyAt(b, j, s)
    ensures forall s: nat :: s < k ==> At(b.at(m).q, Local(s)) == [] && At(b.at(m).q, Migr(s)) == []
  {
    hide Settled, WsEmptyAt;
    if k == 0 {
      i := m;
    } else {
      var i1 := AllEmpty(c, b, m, k - 1);
      var i2 := QueuesEmpty(c, b, m, k - 1);
      i := if i1 < i2 then i2 else i1;
    }
  }

  /** At last only waiting and checked tasks are left. */
  lemma QuietAt(c: Config, b: Behaviour, m: nat) returns (i: nat)
    requires Settled(c, b, m)
    ensures m <= i && Settled(c, b, i) && Quiet(c, b.at(i))
  {
    hide Settled, Tail, Inv, Frozen, IdleAt, Completes;
    i := AllEmpty(c, b, m, c.numSched);
    SettledLater(c, b, m, i);
    SettledTail(c, b, i);
    forall p
      ensures CoreAt(b.at(i).core, p).CoreIdle?
    {
      CoresIdle(c, b, i, p);
    }
    forall s: nat
      ensures CctAt(b.at(i).cct, s).CctIdle?
      ensures s < c.numSched ==> At(b.at(i).q, Complete(s)) == []
    {
      NotBusy(c, b, i, s);
    }
    forall s: nat | s < c.numSched
      ensures At(b.at(i).q, Ws(s)) == [] && At(b.at(i).q, Steal(s)) == []
      ensures At(b.at(i).q, Local(s)) == [] && At(b.at(i).q, Migr(s)) == []
    {
      assert WsEmptyAt(b, i, s);
      StealsEnd(c, b, i, s, i);
      assert StealEmptyAt(b, i, s);
      FrozenQueues(b.at(m), b.at(i), s);
    }
  }

  lemma FrozenQueues(a: State, d: State, s: Sched)
    requires Frozen(a, d)
    ensures At(d.q, Local(s)) == At(a.q, Local(s)) && At(d.q, Migr(s)) == At(a.q, Migr(s))
            && At(d.q, Finished(s)) == At(a.q, Finished(s))
  {
  }

  lemma NotBusy(c: Config, b: Behaviour, i: nat, s: Sched)
    requires Settled(c, b, i)
    ensures CctAt(b.at(i).cct, s).CctIdle?
    ensures s < c.numSched ==> At(b.at(i).q, Complete(s)) == []
  {
    hide Settled, Tail, Inv, IdleAt, Frozen;
    SettledTail(c, b, i);
    SettledLater(c, b, i, i);
    if !CctAt(b.at(i).cct, s).CctIdle? { CctValid(c, b.at(i), s); }
    if s < c.numSched { TailNotified(c, b, i, s); }
  }

  // ---------- A ready task is not passed over for ever ----------

  /** Position of the first item with id t. */
  ghost function Pos(w: seq<Item>, t: Task): nat {
    if w == [] || w[0].id == t then 0 else 1 + Pos(w[1..], t)
  }

  ghost predicate Queued(w: seq<Item>, t: Task) { exists i :: 0 <= i < |w| && w[i].id == t }

  lemma {:induction false} PosSnoc(w: seq<Item>, x: Item, t: Task)
    ensures Queued(w, t) ==> Pos(w + [x], t) == Pos(w, t)
    ensures !Queued(w, t) && x.id == t ==> Pos(w + [x], t) <= |w|
  {
    if w != [] && w[0].id != t {
      PosSnoc(w[1..], x, t);
      assert (w + [x])[1..] == w[1..] + [x];
      assert Queued(w, t) ==> Queued(w[1..], t) by { QueuedTail(w, t); }
      assert Queued(w[1..], t) ==> Queued(w, t) by { QueuedTail(w, t); }
    }
  }

  lemma QueuedTail(w: seq<Item>, t: Task)
    requires w != [] && w[0].id != t
    ensures Queued(w, t) <==> Queued(w[1..], t)
  {
    if Queued(w, t) {
      var i :| 0 <= i < |w| && w[i].id == t;
      assert w[1..][i - 1].id == t;
    }
    if Queued(w[1..], t) {
      var i :| 0 <= i < |w[1..]| && w[1..][i].id == t;
      assert w[i + 1].id == t;
    }
  }

  ghost function CrtStage(pc: CrtPc): int { match pc case CrtLooked(_) => 1 case CrtHeld => 2 case _ => 0 }

  /** How many steps of the checking thread of s lie before the lookup that finds t ready. */
  ghost function Distance(st: State, s: Sched, t: Task): int {
    if Queued(At(st.q, Wait(s)), t) then 3 * Pos(At(st.q, Wait(s)), t) + 3 + CrtStage(CrtAt(st.crt, s))
    else if CrtAt(st.crt, s).CrtLooked? then 3 * |At(st.q, Wait(s))| + 4
    else 0
  }

  /** Task t waits at s, or is being checked there. */
  ghost predicate Here(st: State, s: Sched, t: Task) {
    Queued(At(st.q, Wait(s)), t) || (|At(st.q, Check(s))| == 1 && At(st.q, Check(s))[0].id == t)
  }

  lemma HeadOnce(q: Queues, p: Place)
    requires At(q, p) != [] && Cnt(q, p, At(q, p)[0].id) <= 1
    ensures !Queued(At(q, p)[1..], At(q, p)[0].id)
  {
    var w := At(q, p);
    IdsHead(w);
    if Queued(w[1..], w[0].id) { QueuedCount(w[1..], w[0].id); }
  }

  lemma QueuedCount(w: seq<Item>, t: Task)
    requires Queued(w, t)
    ensures multiset(Ids(w))[t] > 0
  {
    var i :| 0 <= i < |w| && w[i].id == t;
    assert Ids(w)[i] in multiset(Ids(w));
  }

  lemma PopDistance(c: Config, st: State, st': State, s: Sched, t: Task)
    requires DoWaitPop(c, st, st', s) && Here(st, s, t) && At(st.q, Check(s)) == []
    requires !Queued(At(st.q, Wait(s))[1..], At(st.q, Wait(s))[0].id)
    ensures Here(st', s, t) && 0 <= Distance(st', s, t) < Distance(st, s, t)
  {
    var w := At(st.q, Wait(s));
    assert At(st'.q, Wait(s)) == w[1..] && At(st'.q, Check(s)) == [w[0]];
    if w[0].id != t { QueuedTail(w, t); }
  }

  lemma LookupDistance(c: Config, st: State, st': State, s: Sched, t: Task)
    requires DoCrtLookup(c, st, st', s) && Here(st, s, t) && !FindsReady(st, s) && ZhtAt(st.zht, t).indegree == 0
    ensures Here(st', s, t) && 0 <= Distance(st', s, t) < Distance(st, s, t)
  {
  }

  lemma ReturnDistance(c: Config, st: State, st': State, s: Sched, t: Task)
    requires DoCrtReturn(c, st, st', s) && Here(st, s, t)
    ensures Here(st', s, t) && 0 <= Distance(st', s, t) < Distance(st, s, t)
  {
    var w, x := At(st.q, Wait(s)), At(st.q, Check(s))[0];
    var w' := w + [x];
    assert At(st'.q, Wait(s)) == w';
    PosSnoc(w, x, t);
    if Queued(w, t) {
      var i :| 0 <= i < |w| && w[i].id == t;
      assert w'[i].id == t;
    } else {
      assert w'[|w|].id == t;
    }
  }

  lemma CheckSlotEmpty(c: Config, st: State, s: Sched)
    requires Inv(c, st) && CrtAt(st.crt, s).CrtIdle?
    ensures At(st.q, Check(s)) == [] && forall t: nat :: Cnt(st.q, Wait(s), t) <= 1
  {
    hide Stages, NotesOk, Records, Notifiers, CompleteOk, Checkers, Stored, Cores, InputsOk, History,
         Received, Accounted, CountStages, CountedOk, CountingOk, CctDomain, CoreDomain, RecDomain, CrtDomain, Cnt;
  }

  /** A step of the checking thread of s that is not useful. */
  lemma CheckOwn(c: Config, st: State, st': State, s: Sched, a: CheckAct, t: Task)
    requires Inv(c, st) && CheckNext(c, st, st', s, a) && CheckWeight(0, st, s, a) <= 0
    requires Here(st, s, t) && ZhtAt(st.zht, t).indegree == 0
    ensures Here(st', s, t) && 0 <= Distance(st', s, t) < Distance(st, s, t)
  {
    hide Inv, Here, Distance, FindsReady, Queued;
    match a
    case WaitPop =>
      CheckSlotEmpty(c, st, s);
      HeadOnce(st.q, Wait(s));
      PopDistance(c, st, st', s, t);
    case CrtLookup => LookupDistance(c, st, st', s, t);
    case CrtReturn => ReturnDistance(c, st, st', s, t);
  }

  lemma CheckElsewhere(c: Config, st: State, st': State, o: Option<Step>, s: Sched)
    requires IdleMove(c, st, st', o) && !(o.Some? && ThreadOf(o.value) == CheckThread(s))
    ensures At(st'.q, Wait(s)) == At(st.q, Wait(s)) && At(st'.q, Check(s)) == At(st.q, Check(s))
            && CrtAt(st'.crt, s) == CrtAt(st.crt, s)
  {
    hide ClientNext, CheckNext, BalanceNext, ExecNext, RecordNext, NotifyNext, CheckWeight, NotifySwaps, RecvSwaps;
    match o
    case None =>
    case Some(ClientStep(s1, a)) => RecvCrt(c, st, st', s1, a);
    case Some(CheckStep(s1, a)) => CheckOther(c, st, st', s1, a, s);
    case Some(BalanceStep(s1, a)) => StealCrt(c, st, st', s1, a, s);
    case Some(NotifyStep(s1, a)) => CasCrt(c, st, st', s1, a);
    case Some(RecordStep(s1, a)) => RecordArrivals(c, st, st', s1, a);
  }

  lemma RecvCrt(c: Config, st: State, st': State, s: Sched, a: ClientAct)
    requires ClientNext(c, st, st', s, a) && a.RecvCas?
    ensures st'.q == st.q && st'.crt == st.crt
  {
  }

  lemma CasCrt(c: Config, st: State, st': State, s: Sched, a: NotifyAct)
    requires NotifyNext(c, st, st', s, a) && a.NotifyCas?
    ensures st'.q == st.q && st'.crt == st.crt
  {
  }

  lemma CheckOther(c: Config, st: State, st': State, s1: Sched, a: CheckAct, s: Sched)
    requires CheckNext(c, st, st', s1, a) && s != s1 && CheckWeight(0, st, s1, a) <= 0
    ensures At(st'.q, Wait(s)) == At(st.q, Wait(s)) && At(st'.q, Check(s)) == At(st.q, Check(s))
            && CrtAt(st'.crt, s) == CrtAt(st.crt, s)
  {
    hide Decide;
  }

  lemma StealCrt(c: Config, st: State, st': State, s1: Sched, a: BalanceAct, s: Sched)
    requires BalanceNext(c, st, st', s1, a) && (a.StealSend? || a.StealRecv?)
    ensures At(st'.q, Wait(s)) == At(st.q, Wait(s)) && At(st'.q, Check(s)) == At(st.q, Check(s)) && st'.crt == st.crt
  {
    hide PoppedTops;
  }

  lemma SameDistance(st: State, st': State, s: Sched, t: Task)
    requires At(st'.q, Wait(s)) == At(st.q, Wait(s)) && At(st'.q, Check(s)) == At(st.q, Check(s))
             && CrtAt(st'.crt, s) == CrtAt(st.crt, s)
    requires Here(st, s, t)
    ensures Here(st', s, t) && 0 <= Distance(st', s, t) == Distance(st, s, t)
  {
  }

  lemma DistanceFalls(c: Config, b: Behaviour, m: nat, j: nat, s: Sched, t: Task)
    requires Tail(c, b, m) && m <= j && Here(b.at(j), s, t) && ZhtAt(b.at(j).zht, t).indegree == 0
    ensures Here(b.at(j + 1), s, t) && 0 <= Distance(b.at(j + 1), s, t) <= Distance(b.at(j), s, t)
    ensures Takes(b, j, CheckThread(s)) ==> Distance(b.at(j + 1), s, t) < Distance(b.at(j), s, t)
  {
    hide Tail, Here, Distance, Inv, CheckNext, CheckWeight, ClientNext, BalanceNext, ExecNext, RecordNext, NotifyNext;
    TailLater(c, b, m, j);
    TailInv(c, b, m, j);
    var st, st', o := b.at(j), b.at(j + 1), b.step(j);
    if Takes(b, j, CheckThread(s)) {
      CheckOwn(c, st, st', s, o.value.check, t);
    } else {
      CheckElsewhere(c, st, st', o, s);
      SameDistance(st, st', s, t);
    }
  }

  lemma {:induction false} StaysHere(c: Config, b: Behaviour, m: nat, j: nat, s: Sched, t: Task)
    requires Tail(c, b, m) && m <= j && Here(b.at(m), s, t) && ZhtAt(b.at(m).zht, t).indegree == 0
    ensures Here(b.at(j), s, t) && ZhtAt(b.at(j).zht, t).indegree == 0
    decreases j
  {
    hide Tail, Here, Distance, Frozen;
    FrozenFrom(c, b, m, j);
    SameZht(b.at(m), b.at(j));
    if m < j {
      StaysHere(c, b, m, j - 1, s, t);
      DistanceFalls(c, b, m, j - 1, s, t);
    }
  }

  lemma HeldEnabled(c: Config, st: State, s: Sched)
    requires s < c.numSched && |At(st.q, Check(s))| == 1 && CrtAt(st.crt, s).CrtHeld?
    ensures Enabled(c, st, CheckThread(s))
  {
    hide Enabled;
    var st' := st.(crt := st.crt[s := CrtLooked(ZhtAt(st.zht, At(st.q, Check(s))[0].id))]);
    assert DoCrtLookup(c, st, st', s);
    Enables(c, st, st', CheckStep(s, CrtLookup));
  }

  lemma LookedEnabled(c: Config, st: State, s: Sched)
    requires s < c.numSched && |At(st.q, Check(s))| == 1 && CrtAt(st.crt, s).CrtLooked?
    ensures Enabled(c, st, CheckThread(s))
  {
    hide Enabled, Decide;
    if CrtAt(st.crt, s).v.indegree == 0 {
      var st' := st.(crt := st.crt[s := Decide(c, s, CrtAt(st.crt, s).v, DataAt(st.data, s))]);
      assert DoCrtDecide(c, st, st', s);
      Enables(c, st, st', CheckStep(s, CrtDecide));
    } else {
      var st' := st.(q := Move(st.q, Check(s), [], Wait(s), At(st.q, Wait(s)) + [At(st.q, Check(s))[0]]),
                     crt := st.crt[s := CrtIdle]);
      assert DoCrtReturn(c, st, st', s);
      Enables(c, st, st', CheckStep(s, CrtReturn));
    }
  }

  lemma DecidedEnabled(c: Config, st: State, s: Sched)
    requires s < c.numSched && |At(st.q, Check(s))| == 1 && CrtAt(st.crt, s).CrtDecided? && !CrtAt(st.crt, s).to.Lost?
    ensures Enabled(c, st, CheckThread(s))
  {
    hide Enabled;
    var pc, id := CrtAt(st.crt, s), At(st.q, Check(s))[0].id;
    if pc.to.ToPeer? {
      var dst := Local(pc.to.target);
      var st' := st.(q := Move(st.q, Check(s), [], dst, At(st.q, dst) + [Item(id, pc.len)]),
                     crt := st.crt[s := CrtAck]);
      assert DoPushRecv(c, st, st', s);
      Enables(c, st, st', CheckStep(s, PushRecv));
    } else {
      var dst := if pc.to == ToWs then Ws(s) else Local(s);
      var st' := st.(q := Move(st.q, Check(s), [], dst, At(st.q, dst) + [Item(id, pc.len)]),
                     crt := st.crt[s := CrtIdle]);
      assert DoCrtEnqueue(c, st, st', s);
      Enables(c, st, st', CheckStep(s, CrtEnqueue));
    }
  }

  lemma PopEnabled(c: Config, st: State, s: Sched)
    requires s < c.numSched && s in st.started && At(st.q, Wait(s)) != [] && CrtAt(st.crt, s).CrtIdle?
    ensures Enabled(c, st, CheckThread(s))
  {
    hide Enabled;
    var w := At(st.q, Wait(s));
    var st' := st.(q := Move(st.q, Wait(s), w[1..], Check(s), [w[0]]), crt := st.crt[s := CrtHeld]);
    assert DoWaitPop(c, st, st', s);
    Enables(c, st, st', CheckStep(s, WaitPop));
  }

  /** While a task waits or is checked the checking thread can take a step. */
  lemma HereEnabled(c: Config, st: State, s: Sched, t: Task)
    requires Inv(c, st) && s < c.numSched && s in st.started && Here(st, s, t)
    ensures Enabled(c, st, CheckThread(s))
  {
    hide Inv, Enabled, Snapshot;
    match CrtAt(st.crt, s)
    case CrtIdle => CheckEmpty(c, st, s); PopEnabled(c, st, s);
    case CrtAck =>
      var st' := st.(crt := st.crt[s := CrtIdle]);
      assert DoCrtDone(c, st, st', s);
      Enables(c, st, st', CheckStep(s, CrtDone));
    case CrtHeld => CheckerFacts(c, st, s); HeldEnabled(c, st, s);
    case CrtLooked(_) => CheckerFacts(c, st, s); LookedEnabled(c, st, s);
    case CrtDecided(_, _) => CheckerFacts(c, st, s); DecidedEnabled(c, st, s);
  }

  lemma HereLater(c: Config, b: Behaviour, m: nat, j: nat, s: Sched, t: Task)
    requires Tail(c, b, m) && m <= j && s < c.numSched && Here(b.at(m), s, t) && ZhtAt(b.at(m).zht, t).indegree == 0
    ensures EnabledAt(c, b, j, CheckThread(s))
  {
    hide Tail, Here, Enabled, Inv;
    StaysHere(c, b, m, j, s, t);
    FrozenFrom(c, b, m, j);
    TailStarted(c, b, m);
    TailInv(c, b, m, j);
    HereEnabled(c, b.at(j), s, t);
    StillEnabled(c, b, m, j, CheckThread(s));
  }

  /** Once useful steps have ended no ready task waits at a running scheduler. */
  lemma NoneReadyWaits(c: Config, b: Behaviour, m: nat, s: Sched, t: Task)
    requires Tail(c, b, m) && s < c.numSched && ZhtAt(b.at(m).zht, t).indegree == 0
    ensures !Here(b.at(m), s, t)
  {
    hide IdleAt, WellFormed, IsBehaviour, Takes, EnabledAt, Here, Distance;
    if Here(b.at(m), s, t) {
      var th := CheckThread(s);
      var f := (j: nat) => Distance(b.at(j), s, t);
      forall j: nat | m <= j
        ensures Falls(b, th, f, j)
      {
        StaysHere(c, b, m, j, s, t);
        DistanceFalls(c, b, m, j, s, t);
      }
      var i := Exhausts(c, b, th, f, m);
      HereLater(c, b, m, i, s, t);
    }
  }

  // ---------- All tasks are done ----------

  lemma HereAt(q: Queues, st: State, p: Place, t: Task)
    requires q == st.q && Cnt(q, p, t) > 0 && (p.Wait? || p.Check?) && |At(q, Check(p.s))| <= 1
    ensures Here(st, p.s, t)
  {
    var i := CntIndex(q, p, t);
  }

  lemma CheckAtMostOne(c: Config, st: State, s: Sched)
    requires Inv(c, st)
    ensures |At(st.q, Check(s))| <= 1
  {
    hide Conserved, Stages, NotesOk, Records, Notifiers, CompleteOk, Checkers, Stored, Cores, InputsOk, History,
         Received, Accounted, CountStages, CountedOk, CountingOk, CctDomain, CoreDomain, RecDomain, CrtDomain;
  }

  /** At last a task is done if all its parents are. */
  lemma DoneAfterParents(c: Config, b: Behaviour, m: nat, t: Task)
    requires Settled(c, b, m) && Quiet(c, b.at(m)) && t < c.n
    requires forall e: Edge :: e.p < c.n && Into(c, e, t) ==> DoneWith(b.at(m), e.p)
    ensures DoneWith(b.at(m), t)
  {
    hide Settled, Tail, Inv, IdleAt, Frozen, Quiet, DoneWith, Cnt, Ready, Here, WellFormed;
    SettledTail(c, b, m);
    SettledLater(c, b, m, m);
    var st := b.at(m);
    NotifiedByAll(c, st, t);
    ReadyRecord(c, st, t);
    TailStarted(c, b, m);
    var p := QuietPlace(c, st, t);
    if p.Finished? {
      FinishedDone(c, st, p.s, t);
    } else {
      CheckAtMostOne(c, st, p.s);
      HereAt(st.q, st, p, t);
      NoneReadyWaits(c, b, m, p.s, t);
    }
  }

  lemma TasksDone(c: Config, b: Behaviour, m: nat)
    requires Settled(c, b, m) && Acyclic(c) && Quiet(c, b.at(m))
    ensures AllTasksDone(c, b.at(m))
  {
    hide Settled, Quiet, DoneWith, Topological, WellFormed, Tail;
    SettledTail(c, b, m);
    if !AllTasksDone(c, b.at(m)) {
      var order :| Topological(c, order);
      var t := FirstUnfinished(c, b.at(m), order);
      DoneAfterParents(c, b, m, t);
    }
  }

  // ---------- All schedulers report ----------

  /** Steps of the reporting thread of s before its next successful compare_swap. */
  ghost function ReportStage(st: State, s: Sched): int {
    match RecAt(st.rec, s)
    case RecIdle => 4
    case RecSeen(_) => 3
    case RecLocked(seen) => if seen == st.doneCtr then 1 else 2
    case RecSwapped => 0
  }

  /** Scheduler s has finishes to report. */
  ghost predicate Owes(st: State, s: Sched) { !RecAt(st.rec, s).RecSwapped? && NumAt(st.prev, s) != NumAt(st.fin, s) }

  lemma OwesOwn(c: Config, st: State, st': State, s: Sched, a: RecordAct)
    requires RecordNext(c, st, st', s, a) && Owes(st, s) && st'.doneCtr == st.doneCtr != c.n
    ensures Owes(st', s) && 0 <= ReportStage(st', s) < ReportStage(st, s)
  {
  }

  lemma OwesOther(st: State, st': State, s: Sched)
    requires RecAt(st'.rec, s) == RecAt(st.rec, s) && NumAt(st'.prev, s) == NumAt(st.prev, s) && st'.fin == st.fin
    requires Owes(st, s) && st'.doneCtr == st.doneCtr
    ensures Owes(st', s) && 0 <= ReportStage(st', s) == ReportStage(st, s)
  {
  }

  lemma SameFin(a: State, d: State)
    requires Frozen(a, d)
    ensures d.fin == a.fin && d.started == a.started && a.stopped <= d.stopped && d.counted == a.counted
  {
  }

  lemma OwesFalls(c: Config, b: Behaviour, m: nat, j: nat, s: Sched)
    requires Settled(c, b, m) && m <= j && Owes(b.at(j), s) && b.at(m).doneCtr != c.n
    ensures Owes(b.at(j + 1), s) && 0 <= ReportStage(b.at(j + 1), s) <= ReportStage(b.at(j), s)
    ensures Takes(b, j, RecordThread(s)) ==> ReportStage(b.at(j + 1), s) < ReportStage(b.at(j), s)
  {
    hide Settled, Owes, ReportStage, Inv, Frozen, RecordNext, CheckNext, CheckWeight, ClientNext, BalanceNext,
         ExecNext, NotifyNext;
    SettledLater(c, b, m, j);
    var st, st', o := b.at(j), b.at(j + 1), b.step(j);
    FrozenStep(c, st, st', o);
    SameFin(st, st');
    if Takes(b, j, RecordThread(s)) {
      OwesOwn(c, st, st', s, o.value.record);
    } else {
      RecordElsewhere(c, st, st', o, s);
      OwesOther(st, st', s);
    }
  }

  lemma {:induction false} OwesLater(c: Config, b: Behaviour, m: nat, j: nat, s: Sched)
    requires Settled(c, b, m) && m <= j && Owes(b.at(m), s) && b.at(m).doneCtr != c.n
    ensures Owes(b.at(j), s)
    decreases j
  {
    hide Settled, Owes;
    if m < j {
      OwesLater(c, b, m, j - 1, s);
      OwesFalls(c, b, m, j - 1, s);
    }
  }

  /** A started scheduler that has not stopped can always take a step of its report. */
  lemma RecordEnabled(c: Config, st: State, s: Sched)
    requires s < c.numSched && (RecAt(st.rec, s).RecIdle? ==> s in st.started && s !in st.stopped)
    ensures Enabled(c, st, RecordThread(s))
  {
    hide Enabled;
    match RecAt(st.rec, s)
    case RecIdle =>
      var st' := st.(stopped := if st.doneCtr == c.n then st.stopped + {s} else st.stopped,
                     rec := if st.doneCtr == c.n then st.rec else st.rec[s := RecSeen(st.doneCtr)]);
      assert DoRecLookup(c, st, st', s);
      Enables(c, st, st', RecordStep(s, RecLookup));
    case RecSeen(seen) =>
      var st' := st.(rec := st.rec[s := RecLocked(seen)]);
      assert DoRecLock(c, st, st', s);
      Enables(c, st, st', RecordStep(s, RecLock));
    case _ => ReportingEnabled(c, st, s);
  }

  lemma StoppedMeans(c: Config, st: State)
    requires Inv(c, st)
    ensures st.stopped != {} ==> st.doneCtr == c.n
    ensures forall s: nat :: s in st.stopped ==> RecAt(st.rec, s).RecIdle?
  {
    hide Conserved, Slots, Stages, NotesOk, Records, Notifiers, CompleteOk, Checkers, Stored, Cores, InputsOk, History,
         Received, CountStages, CountedOk, CountingOk, CctDomain, CoreDomain, RecDomain, CrtDomain, FinOk;
  }

  lemma OwesEnabled(c: Config, b: Behaviour, m: nat, j: nat, s: Sched)
    requires Settled(c, b, m) && m <= j && s < c.numSched && b.at(m).doneCtr != c.n
    ensures EnabledAt(c, b, j, RecordThread(s))
  {
    hide Settled, Tail, Inv, Frozen, Enabled, IdleAt;
    SettledTail(c, b, m);
    SettledLater(c, b, m, j);
    TailStarted(c, b, m);
    SameFin(b.at(m), b.at(j));
    StoppedMeans(c, b.at(j));
    RecordEnabled(c, b.at(j), s);
    StillEnabled(c, b, m, j, RecordThread(s));
  }

  lemma NobodyOwes(c: Config, b: Behaviour, m: nat, s: Sched)
    requires Settled(c, b, m) && s < c.numSched && b.at(m).doneCtr != c.n
    ensures !Owes(b.at(m), s)
  {
    hide Settled, Takes, EnabledAt, Owes, ReportStage;
    if Owes(b.at(m), s) {
      var th := RecordThread(s);
      var f := (j: nat) => ReportStage(b.at(j), s);
      SettledTail(c, b, m);
      forall j: nat | m <= j
        ensures Falls(b, th, f, j)
      {
        OwesLater(c, b, m, j, s);
        OwesFalls(c, b, m, j, s);
      }
      var i := Exhausts(c, b, th, f, m);
      OwesEnabled(c, b, m, i, s);
    }
  }

  /** When nobody owes a report the done counter is the number of tasks. */
  lemma NothingOwed(c: Config, st: State)
    requires WellFormed(c) && Inv(c, st) && AllTasksDone(c, st) && forall s: nat :: s < c.numSched ==> !Owes(st, s)
    ensures st.doneCtr == c.n
  {
    hide WellFormed, Inv, Cnt, CountedOk, FinOk, StopOk, DoneWith;
    CounterFacts(c, st);
    var a, b := DoneParts(c, st.rec, st.fin, st.prev), FinParts(c, st.fin);
    forall s | 0 <= s < c.numSched
      ensures a[s] == b[s]
    {
      assert !Owes(st, s);
    }
    assert a == b;
    AllCounted(c, st);
  }

  lemma DoneReached(c: Config, b: Behaviour, m: nat)
    requires Settled(c, b, m) && AllTasksDone(c, b.at(m))
    ensures b.at(m).doneCtr == c.n
  {
    hide Settled, Tail, Inv, IdleAt, Frozen, AllTasksDone, Owes, WellFormed;
    if b.at(m).doneCtr != c.n {
      forall s: nat | s < c.numSched
        ensures !Owes(b.at(m), s)
      {
        NobodyOwes(c, b, m, s);
      }
      SettledTail(c, b, m);
      SettledLater(c, b, m, m);
      NothingOwed(c, b.at(m));
    }
  }

  // ---------- All schedulers stop ----------

  ghost function StopStage(st: State, s: Sched): int {
    if s in st.stopped then 0
    else
      match RecAt(st.rec, s)
      case RecIdle => 1
      case RecSwapped => 2
      case RecLocked(_) => 3
      case RecSeen(_) => 4
  }

  lemma StopOwn(c: Config, st: State, st': State, s: Sched, a: RecordAct)
    requires RecordNext(c, st, st', s, a) && st.doneCtr == c.n && (s in st.stopped ==> RecAt(st.rec, s).RecIdle?)
    ensures 0 <= StopStage(st', s) < StopStage(st, s)
  {
  }

  lemma StopOther(st: State, st': State, s: Sched)
    requires RecAt(st'.rec, s) == RecAt(st.rec, s) && (s in st'.stopped <==> s in st.stopped)
    ensures 0 <= StopStage(st', s) == StopStage(st, s)
  {
  }

  /** All tasks have been received and reported. */
  ghost predicate ReportedAt(c: Config, b: Behaviour, j: nat) { b.at(j).doneCtr == c.n && b.at(j).recvCtr == c.n }

  /** From m on useful steps have ended and all tasks are known to be done. */
  ghost predicate Concluded(c: Config, b: Behaviour, m: nat) {
    Ended(c, b, m) && forall j: nat :: m <= j ==> ReportedAt(c, b, j)
  }

  lemma ConcludedLater(c: Config, b: Behaviour, m: nat, j: nat)
    requires Concluded(c, b, m) && m <= j
    ensures IdleAt(c, b, j) && Inv(c, b.at(j)) && WellFormed(c) && ReportedAt(c, b, j)
  {
    hide Inv, Fair, WellFormed, IsBehaviour, IdleAt;
    InvAt(c, b, j);
  }

  lemma StopFalls(c: Config, b: Behaviour, m: nat, j: nat, s: Sched)
    requires Concluded(c, b, m) && m <= j
    ensures 0 <= StopStage(b.at(j + 1), s) <= StopStage(b.at(j), s)
    ensures Takes(b, j, RecordThread(s)) ==> StopStage(b.at(j + 1), s) < StopStage(b.at(j), s)
  {
    hide Concluded, StopStage, Inv, WellFormed, RecordNext, CheckNext, CheckWeight, ClientNext, BalanceNext, ExecNext,
         NotifyNext;
    ConcludedLater(c, b, m, j);
    StoppedMeans(c, b.at(j));
    if Takes(b, j, RecordThread(s)) {
      StopOwn(c, b.at(j), b.at(j + 1), s, b.step(j).value.record);
    } else {
      RecordElsewhere(c, b.at(j), b.at(j + 1), b.step(j), s);
      StopOther(b.at(j), b.at(j + 1), s);
    }
  }

  ghost predicate StoppedAt(b: Behaviour, j: nat, s: Sched) { s in b.at(j).stopped }

  lemma StoppedGrows(c: Config, st: State, st': State, step: Step)
    requires NextStep(c, st, st', step)
    ensures st.stopped <= st'.stopped && st.started <= st'.started && (st'.stopped == st.stopped || st'.started != {})
  {
    hide ClientNext, CheckNext, BalanceNext, ExecNext, NotifyNext, RecordNext;
    match step
    case ClientStep(s, a) => ClientStarted(c, st, st', s, a);
    case CheckStep(s, a) => CheckDone(c, st, st', s, a); CheckStarted(c, st, st', s, a);
    case BalanceStep(s, a) => BalanceDone(c, st, st', s, a); BalanceStarted(c, st, st', s, a);
    case ExecStep(s, k, a) => ExecStarted(c, st, st', s, k, a);
    case NotifyStep(s, a) => NotifyStarted(c, st, st', s, a);
    case RecordStep(s, a) => RecordStarted(c, st, st', s, a);
  }

  lemma ClientStarted(c: Config, st: State, st': State, s: Sched, a: ClientAct)
    requires ClientNext(c, st, st', s, a)
    ensures st.started <= st'.started && st'.stopped == st.stopped
  {
  }

  lemma RecordStarted(c: Config, st: State, st': State, s: Sched, a: RecordAct)
    requires RecordNext(c, st, st', s, a)
    ensures st.stopped <= st'.stopped && st'.started == st.started && (st'.stopped == st.stopped || s in st.started)
  {
  }

  lemma CheckStarted(c: Config, st: State, st': State, s: Sched, a: CheckAct)
    requires CheckNext(c, st, st', s, a)
    ensures st'.started == st.started
  {
    hide Decide;
  }

  lemma BalanceStarted(c: Config, st: State, st': State, s: Sched, a: BalanceAct)
    requires BalanceNext(c, st, st', s, a)
    ensures st'.started == st.started
  {
    hide PoppedTops;
  }

  lemma ExecStarted(c: Config, st: State, st': State, s: Sched, k: nat, a: ExecAct)
    requires ExecNext(c, st, st', s, k, a)
    ensures st'.started == st.started && st'.stopped == st.stopped
  {
    hide PoppedTops, InsertNew, Find;
  }

  lemma NotifyStarted(c: Config, st: State, st': State, s: Sched, a: NotifyAct)
    requires NotifyNext(c, st, st', s, a)
    ensures st'.started == st.started && st'.stopped == st.stopped
  {
  }

  /** Who has stopped stays stopped, and somebody had started before. */
  lemma {:induction false} StoppedStays(c: Config, b: Behaviour, i: nat, j: nat)
    requires IsBehaviour(c, b) && i <= j
    ensures b.at(i).stopped <= b.at(j).stopped && b.at(i).started <= b.at(j).started
    ensures b.at(j).stopped != {} ==> b.at(j).started != {}
    decreases j
  {
    hide Init, NextStep;
    if i < j {
      StoppedStays(c, b, i, j - 1);
      assert StepAt(c, b, j - 1);
      if b.step(j - 1).Some? { StoppedGrows(c, b.at(j - 1), b.at(j), b.step(j - 1).value); }
    } else if j > 0 {
      StoppedStays(c, b, j - 1, j - 1);
      assert StepAt(c, b, j - 1);
      if b.step(j - 1).Some? { StoppedGrows(c, b.at(j - 1), b.at(j), b.step(j - 1).value); }
    } else {
      InitStopped(c, b.at(0));
    }
  }

  lemma InitStopped(c: Config, st: State)
    requires Init(c, st)
    ensures st.stopped == {}
  {
  }

  /** Once a scheduler has stopped all tasks are known to be done. */
  lemma Concludes(c: Config, b: Behaviour, i: nat) returns (m: nat)
    requires WellFormed(c) && IsBehaviour(c, b) && Fair(c, b) && !NoneStopped(b, i)
    ensures i <= m && Concluded(c, b, m)
  {
    hide WellFormed, IsBehaviour, Fair, Inv, IdleAt;
    m := UsefulEnds(c, b);
    m := if m < i then i else m;
    forall j: nat | m <= j
      ensures ReportedAt(c, b, j)
    {
      StoppedStays(c, b, i, j);
      InvAt(c, b, j);
      StoppedMeans(c, b.at(j));
      AllReceived(c, b.at(j));
    }
  }

  /** Scheduler s starts, or has stopped. */
  lemma Begins(c: Config, b: Behaviour, m: nat, s: Sched, i: nat) returns (j: nat)
    requires Concluded(c, b, m) && s < c.numSched && m <= i
    ensures i <= j && (s in b.at(j).started || StoppedAt(b, j, s))
  {
    hide Ended, ReportedAt, CanUse, Enabled;
    j := Disabled(c, b, m, MainThread(s));
    j := if j < i then i else j;
    assert ReportedAt(c, b, j) && !EnabledAt(c, b, j, MainThread(s));
    if s !in b.at(j).started && !StoppedAt(b, j, s) { MainCan(c, b, j, s); }
  }

  lemma MainCan(c: Config, b: Behaviour, j: nat, s: Sched)
    requires ReportedAt(c, b, j) && s < c.numSched && s !in b.at(j).started && !StoppedAt(b, j, s)
    ensures EnabledAt(c, b, j, MainThread(s))
  {
    hide CanUse, Enabled;
    StartCan(c, b.at(j), s);
    CanIsEnabled(c, b.at(j), MainThread(s));
  }

  lemma StopEnabled(c: Config, b: Behaviour, j: nat, s: Sched)
    requires s < c.numSched && !StoppedAt(b, j, s) && s in b.at(j).started
    ensures EnabledAt(c, b, j, RecordThread(s))
  {
    hide Enabled;
    RecordEnabled(c, b.at(j), s);
  }

  /** Every scheduler notices that all tasks are done. */
  lemma Stops(c: Config, b: Behaviour, m: nat, s: Sched) returns (i: nat)
    requires Concluded(c, b, m) && s < c.numSched
    ensures m <= i && StoppedAt(b, i, s)
  {
    hide Ended, ReportedAt, Takes, EnabledAt, StoppedAt, StopStage;
    var th := RecordThread(s);
    var f := (j: nat) => StopStage(b.at(j), s);
    forall j: nat | m <= j
      ensures Falls(b, th, f, j)
    {
      StopFalls(c, b, m, j, s);
    }
    EndedFair(c, b, m);
    i := Exhausts(c, b, th, f, m);
    i := Begins(c, b, m, s, i);
    if !StoppedAt(b, i, s) { StopEnabled(c, b, i, s); }
  }

  lemma EndedFair(c: Config, b: Behaviour, m: nat)
    requires Ended(c, b, m)
    ensures WellFormed(c) && IsBehaviour(c, b) && Fair(c, b)
  {
  }

  lemma {:induction false} StopAllTo(c: Config, b: Behaviour, m: nat, k: nat) returns (i: nat)
    requires Concluded(c, b, m) && k <= c.numSched
    ensures m <= i && forall s: nat :: s < k ==> StoppedAt(b, i, s)
  {
    hide Concluded;
    if k == 0 {
      i := m;
    } else {
      var i1 := StopAllTo(c, b, m, k - 1);
      var i2 := Stops(c, b, m, k - 1);
      i := if i1 < i2 then i2 else i1;
      ConcludedBehaviour(c, b, m);
      StoppedStays(c, b, i1, i);
      StoppedStays(c, b, i2, i);
      forall s: nat | s < k
        ensures StoppedAt(b, i, s)
      {
        assert s < k - 1 ==> StoppedAt(b, i1, s);
      }
    }
  }

  lemma ConcludedBehaviour(c: Config, b: Behaviour, m: nat)
    requires Concluded(c, b, m)
    ensures IsBehaviour(c, b) && Fair(c, b) && WellFormed(c)
  {
    hide IsBehaviour, Fair, WellFormed, IdleAt;
  }

  // ---------- Some scheduler stops ----------

  /** While no scheduler stops, at last nothing but waiting tasks is left. */
  lemma QuietEnd(c: Config, b: Behaviour) returns (m: nat)
    requires WellFormed(c) && IsBehaviour(c, b) && Fair(c, b) && forall j: nat :: NoneStopped(b, j)
    ensures Settled(c, b, m) && Quiet(c, b.at(m))
  {
    hide WellFormed, IsBehaviour, Fair, Settled, Quiet, IdleAt, NoneStopped;
    m := UsefulEnds(c, b);
    m := Settling(c, b, m);
    m := QuietAt(c, b, m);
  }

  lemma ReportedLater(c: Config, b: Behaviour, m: nat)
    requires Settled(c, b, m) && b.at(m).doneCtr == c.n
    ensures Concluded(c, b, m)
  {
    hide Settled, Tail, Ended, Inv, Frozen, IdleAt, WellFormed;
    SettledTail(c, b, m);
    TailEnded(c, b, m);
    forall j: nat | m <= j
      ensures ReportedAt(c, b, j)
    {
      SettledLater(c, b, m, j);
      TailLater(c, b, m, j);
      TailStarted(c, b, j);
      WfCores(c);
      assert 0 in b.at(j).started;
      AllReceived(c, b.at(j));
    }
  }

  lemma SomeoneStops(c: Config, b: Behaviour) returns (i: nat)
    requires WellFormed(c) && Acyclic(c) && IsBehaviour(c, b) && Fair(c, b)
    ensures !NoneStopped(b, i)
  {
    hide WellFormed, Acyclic, IsBehaviour, Fair, Settled, Quiet, AllTasksDone, Concluded;
    if j: nat :| !NoneStopped(b, j) {
      i := j;
    } else {
      var m := QuietEnd(c, b);
      TasksDone(c, b, m);
      DoneReached(c, b, m);
      ReportedLater(c, b, m);
      WfCores(c);
      i := Stops(c, b, m, 0);
    }
  }

  // ---------- The theorem ----------

  /** Every task has been executed and counted, every edge has been notified, and all schedulers have stopped. */
  ghost predicate Accomplished(c: Config, st: State) {
    && (forall t: nat :: t < c.n ==> t in st.runs && t in st.ranAt && t in SetAt(st.counted, st.ranAt[t]))
    && (forall t: nat, e: Edge :: t < c.n && e.p < c.n && Into(c, e, t) ==> e in NotesAt(st.notified, t))
    && AllStopped(c, st)
  }

  ghost predicate AccomplishedAt(c: Config, b: Behaviour, j: nat) { Accomplished(c, b.at(j)) }

  /** A task that has been executed is past its core. */
  lemma PastCore(c: Config, st: State, t: Task) returns (p: Place)
    requires Inv(c, st) && st.doneCtr == c.n && t < c.n
    ensures AfterExec(p) && Cnt(st.q, p, t) > 0
  {
    hide Inv, Cnt, Slots, Stages;
    AllDone(c, st);
    CounterFacts(c, st);
    WhereSound(c, st.q, t);
    p := Where(st.q, t);
    var i := CntIndex(st.q, p, t);
  }

  lemma NotifiedWhenDone(c: Config, st: State, t: Task, e: Edge)
    requires WellFormed(c) && Inv(c, st) && st.doneCtr == c.n && t < c.n && e.p < c.n && Into(c, e, t)
    ensures e in NotesAt(st.notified, t)
  {
    hide Inv, Cnt, Slots, WellFormed, Conserved, Ready;
    WfChildren(c);
    var p := PastCore(c, st, t);
    CounterFacts(c, st);
    assert Placed(c, st.crt, st.core, st.cct, st.ranAt, st.notified, p, t);
    NoteFacts(c, st, t);
    NotesBound(c, st.notified, st.ranAt, t);
  }

  lemma CountedWhenDone(c: Config, st: State, t: Task)
    requires Inv(c, st) && st.doneCtr == c.n && t < c.n
    ensures t in st.runs && t in st.ranAt && t in SetAt(st.counted, st.ranAt[t])
  {
    hide Inv, CountedOk, FinOk, Conserved, Stages, Slots;
    AllDone(c, st);
    CounterFacts(c, st);
    DoneBound(c, st.rec, st.fin, st.prev, st.counted, st.doneCtr, st.stopped, st.ranAt);
    AllCountedRan(c, st, t);
  }

  lemma AccomplishedWhenDone(c: Config, st: State)
    requires WellFormed(c) && Inv(c, st) && st.doneCtr == c.n && AllStopped(c, st)
    ensures Accomplished(c, st)
  {
    hide Inv, WellFormed, AllStopped, Into;
    forall t: nat | t < c.n
      ensures t in st.runs && t in st.ranAt && t in SetAt(st.counted, st.ranAt[t])
    {
      CountedWhenDone(c, st, t);
    }
    forall t: nat, e: Edge | t < c.n && e.p < c.n && Into(c, e, t)
      ensures e in NotesAt(st.notified, t)
    {
      NotifiedWhenDone(c, st, t, e);
    }
  }

  /**
    Liveness: on an acyclic graph every fair behaviour reaches, and never leaves, a point at which every task
    has been executed and counted, every child has been notified by each of its parents, and every
    scheduler has stopped.
  */
  lemma FairCompletion(c: Config, b: Behaviour) returns (i: nat)
    requires WellFormed(c) && Acyclic(c) && IsBehaviour(c, b) && Fair(c, b)
    ensures forall j: nat :: i <= j ==> AccomplishedAt(c, b, j)
  {
    hide WellFormed, Acyclic, IsBehaviour, Fair, Concluded, StoppedAt, Inv, IdleAt, Accomplished;
    var k := SomeoneStops(c, b);
    var m := Concludes(c, b, k);
    i := StopAllTo(c, b, m, c.numSched);
    forall j: nat | i <= j
      ensures AccomplishedAt(c, b, j)
    {
      ConcludedLater(c, b, m, j);
      StoppedAll(c, b, i, j);
      AccomplishedWhenDone(c, b.at(j));
    }
  }

  lemma StoppedAll(c: Config, b: Behaviour, i: nat, j: nat)
    requires IsBehaviour(c, b) && i <= j && forall s: nat :: s < c.numSched ==> StoppedAt(b, i, s)
    ensures AllStopped(c, b.at(j))
  {
    hide IsBehaviour;
    StoppedStays(c, b, i, j);
    forall s: nat | s < c.numSched
      ensures s in b.at(j).stopped
    {
      assert StoppedAt(b, i, s);
    }
  }

  lemma {:induction false} BehaviourReaches(c: Config, b: Behaviour, j: nat)
    requires IsBehaviour(c, b)
    ensures CanReach(c, b.at(0), b.at(j))
  {
    hide Init, NextStep, CanReach;
    if j == 0 {
      ReachSelf(c, b.at(0));
    } else {
      BehaviourReaches(c, b, j - 1);
      assert StepAt(c, b, j - 1);
      if b.step(j - 1).Some? {
        ReachSelf(c, b.at(j));
        ReachStep(c, b.at(j - 1), b.at(j), b.at(j), b.step(j - 1).value);
        ReachTrans(c, b.at(0), b.at(j - 1), b.at(j));
      }
    }
  }

  /** A fair behaviour completes if and only if the graph is acyclic. */
  lemma FairIffAcyclic(c: Config, b: Behaviour)
    requires WellFormed(c) && IsBehaviour(c, b) && Fair(c, b)
    ensures (exists j: nat :: AccomplishedAt(c, b, j)) <==> Acyclic(c)
  {
    hide WellFormed, Acyclic, Fair, CanReach, AllStopped, Init, Into;
    if Acyclic(c) {
      var i := FairCompletion(c, b);
      assert AccomplishedAt(c, b, i);
    }
    if j: nat :| AccomplishedAt(c, b, j) {
      BehaviourReaches(c, b, j);
      assert Reachable(c, b.at(j));
      CompletionNeedsAcyclic(c, b.at(j));
    }
  }
}
