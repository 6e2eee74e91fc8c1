/** Completion: an acyclic task graph can always be finished, a cyclic one never. */
module MatrixCompletion {
  import opened MatrixModel
  import opened MatrixInvariant
  import opened MatrixBasics
  import opened MatrixDispatch
  import opened MatrixRecord
  import opened MatrixMeasure
  import opened MatrixBound
  import opened MatrixTheorems
  import opened MatrixProgress

  ghost predicate DoneWith(st: State, t: Task) {
    (exists s: nat :: Cnt(st.q, Finished(s), t) > 0) && t in st.ranAt && t in SetAt(st.counted, st.ranAt[t])
  }

  /** Every task is executed, counted and has notified its children. */
  ghost predicate AllTasksDone(c: Config, st: State) { forall t: nat :: t < c.n ==> DoneWith(st, t) }

  // ---------- No state is stuck ----------

  ghost predicate Quiet(c: Config, st: State) {
    && (forall p :: CoreAt(st.core, p).CoreIdle?)
    && (forall s: nat :: CctAt(st.cct, s).CctIdle?)
    && forall s: nat :: s < c.numSched ==>
         && At(st.q, Complete(s)) == [] && At(st.q, Local(s)) == [] && At(st.q, Ws(s)) == []
         && At(st.q, Migr(s)) == [] && At(st.q, Steal(s)) == []
  }

  lemma BusyProgress(c: Config, st: State)
    requires WellFormed(c) && Inv(c, st) && AllStarted(c, st) && !Quiet(c, st)
    ensures Progressed(c, st)
  {
    hide WellFormed, Inv, Progressed;
    if p :| !CoreAt(st.core, p).CoreIdle? {
      CoreProgress(c, st, p);
    } else if s: nat :| !CctAt(st.cct, s).CctIdle? {
      CctValid(c, st, s);
      NotifyProgress(c, st, s);
    } else {
      var s: nat :| s < c.numSched && !(At(st.q, Complete(s)) == [] && At(st.q, Local(s)) == [] && At(st.q, Ws(s)) == []
                                        && At(st.q, Migr(s)) == [] && At(st.q, Steal(s)) == []);
      QueueProgress(c, st, s);
    }
  }

  lemma QueueProgress(c: Config, st: State, s: Sched)
    requires WellFormed(c) && Inv(c, st) && s < c.numSched && s in st.started && CoreAt(st.core, Core(s, 0)).CoreIdle?
             && CctAt(st.cct, s).CctIdle?
    requires At(st.q, Complete(s)) != [] || At(st.q, Local(s)) != [] || At(st.q, Ws(s)) != []
             || At(st.q, Migr(s)) != [] || At(st.q, Steal(s)) != []
    ensures Progressed(c, st)
  {
    hide WellFormed, Inv, Progressed, CanUse;
    WfCores(c);
    if At(st.q, Complete(s)) != [] {
      CompleteCan(c, st, s);
      Used(c, st, NotifyThread(s));
    } else if At(st.q, Local(s)) != [] {
      ReadyQueueCan(c, st, s, Local(s));
      Used(c, st, CoreThread(s, 0));
    } else if At(st.q, Ws(s)) != [] {
      ReadyQueueCan(c, st, s, Ws(s));
      Used(c, st, CoreThread(s, 0));
    } else if At(st.q, Migr(s)) != [] {
      MigrCan(c, st, s);
      Used(c, st, MonitorThread(s));
    } else {
      StealProgress(c, st, s);
    }
  }

  lemma WfCores(c: Config)
    requires WellFormed(c)
    ensures c.cores >= 1 && c.numSched >= 1
  {
  }

  /** In a quiet state a task is waiting, being checked or finished. */
  lemma QuietPlace(c: Config, st: State, t: Task) returns (p: Place)
    requires WellFormed(c) && Inv(c, st) && AllStarted(c, st) && Quiet(c, st) && t < c.n
    ensures Cnt(st.q, p, t) > 0 && p.s < c.numSched && (p.Wait? || p.Check? || p.Finished?)
  {
    hide Inv, Cnt, Slots;
    ConservedFacts(c, st);
    WhereSound(c, st.q, t);
    p := Where(st.q, t);
    var i := CntIndex(st.q, p, t);
    BelowPlace(c, st.q, p, t);
    assert 0 in st.started;
    AllReceived(c, st);
    SlotsEmpty(c, st, p);
  }

  lemma BelowPlace(c: Config, q: Queues, p: Place, t: Task)
    requires Conserved(c, q) && Cnt(q, p, t) > 0
    ensures ValidPlace(c, p)
  {
  }

  lemma SlotsEmpty(c: Config, st: State, p: Place)
    requires Inv(c, st) && Quiet(c, st)
    ensures p.Core? || p.Notify? ==> At(st.q, p) == []
  {
    hide Conserved, Stages, NotesOk, Records, Notifiers, CompleteOk, Checkers, Stored, Cores, InputsOk, History,
         Received, Accounted, CountStages, CountedOk, CountingOk, CctDomain, CoreDomain, RecDomain, CrtDomain;
  }

  lemma FinishedDone(c: Config, st: State, s: Sched, t: Task)
    requires Inv(c, st) && Quiet(c, st) && Cnt(st.q, Finished(s), t) > 0
    ensures DoneWith(st, t)
  {
    hide Conserved, Slots, NotesOk, Records, Notifiers, CompleteOk, Checkers, Stored, Cores, InputsOk, History,
         Received, Accounted, CountedOk, CountingOk, CctDomain, CoreDomain, RecDomain, CrtDomain, Cnt, NotifiedUpTo;
    assert Placed(c, st.crt, st.core, st.cct, st.ranAt, st.notified, Finished(s), t);
    assert CountStage(st.core, st.counted, Finished(s), t);
  }

  /** The first unfinished task in topological order has only finished parents, which have all notified it. */
  lemma FirstUnfinished(c: Config, st: State, order: seq<int>) returns (t: Task)
    requires WellFormed(c) && Topological(c, order) && !AllTasksDone(c, st)
    ensures t < c.n && !DoneWith(st, t)
    ensures forall e: Edge :: e.p < c.n && Into(c, e, t) ==> DoneWith(st, e.p)
  {
    hide DoneWith, WellFormed;
    WfChildren(c);
    t :| t < c.n && !DoneWith(st, t);
    while exists u: nat :: u < c.n && !DoneWith(st, u) && order[u] < order[t]
      invariant t < c.n && !DoneWith(st, t)
      decreases Smaller(order, order[t])
    {
      var u: nat :| u < c.n && !DoneWith(st, u) && order[u] < order[t];
      FewerBelow(order, u, t);
      t := u;
    }
    forall e: Edge | e.p < c.n && Into(c, e, t)
      ensures DoneWith(st, e.p)
    {
      assert Kids(c, e.p)[e.i] < c.n;
    }
  }

  /** Entries of `order` smaller than x. */
  ghost function SmallerSet(order: seq<int>, x: int): set<int> { set i | 0 <= i < |order| && order[i] < x }
  ghost function Smaller(order: seq<int>, x: int): nat { |SmallerSet(order, x)| }

  lemma FewerBelow(order: seq<int>, u: nat, t: nat)
    requires u < |order| && t < |order| && order[u] < order[t]
    ensures Smaller(order, order[u]) < Smaller(order, order[t])
  {
    var a, b := SmallerSet(order, order[u]), SmallerSet(order, order[t]);
    assert u in b && u !in a;
    SubsetCard(a + {u}, b);
  }

  lemma NotifiedByAll(c: Config, st: State, t: Task)
    requires WellFormed(c) && Inv(c, st) && t < c.n
    requires forall e: Edge :: e.p < c.n && Into(c, e, t) ==> DoneWith(st, e.p)
    ensures Ready(c, st.notified, t)
  {
    hide WellFormed, Inv, Cnt;
    WfChildren(c);
    NoteFacts(c, st, t);
    NotesBound(c, st.notified, st.ranAt, t);
    var es := NotesAt(st.notified, t);
    forall e | e in EdgesInto(c, t)
      ensures e in es
    {
      assert Into(c, e, t);
      assert DoneWith(st, e.p);
      var s: nat :| Cnt(st.q, Finished(s), e.p) > 0;
      FinishedFacts(c, st, s, e.p);
    }
    NoDupCard(es);
    assert EdgesInto(c, t) <= Elems(es);
    SubsetCard(EdgesInto(c, t), Elems(es));
  }

  lemma QuietProgress(c: Config, st: State)
    requires WellFormed(c) && Acyclic(c) && Inv(c, st) && AllStarted(c, st) && Quiet(c, st) && !AllTasksDone(c, st)
    ensures Progressed(c, st)
  {
    hide WellFormed, Inv, Progressed, Cnt, DoneWith, Quiet, Topological, Ready;
    var order :| Topological(c, order);
    var t := FirstUnfinished(c, st, order);
    NotifiedByAll(c, st, t);
    var p := QuietPlace(c, st, t);
    if p.Finished? {
      FinishedDone(c, st, p.s, t);
    } else {
      ReadyProgress(c, st, p.s, p, t);
    }
  }

  /** No deadlock and no unavoidable livelock: unless all is done, some continuation leaves less to do. */
  lemma Advance(c: Config, st: State)
    requires WellFormed(c) && Acyclic(c) && Inv(c, st) && !(AllStarted(c, st) && AllTasksDone(c, st))
    ensures Progressed(c, st)
  {
    hide WellFormed, Acyclic, Inv, Progressed, AllTasksDone, Quiet;
    if !AllStarted(c, st) { StartupProgress(c, st); }
    else if !Quiet(c, st) { BusyProgress(c, st); }
    else { QuietProgress(c, st); }
  }

  lemma {:induction false} FinishTasks(c: Config, st: State) returns (st': State)
    requires WellFormed(c) && Acyclic(c) && Inv(c, st)
    ensures CanReach(c, st, st') && Inv(c, st') && AllStarted(c, st') && AllTasksDone(c, st')
    decreases Measure(c, st)
  {
    hide WellFormed, Acyclic, Inv, AllTasksDone, AllStarted, CanReach, Measure;
    if AllStarted(c, st) && AllTasksDone(c, st) {
      st' := st;
      ReachSelf(c, st);
    } else {
      Advance(c, st);
      var mid :| Nearer(c, st, mid);
      MeasureNonNeg(c, st);
      MeasureNonNeg(c, mid);
      st' := FinishTasks(c, mid);
      ReachTrans(c, st, mid, st');
    }
  }

  // ---------- Every scheduler learns of it ----------

  ghost predicate ReportedTo(c: Config, st: State, k: nat) { forall s: nat :: s < k ==> Reported(st, s) }

  lemma {:induction false} ReportAll(c: Config, st: State, k: nat) returns (st': State)
    requires WellFormed(c) && Inv(c, st) && AllStarted(c, st) && AllTasksDone(c, st) && k <= c.numSched
    ensures CanReach(c, st, st') && Inv(c, st') && AllStarted(c, st') && AllTasksDone(c, st') && ReportedTo(c, st', k)
    decreases k
  {
    hide WellFormed, Inv, CanReach, Cnt;
    if k == 0 {
      st' := st;
      ReachSelf(c, st);
    } else {
      var mid := ReportAll(c, st, k - 1);
      st' := Report(c, mid, k - 1);
      ReachTrans(c, st, mid, st');
      forall t: nat | t < c.n
        ensures DoneWith(st', t)
      {
        assert DoneWith(mid, t);
      }
      forall s: nat | s < k
        ensures Reported(st', s)
      {
        if s < k - 1 { assert Reported(mid, s); }
      }
    }
  }

  /** When every task is counted the finish counters sum to the number of tasks. */
  lemma AllCounted(c: Config, st: State)
    requires Inv(c, st) && AllTasksDone(c, st)
    ensures Sum(FinParts(c, st.fin)) == c.n
  {
    hide Inv, Cnt, CountedOk;
    CounterFacts(c, st);
    DoneBound(c, st.rec, st.fin, st.prev, st.counted, st.doneCtr, st.stopped, st.ranAt);
    UnionSize(c, st.counted, st.ranAt, st.fin, c.numSched);
    BelowCard(c.n);
    forall t | t in Below(c.n)
      ensures t in UnionTo(st.counted, c.numSched)
    {
      assert DoneWith(st, t);
      RanBelow(c, st, t);
      UnionMember(st.counted, c.numSched, t);
    }
    SubsetCard(Below(c.n), UnionTo(st.counted, c.numSched));
  }

  lemma AllReported(c: Config, st: State)
    requires WellFormed(c) && Inv(c, st) && AllTasksDone(c, st) && ReportedTo(c, st, c.numSched)
    ensures st.doneCtr == c.n
  {
    hide WellFormed, Inv, DoneWith, CountedOk, FinOk, StopOk;
    CounterFacts(c, st);
    var a, b := DoneParts(c, st.rec, st.fin, st.prev), FinParts(c, st.fin);
    assert forall s :: 0 <= s < c.numSched ==> Reported(st, s) ==> a[s] == b[s];
    assert a == b;
    AllCounted(c, st);
  }

  lemma RanBelow(c: Config, st: State, t: Task)
    requires Inv(c, st) && t in st.ranAt
    ensures st.ranAt[t] < c.numSched
  {
    hide Inv, ResultsKnown, AllDataOk;
    StoredFacts(c, st);
  }

  ghost predicate AllStopped(c: Config, st: State) { forall s: nat :: s < c.numSched ==> s in st.stopped }

  ghost predicate StoppedTo(c: Config, st: State, k: nat) { forall s: nat :: s < k ==> s in st.stopped }

  lemma {:induction false} StopAll(c: Config, st: State, k: nat) returns (st': State)
    requires WellFormed(c) && Inv(c, st) && AllStarted(c, st) && st.doneCtr == c.n && ReportedTo(c, st, c.numSched)
             && k <= c.numSched
    ensures CanReach(c, st, st') && Inv(c, st') && StoppedTo(c, st', k) && st' == st.(stopped := st'.stopped)
    decreases k
  {
    hide WellFormed, Inv, CanReach;
    if k == 0 {
      st' := st;
      ReachSelf(c, st);
    } else {
      var mid := StopAll(c, st, k - 1);
      st' := mid;
      if k - 1 !in mid.stopped {
        st' := mid.(stopped := mid.stopped + {k - 1});
        assert Reported(st, k - 1);
        assert DoRecLookup(c, mid, st', k - 1);
        StepInv(c, mid, st', RecordStep(k - 1, RecLookup));
        ReachSelf(c, st');
        ReachStep(c, mid, st', st', RecordStep(k - 1, RecLookup));
        ReachTrans(c, st, mid, st');
      }
    }
  }

  /** All tasks executed, every scheduler stopped. */
  ghost predicate AllComplete(c: Config, st: State) {
    (forall t: nat :: t < c.n ==> t in st.runs) && AllTasksDone(c, st) && AllStopped(c, st)
  }

  ghost predicate CanComplete(c: Config, st: State) { exists st' :: CanReach(c, st, st') && AllComplete(c, st') }

  /** From every reachable state of an acyclic graph some continuation finishes everything. */
  lemma Progress(c: Config, st: State)
    requires WellFormed(c) && Acyclic(c) && Reachable(c, st)
    ensures CanComplete(c, st)
  {
    hide WellFormed, Acyclic, Reachable, Inv, CanReach, AllTasksDone;
    ReachableInv(c, st);
    var a := FinishTasks(c, st);
    var b := ReportAll(c, a, c.numSched);
    AllReported(c, b);
    var st' := StopAll(c, b, c.numSched);
    ReachTrans(c, st, a, b);
    ReachTrans(c, st, b, st');
    DoneFrame(c, b, st');
    AllRan(c, st');
    assert AllComplete(c, st');
  }

  lemma DoneFrame(c: Config, st: State, st': State)
    requires AllTasksDone(c, st) && st' == st.(stopped := st'.stopped)
    ensures AllTasksDone(c, st')
  {
    forall t: nat | t < c.n
      ensures DoneWith(st', t)
    {
      assert DoneWith(st, t);
    }
  }

  lemma AllRan(c: Config, st: State)
    requires Inv(c, st) && AllTasksDone(c, st)
    ensures forall t: nat :: t < c.n ==> t in st.runs
  {
    hide Inv, Cnt;
    HistoryFacts(c, st);
    forall t: nat | t < c.n
      ensures t in st.runs
    {
      assert DoneWith(st, t);
    }
  }

  // ---------- Only acyclic graphs complete ----------

  function IndexOf(ts: seq<Task>, t: Task): (i: int)
    requires t in ts
    ensures 0 <= i < |ts| && ts[i] == t
    ensures forall j :: 0 <= j < i ==> ts[j] != t
  {
    if ts[0] == t then 0 else 1 + IndexOf(ts[1..], t)
  }

  /** A finished run lists the tasks in topological order. */
  lemma CompletionNeedsAcyclic(c: Config, st: State)
    requires WellFormed(c) && Reachable(c, st) && forall t: nat :: t < c.n ==> t in st.runs
    ensures Acyclic(c)
  {
    hide Reachable;
    PrecedenceSafety(c, st);
    var order := seq(c.n, t requires 0 <= t < c.n => IndexOf(st.runs, t));
    forall p: nat, i: nat | p < c.n && i < |Kids(c, p)| && Kids(c, p)[i] < c.n
      ensures order[p] < order[Kids(c, p)[i]]
    {
      var e, k := Edge(p, i), IndexOf(st.runs, Kids(c, p)[i]);
      assert Into(c, e, st.runs[k]);
      assert p in st.runs[..k];
    }
    assert Topological(c, order);
  }

  ghost function Start0(c: Config): State {
    State(map s: nat | s < c.numSched :: Client(s) := Items(Batch(c, s)),
          map t: nat | t < c.n :: t := Value(InDeg(c, t), Kids(c, t), [], [], [], 0, OutSize(c, t)),
          0, 0, {}, {}, map[], map[], map[], map[], map[], map[], map[], map[], [], map[], map[], map[], map[], map[])
  }

  lemma InitExists(c: Config)
    ensures Init(c, Start0(c)) && Reachable(c, Start0(c))
  {
    ReachSelf(c, Start0(c));
  }

  /** The protocol can always finish exactly the acyclic task graphs. */
  lemma CompletesIffAcyclic(c: Config)
    requires WellFormed(c)
    ensures Acyclic(c) <==> forall st :: Reachable(c, st) ==> CanComplete(c, st)
  {
    hide WellFormed, Acyclic, CanReach, AllTasksDone;
    if Acyclic(c) {
      forall st | Reachable(c, st)
        ensures CanComplete(c, st)
      {
        Progress(c, st);
      }
    }
    if forall st :: Reachable(c, st) ==> CanComplete(c, st) {
      InitExists(c);
      var st' :| CanReach(c, Start0(c), st') && AllComplete(c, st');
      assert Reachable(c, st');
      CompletionNeedsAcyclic(c, st');
    }
  }
}
