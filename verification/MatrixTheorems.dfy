/** What holds in every reachable state of the protocol, for every DAG and every interleaving. */
module MatrixTheorems {
  import opened MatrixModel
  import opened MatrixInvariant
  import opened MatrixBasics
  import opened MatrixDispatch
  import opened MatrixExec
  import opened MatrixRun
  import opened MatrixNotify
  import opened MatrixRecord

  /** Tasks are executed at most once, and only after all their parents. */
  lemma PrecedenceSafety(c: Config, st: State)
    requires WellFormed(c) && Reachable(c, st)
    ensures forall i, j :: 0 <= i < j < |st.runs| ==> st.runs[i] != st.runs[j]
    ensures forall i, e: Edge :: 0 <= i < |st.runs| && e.p < c.n && Into(c, e, st.runs[i]) ==> e.p in st.runs[..i]
  {
    hide WellFormed, Reachable;
    ReachableInv(c, st);
    HistoryFacts(c, st);
  }

  lemma HistoryFacts(c: Config, st: State)
    requires Inv(c, st)
    ensures History(c, st.runs, st.ranAt)
    ensures forall i, e: Edge :: 0 <= i < |st.runs| && e.p < c.n && Into(c, e, st.runs[i]) ==> e.p in st.runs[..i]
  {
    hide Conserved, Slots, Stages, NotesOk, Records, Notifiers, CompleteOk, Checkers, Stored, Cores, InputsOk,
         Received, Accounted, CountStages, CountedOk, CountingOk, CoreDomain, CrtDomain, CctDomain, RecDomain;
    forall i, e: Edge | 0 <= i < |st.runs| && e.p < c.n && Into(c, e, st.runs[i])
      ensures e.p in st.runs[..i]
    {
      assert ParentsIn(c, st.runs[i], st.runs[..i]);
    }
  }

  /** A task is in a ready queue, in flight between schedulers or on a core only if all its parents have run. */
  lemma DispatchSafety(c: Config, st: State, p: Place, t: Task, e: Edge)
    requires WellFormed(c) && Reachable(c, st)
    requires p.Ws? || p.Local? || p.Steal? || p.Migr? || p.Core?
    requires Cnt(st.q, p, t) > 0 && e.p < c.n && Into(c, e, t)
    ensures e.p in st.runs
  {
    hide WellFormed, Reachable, Inv, Cnt;
    ReachableInv(c, st);
    WfChildren(c);
    DispatchedParents(c, st, p, t);
  }

  lemma DispatchedParents(c: Config, st: State, p: Place, t: Task)
    requires |c.children| == c.n && Inv(c, st) && Cnt(st.q, p, t) > 0 && Dispatched(st.crt, p)
    ensures ParentsIn(c, t, st.runs)
  {
    hide Conserved, Slots, Records, Notifiers, CompleteOk, Checkers, Stored, Cores, InputsOk, History,
         Received, Accounted, CountStages, CountedOk, CountingOk, CoreDomain, CrtDomain, CctDomain, RecDomain, Cnt;
    assert NoteOk(c, st.notified, st.ranAt, t);
    assert Placed(c, st.crt, st.core, st.cct, st.ranAt, st.notified, p, t);
    ReadyParents(c, st.notified, st.ranAt, st.runs, t);
  }

  /** The stored indegree counts the parents that have not yet notified the task. */
  lemma IndegreeLaw(c: Config, st: State, t: Task)
    requires WellFormed(c) && Reachable(c, st) && t < c.n
    ensures ZhtAt(st.zht, t).indegree == InDeg(c, t) - |NotesAt(st.notified, t)|
    ensures |NotesAt(st.notified, t)| <= InDeg(c, t)
    ensures NoDup(NotesAt(st.notified, t))
    ensures forall e :: e in NotesAt(st.notified, t) ==> Into(c, e, t) && e.p in st.runs
  {
    hide WellFormed, Reachable, Inv, InDeg;
    ReachableInv(c, st);
    WfChildren(c);
    NoteFacts(c, st, t);
    NotesBound(c, st.notified, st.ranAt, t);
  }

  lemma NoteFacts(c: Config, st: State, t: Task)
    requires Inv(c, st) && t < c.n
    ensures NoteOk(c, st.notified, st.ranAt, t) && ZhtAt(st.zht, t) == Replay(c, t, NotesAt(st.notified, t), st.ranAt)
    ensures forall e :: e in NotesAt(st.notified, t) ==> e.p in st.runs
  {
    hide Conserved, Slots, Stages, Notifiers, CompleteOk, Checkers, Stored, Cores, InputsOk,
         Received, Accounted, CountStages, CountedOk, CountingOk, CoreDomain, CrtDomain, CctDomain, RecDomain, Replay;
    assert NoteOk(c, st.notified, st.ranAt, t);
  }

  /** Under any interleaving of reads and compare_swaps the lists of a record stay aligned. */
  lemma RecordShape(c: Config, st: State, t: Task)
    requires WellFormed(c) && Reachable(c, st) && t < c.n
    ensures var v := ZhtAt(st.zht, t);
            && |v.parents| == |v.names| == |v.sizes| == |NotesAt(st.notified, t)|
            && v.allSize == Sum(v.sizes) && v.children == Kids(c, t) && v.outputSize == OutSize(c, t)
            && forall k: nat :: k < |v.parents| ==>
                 v.names[k].s == v.parents[k] && v.sizes[k] == OutSize(c, v.names[k].t)
  {
    hide WellFormed, Reachable, Inv, InDeg;
    ReachableInv(c, st);
    NoteFacts(c, st, t);
  }

  /** Each task of the DAG is in exactly one place: a queue, a message or a thread. */
  lemma TaskConservation(c: Config, st: State)
    requires WellFormed(c) && Reachable(c, st)
    ensures forall t: nat :: t < c.n ==> Somewhere(st.q, t)
    ensures forall p, t: nat :: Cnt(st.q, p, t) <= 1
    ensures forall p1, p2, t: nat :: Cnt(st.q, p1, t) > 0 && Cnt(st.q, p2, t) > 0 ==> p1 == p2
  {
    hide WellFormed, Reachable, Slots, Stages, NotesOk, Records, Notifiers, CompleteOk, Checkers, Stored, Cores,
         InputsOk,
         History, Received, Accounted, CountStages, CountedOk, CountingOk, CoreDomain, CrtDomain, CctDomain, RecDomain;
    ReachableInv(c, st);
  }

  // ---------- Data ----------

  /** Whatever a record says about data is true: the named scheduler holds the named output. */
  lemma DataAvailability(c: Config, st: State, t: Task, k: nat)
    requires WellFormed(c) && Reachable(c, st) && t < c.n && k < |ZhtAt(st.zht, t).parents|
    ensures var v := ZhtAt(st.zht, t);
            && k < |v.names| && v.names[k] in DataAt(st.data, v.parents[k])
            && DataAt(st.data, v.parents[k])[v.names[k]] == PieceAt(st.result, v.names[k].t)
  {
    hide WellFormed, Reachable, Inv, InDeg, Stored;
    ReachableInv(c, st);
    NoteFacts(c, st, t);
    var v := ZhtAt(st.zht, t);
    StoredFacts(c, st);
    Available(c, NotesAt(st.notified, t), k, st.notified, st.ranAt, t, st.data, st.result, v);
    CopyAgrees(c, v.parents[k], v.names[k], st.ranAt, st.data, st.result);
  }

  lemma StoredFacts(c: Config, st: State)
    requires Inv(c, st)
    ensures Stored(c, st.data, st.ranAt, st.result) && InputsOk(c, st.input, st.notified, st.ranAt, st.result)
  {
  }

  /** A cached copy equals the output kept by the scheduler that ran the task. */
  lemma CacheAgreement(c: Config, st: State, s: Sched, nm: Name)
    requires WellFormed(c) && Reachable(c, st) && nm in DataAt(st.data, s)
    ensures nm in DataAt(st.data, nm.s) && DataAt(st.data, s)[nm] == DataAt(st.data, nm.s)[nm]
  {
    hide WellFormed, Reachable, Inv;
    ReachableInv(c, st);
    StoredFacts(c, st);
    assert DataOk(DataAt(st.data, s), st.ranAt, st.result);
    assert DataOk(DataAt(st.data, nm.s), st.ranAt, st.result);
  }

  /** The search of localData, own or remote, never fails: neither "not found" branch is reached. */
  lemma NoMissingData(c: Config, st: State, s: Sched, k: nat)
    requires WellFormed(c) && Reachable(c, st)
    ensures var pc := CoreAt(st.core, Core(s, k));
            && (pc.CoreNeed? ==> NameAt(pc.v, pc.i) in DataAt(st.data, ParentAt(pc.v, pc.i)))
            && (pc.CoreFetch? && pc.i < |pc.v.parents| && ParentAt(pc.v, pc.i) == s ==>
                  NameAt(pc.v, pc.i) in DataAt(st.data, s))
  {
    hide WellFormed, Reachable, Inv, Stored, NoteOk;
    ReachableInv(c, st);
    var pc := CoreAt(st.core, Core(s, k));
    if pc.CoreNeed? || (pc.CoreFetch? && pc.i < |pc.v.parents|) {
      var t := AtCore(c, st, s, k);
      StoredFacts(c, st);
      Available(c, NotesAt(st.notified, t), pc.i, st.notified, st.ranAt, t, st.data, st.result, pc.v);
    }
  }

  /** Which of the first i notifying edges come from tasks with output. */
  ghost function Bearing(c: Config, es: seq<Edge>, i: nat): set<nat>
    requires i <= |es|
  {
    set j: nat | j < i && OutSize(c, es[j].p) > 0
  }

  lemma BearingStep(c: Config, es: seq<Edge>, i: nat)
    requires i < |es|
    ensures |Bearing(c, es, i + 1)| == |Bearing(c, es, i)| + B(OutSize(c, es[i].p) > 0)
  {
    if OutSize(c, es[i].p) > 0 {
      assert Bearing(c, es, i + 1) == Bearing(c, es, i) + {i};
    } else {
      assert Bearing(c, es, i + 1) == Bearing(c, es, i);
    }
  }

  /** The outputs collected from the first k edges: each in the place given by the number of those before it. */
  lemma {:induction false} InputsAt(c: Config, es: seq<Edge>, result: map<Task, Piece>, k: nat)
    requires k <= |es|
    ensures var data := Inputs(es, SizeList(c, es), result, k);
            && |data| == |Bearing(c, es, k)|
            && forall i: nat :: i < k && OutSize(c, es[i].p) > 0 ==>
                 |Bearing(c, es, i)| < |data| && data[|Bearing(c, es, i)|] == PieceAt(result, es[i].p)
  {
    if k > 0 {
      InputsAt(c, es, result, k - 1);
      BearingStep(c, es, k - 1);
    } else {
      assert Bearing(c, es, 0) == {};
    }
  }

  /** The data given to an execution are the outputs of its parents, in the order of notification. */
  lemma InputIntegrity(c: Config, st: State, t: Task)
    requires WellFormed(c) && Reachable(c, st) && t in st.runs
    ensures t in st.input && t in st.ranAt
    ensures var es := NotesAt(st.notified, t);
            && |st.input[t]| == |Bearing(c, es, |es|)|
            && forall i: nat :: i < |es| && OutSize(c, es[i].p) > 0 ==>
                 var k := |Bearing(c, es, i)|;
                 k < |st.input[t]| && st.input[t][k] == PieceAt(st.result, es[i].p)
  {
    hide WellFormed, Reachable, Inv, Inputs, Bearing;
    ReachableInv(c, st);
    StoredFacts(c, st);
    HistoryFacts(c, st);
    InputsAt(c, NotesAt(st.notified, t), st.result, |NotesAt(st.notified, t)|);
  }

  // ---------- Contention ----------

  /**
    A notifier's compare_swap fails exactly when another parent's has succeeded since its last read,
    so it has failed at most indegree - 1 times.
  */
  lemma BoundedContention(c: Config, st: State, s: Sched)
    requires WellFormed(c) && Reachable(c, st) && CctAt(st.cct, s).CctRead?
    ensures var pc := CctAt(st.cct, s);
            && pc.i < |pc.kids|
            && (ZhtAt(st.zht, pc.kids[pc.i]) != pc.seen <==> |pc.seen.parents| < |NotesAt(st.notified, pc.kids[pc.i])|)
            && pc.fails <= |pc.seen.parents| <= |NotesAt(st.notified, pc.kids[pc.i])| <= InDeg(c, pc.kids[pc.i]) - 1
  {
    hide WellFormed, Reachable, Inv, InDeg, NoteOk, Snapshot;
    ReachableInv(c, st);
    WfChildren(c);
    var kid, e := SwapFacts(c, st, s);
    var pc := CctAt(st.cct, s);
    NoteFacts(c, st, kid);
    NotReady(c, st.notified, st.ranAt, kid, e);
    NotesBound(c, st.notified, st.ranAt, kid);
    NotifierFacts(c, st, s);
    SnapshotFacts(c, st, kid, pc.seen);
  }

  lemma NotifierFacts(c: Config, st: State, s: Sched)
    requires Inv(c, st) && CctAt(st.cct, s).CctRead? && |At(st.q, Notify(s))| == 1
    ensures NotifierOk(c, st.notified, st.ranAt, CctAt(st.cct, s), At(st.q, Notify(s))[0])
  {
    hide Conserved, Slots, Stages, NotesOk, Records, CompleteOk, Checkers, Stored, Cores, InputsOk, History,
         Received, Accounted, CountStages, CountedOk, CountingOk, CoreDomain, CrtDomain, CctDomain, RecDomain,
         NotifierOk;
  }

  lemma SnapshotFacts(c: Config, st: State, t: Task, v: Value)
    requires Inv(c, st) && t < c.n && Snapshot(c, st.notified, st.ranAt, t, v)
    ensures |v.parents| <= |NotesAt(st.notified, t)|
            && (ZhtAt(st.zht, t) != v <==> |v.parents| < |NotesAt(st.notified, t)|)
  {
    hide Conserved, Slots, Stages, NotesOk, Records, Notifiers, CompleteOk, Checkers, Stored, Cores, InputsOk, History,
         Received, Accounted, CountStages, CountedOk, CountingOk, CoreDomain, CrtDomain, CctDomain, RecDomain, Replay;
    StaleSnapshot(c, st.zht, st.notified, st.ranAt, t, v);
  }

  /** Once a task has finished notifying, each of its edges was applied exactly once. */
  lemma NotifiedExactlyOnce(c: Config, st: State, s: Sched, t: Task, i: nat)
    requires WellFormed(c) && Reachable(c, st) && Cnt(st.q, Finished(s), t) > 0 && i < |Kids(c, t)|
    ensures Edge(t, i) in NotesAt(st.notified, Kids(c, t)[i]) && NoDup(NotesAt(st.notified, Kids(c, t)[i]))
  {
    hide WellFormed, Reachable, Inv, Cnt;
    ReachableInv(c, st);
    FinishedFacts(c, st, s, t);
    NoDupNotes(c, st, Kids(c, t)[i]);
  }

  lemma FinishedFacts(c: Config, st: State, s: Sched, t: Task)
    requires Inv(c, st) && Cnt(st.q, Finished(s), t) > 0
    ensures NotifiedUpTo(c, st.notified, t, |Kids(c, t)|)
  {
    hide Conserved, Slots, NotesOk, Records, Notifiers, CompleteOk, Checkers, Stored, Cores, InputsOk, History,
         Received, Accounted, CountStages, CountedOk, CountingOk, CoreDomain, CrtDomain, CctDomain, RecDomain, Cnt,
         NotifiedUpTo;
    assert Placed(c, st.crt, st.core, st.cct, st.ranAt, st.notified, Finished(s), t);
  }

  lemma NoDupNotes(c: Config, st: State, t: Task)
    requires Inv(c, st)
    ensures NoDup(NotesAt(st.notified, t))
  {
    hide Conserved, Slots, Stages, Records, Notifiers, CompleteOk, Checkers, Stored, Cores, InputsOk, History,
         Received, Accounted, CountStages, CountedOk, CountingOk, CoreDomain, CrtDomain, CctDomain, RecDomain;
    assert NoteOk(c, st.notified, st.ranAt, t);
  }

  // ---------- Barrier and termination detection ----------

  /** When a scheduler has started, every batch is enqueued: no client enqueue can overlap its pops. */
  lemma StartBarrier(c: Config, st: State, s: Sched)
    requires WellFormed(c) && Reachable(c, st) && s in st.started
    ensures st.recvCtr == c.n
    ensures forall s': nat :: At(st.q, Client(s')) == []
    ensures forall s': nat, k: nat, st' :: !DoRecvPkg(c, st, st', s', k)
  {
    hide WellFormed, Reachable, Inv;
    ReachableInv(c, st);
    AllReceived(c, st);
  }

  lemma AllReceived(c: Config, st: State)
    requires WellFormed(c) && Inv(c, st) && (st.recvCtr == c.n || st.started != {})
    ensures st.recvCtr == c.n && forall s: nat :: At(st.q, Client(s)) == []
  {
    hide Conserved, Slots, Stages, NotesOk, Records, Notifiers, CompleteOk, Checkers, Stored, Cores, InputsOk, History,
         Accounted, CountStages, CountedOk, CountingOk, CoreDomain, CrtDomain, CctDomain, RecDomain, WellFormed;
    RecvBounded(c, st.recv);
    forall s: nat
      ensures At(st.q, Client(s)) == []
    {
      BatchDomain(c, s);
      assert |At(st.q, Client(s))| <= |Batch(c, s)|;
    }
  }

  lemma BatchDomain(c: Config, s: Sched)
    requires WellFormed(c)
    ensures s >= c.numSched ==> Batch(c, s) == []
  {
  }

  /** "num tasks done" is the sum of what the schedulers have reported, and at most what they have finished. */
  lemma DoneCounter(c: Config, st: State)
    requires WellFormed(c) && Reachable(c, st)
    ensures st.doneCtr == Sum(DoneParts(c, st.rec, st.fin, st.prev))
    ensures st.doneCtr <= Sum(FinParts(c, st.fin)) <= c.n
  {
    hide WellFormed, Reachable, Inv, CountedOk, FinOk, StopOk;
    ReachableInv(c, st);
    CounterFacts(c, st);
    DoneBound(c, st.rec, st.fin, st.prev, st.counted, st.doneCtr, st.stopped, st.ranAt);
  }

  lemma CounterFacts(c: Config, st: State)
    requires Inv(c, st)
    ensures Accounted(c, st.rec, st.fin, st.prev, st.counted, st.doneCtr, st.stopped)
            && CountedOk(c, st.counted, st.ranAt)
    ensures Conserved(c, st.q) && Stages(c, st.q, st.crt, st.core, st.cct, st.ranAt, st.notified)
            && Slots(st.q, st.crt, st.core, st.cct)
  {
  }

  /** The early break of the reporting loop forgets no finished task. */
  lemma EarlyBreakLosesNothing(c: Config, st: State, s: Sched)
    requires WellFormed(c) && Reachable(c, st) && s < c.numSched && RecAt(st.rec, s).RecLocked? && st.doneCtr == c.n
    ensures NumAt(st.prev, s) == NumAt(st.fin, s)
  {
    hide WellFormed, Reachable, Inv, CountedOk, FinOk, StopOk;
    ReachableInv(c, st);
    CounterFacts(c, st);
    DoneBound(c, st.rec, st.fin, st.prev, st.counted, st.doneCtr, st.stopped, st.ranAt);
  }

  /** When any scheduler stops, every task has been executed exactly once and nothing waits anywhere. */
  lemma TerminationDetection(c: Config, st: State)
    requires WellFormed(c) && Reachable(c, st) && st.stopped != {}
    ensures forall t: nat :: t in st.runs <==> t < c.n
    ensures NoDup(st.runs) && |st.runs| == c.n
    ensures forall p: Place ::
              p.Client? || p.Wait? || p.Check? || p.Ws? || p.Local? || p.Steal? || p.Migr? || p.Core? ==>
                At(st.q, p) == []
  {
    hide WellFormed, Reachable, Inv;
    ReachableInv(c, st);
    AllDone(c, st);
  }

  lemma AllCountedRan(c: Config, st: State, t: Task)
    requires Inv(c, st) && Sum(FinParts(c, st.fin)) == c.n && t < c.n
    ensures t in st.ranAt && t in SetAt(st.counted, st.ranAt[t])
  {
    hide Conserved, Slots, Stages, NotesOk, Records, Notifiers, CompleteOk, Checkers, Stored, Cores, InputsOk, History,
         Received, CountStages, CountingOk, CoreDomain, CrtDomain, CctDomain, RecDomain, FinOk, StopOk;
    DoneBound(c, st.rec, st.fin, st.prev, st.counted, st.doneCtr, st.stopped, st.ranAt);
    BelowCard(c.n);
    assert t in Below(c.n);
    UnionMember(st.counted, c.numSched, t);
    var s: nat :| s < c.numSched && t in SetAt(st.counted, s);
    assert RanThere(c, SetAt(st.counted, s), st.ranAt, s);
  }

  lemma FrontUncounted(c: Config, st: State, p: Place)
    requires Inv(c, st) && !AfterExec(p) && |At(st.q, p)| > 0
    ensures var t := At(st.q, p)[0].id; t < c.n && (t in st.ranAt ==> t !in SetAt(st.counted, st.ranAt[t]))
  {
    hide Slots, Stages, NotesOk, Records, Notifiers, CompleteOk, Checkers, Stored, Cores, InputsOk, History,
         Received, Accounted, CountedOk, CountingOk, CoreDomain, CrtDomain, CctDomain, RecDomain;
    CntAt(st.q, p, 0);
    assert CountStage(st.core, st.counted, p, At(st.q, p)[0].id);
  }

  lemma EmptyBeforeExec(c: Config, st: State, p: Place)
    requires Inv(c, st) && (forall t: nat :: t < c.n ==> t in st.ranAt && t in SetAt(st.counted, st.ranAt[t]))
             && !AfterExec(p)
    ensures At(st.q, p) == []
  {
    hide Inv;
    if |At(st.q, p)| > 0 { FrontUncounted(c, st, p); }
  }

  lemma {:induction false} RunsLength(runs: seq<Task>, n: nat)
    requires NoDup(runs) && forall t: nat :: t in runs <==> t < n
    ensures |runs| == n
  {
    NoDupCard(runs);
    BelowCard(n);
    assert Elems(runs) == Below(n);
  }

  lemma AllDone(c: Config, st: State)
    requires Inv(c, st) && (st.stopped != {} || st.doneCtr == c.n)
    ensures forall t: nat :: t in st.runs <==> t < c.n
    ensures NoDup(st.runs) && |st.runs| == c.n
    ensures forall p :: !AfterExec(p) ==> At(st.q, p) == []
  {
    hide Inv, CountedOk, FinOk, Conserved, Stages, Slots;
    CounterFacts(c, st);
    DoneBound(c, st.rec, st.fin, st.prev, st.counted, st.doneCtr, st.stopped, st.ranAt);
    forall t: nat | t < c.n
      ensures t in st.ranAt && t in SetAt(st.counted, st.ranAt[t])
    {
      AllCountedRan(c, st, t);
    }
    forall p | !AfterExec(p)
      ensures At(st.q, p) == []
    {
      EmptyBeforeExec(c, st, p);
    }
    HistoryFacts(c, st);
    forall t: nat
      ensures t in st.runs <==> t < c.n
    {
      if t in st.runs { var i :| 0 <= i < |st.runs| && st.runs[i] == t; }
    }
    RunsLength(st.runs, c.n);
  }

  // ---------- Routing ----------

  /** The loop of task_ready_process stops at the first of the largest pieces. */
  lemma {:induction false} FirstMaxSpec(sizes: seq<int>)
    ensures FirstMax(sizes).None? <==> forall j :: 0 <= j < |sizes| ==> sizes[j] <= -1000000
    ensures FirstMax(sizes).Some? ==>
              var m := FirstMax(sizes).value;
              && sizes[m] > NO_SIZE
              && (forall j :: 0 <= j < |sizes| ==> sizes[j] <= sizes[m])
              && (forall j :: 0 <= j < m ==> sizes[j] < sizes[m])
  {
    if |sizes| > 0 {
      var a := sizes[..|sizes| - 1];
      FirstMaxSpec(a);
      assert forall j :: 0 <= j < |a| ==> a[j] == sizes[j];
    }
  }

  /**
    A ready task at or under the threshold goes to the stealing queue with the size of all its data; one over
    it goes to the first holder of a largest piece, which really holds it.
  */
  lemma RoutingSound(c: Config, st: State, s: Sched)
    requires WellFormed(c) && Reachable(c, st)
    requires CrtAt(st.crt, s).CrtLooked? && CrtAt(st.crt, s).v.indegree == 0
    ensures var v := CrtAt(st.crt, s).v;
            v.allSize <= c.threshold ==> Decide(c, s, v, DataAt(st.data, s)) == CrtDecided(ToWs, v.allSize)
    ensures var v := CrtAt(st.crt, s).v;
            v.allSize > c.threshold ==>
            exists m: nat ::
              && m < |v.sizes| == |v.parents| == |v.names|
              && (forall j :: 0 <= j < |v.sizes| ==> v.sizes[j] <= v.sizes[m])
              && (forall j :: 0 <= j < m ==> v.sizes[j] < v.sizes[m])
              && v.names[m] in DataAt(st.data, v.parents[m])
              && Decide(c, s, v, DataAt(st.data, s)) ==
                 CrtDecided(if v.parents[m] == s || v.names[m] in DataAt(st.data, s) then ToLocal
                            else ToPeer(v.parents[m]), v.sizes[m])
  {
    hide WellFormed, Reachable, Inv, NoteOk, Stored, InDeg;
    ReachableInv(c, st);
    WfChildren(c);
    var v := CrtAt(st.crt, s).v;
    if v.allSize <= c.threshold { return; }
    var t := LookedFacts(c, st, s);
    DecideSound(c, t, v, st.notified, st.ranAt, st.data, st.result);
    FirstMaxSpec(v.sizes);
    var m := FirstMax(v.sizes).value;
    Available(c, NotesAt(st.notified, t), m, st.notified, st.ranAt, t, st.data, st.result, v);
  }

  lemma LookedFacts(c: Config, st: State, s: Sched) returns (t: Task)
    requires |c.children| == c.n && Inv(c, st) && CrtAt(st.crt, s).CrtLooked? && CrtAt(st.crt, s).v.indegree == 0
    ensures |At(st.q, Check(s))| == 1 && t == At(st.q, Check(s))[0].id
    ensures NoteOk(c, st.notified, st.ranAt, t) && Stored(c, st.data, st.ranAt, st.result)
    ensures CrtAt(st.crt, s).v == Replay(c, t, NotesAt(st.notified, t), st.ranAt)
  {
    hide Conserved, Stages, Records, Notifiers, CompleteOk, Stored, Cores, InputsOk, History,
         Received, Accounted, CountStages, CountedOk, CountingOk, CoreDomain, CrtDomain, CctDomain, RecDomain, Replay;
    assert |At(st.q, Check(s))| == 1;
    t := At(st.q, Check(s))[0].id;
    assert CheckerOk(c, st.notified, st.ranAt, CrtAt(st.crt, s), At(st.q, Check(s))[0]);
    assert NoteOk(c, st.notified, st.ranAt, t);
    ReadZero(c, st.notified, st.ranAt, t, CrtAt(st.crt, s).v);
  }
}
