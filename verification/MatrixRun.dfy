/** Running, completing and counting a task keep the invariant. */
module MatrixRun {
  import opened MatrixModel
  import opened MatrixInvariant
  import opened MatrixBasics
  import opened MatrixDispatch
  import opened MatrixExec

  // ---------- A new execution does not disturb what was recorded before ----------

  lemma ReplayStable(c: Config, t0: Task, es: seq<Edge>, ranAt: Sites, t: Task, s: Sched)
    requires t !in ranAt && forall k :: 0 <= k < |es| ==> es[k].p in ranAt
    ensures Replay(c, t0, es, ranAt[t := s]) == Replay(c, t0, es, ranAt)
  {
    assert ParentList(es, ranAt[t := s]) == ParentList(es, ranAt);
    assert NameList(es, ranAt[t := s]) == NameList(es, ranAt);
  }

  lemma NotesRan(c: Config, notified: Notes, ranAt: Sites, t0: Task)
    requires NotesOk(c, notified, ranAt)
    ensures forall k :: 0 <= k < |NotesAt(notified, t0)| ==> NotesAt(notified, t0)[k].p in ranAt
  {
    var es := NotesAt(notified, t0);
    assert NoteOk(c, notified, ranAt, t0);
    forall k | 0 <= k < |es|
      ensures es[k].p in ranAt
    {
      assert es[k] in es;
    }
  }

  lemma RunRecords(c: Config, zht: map<Task, Value>, notified: Notes, ranAt: Sites, t: Task, s: Sched)
    requires Records(c, zht, notified, ranAt) && NotesOk(c, notified, ranAt) && t !in ranAt
    ensures Records(c, zht, notified, ranAt[t := s])
  {
    hide NotesOk, Replay;
    forall t0: nat | t0 < c.n
      ensures ZhtAt(zht, t0) == Replay(c, t0, NotesAt(notified, t0), ranAt[t := s])
    {
      NotesRan(c, notified, ranAt, t0);
      ReplayStable(c, t0, NotesAt(notified, t0), ranAt, t, s);
    }
  }

  lemma RunNotes(c: Config, notified: Notes, ranAt: Sites, t: Task, s: Sched)
    requires NotesOk(c, notified, ranAt)
    ensures NotesOk(c, notified, ranAt[t := s])
  {
    var ranAt' := ranAt[t := s];
    forall t0: nat
      ensures NoteOk(c, notified, ranAt', t0)
    {
      assert NoteOk(c, notified, ranAt, t0);
    }
  }

  lemma RunSnapshot(c: Config, notified: Notes, ranAt: Sites, t: Task, s: Sched, t0: Task, v: Value)
    requires Snapshot(c, notified, ranAt, t0, v) && NotesOk(c, notified, ranAt) && t !in ranAt
    ensures Snapshot(c, notified, ranAt[t := s], t0, v)
  {
    NotesRan(c, notified, ranAt, t0);
    ReplayStable(c, t0, NotesAt(notified, t0)[..|v.parents|], ranAt, t, s);
  }

  lemma RunNotifiers(c: Config, q: Queues, cct: map<Sched, CctPc>, notified: Notes, ranAt: Sites, t: Task, s: Sched)
    requires Notifiers(c, q, cct, notified, ranAt) && NotesOk(c, notified, ranAt) && t !in ranAt
    ensures Notifiers(c, q, cct, notified, ranAt[t := s])
  {
    hide Snapshot, NotesOk;
    forall s1: nat | |At(q, Notify(s1))| == 1
      ensures NotifierOk(c, notified, ranAt[t := s], CctAt(cct, s1), At(q, Notify(s1))[0])
    {
      var pc := CctAt(cct, s1);
      if pc.CctRead? { RunSnapshot(c, notified, ranAt, t, s, pc.kids[pc.i], pc.seen); }
    }
  }

  lemma RunCheckers(c: Config, q: Queues, crt: map<Sched, CrtPc>, notified: Notes, ranAt: Sites, t: Task, s: Sched)
    requires Checkers(c, q, crt, notified, ranAt) && NotesOk(c, notified, ranAt) && t !in ranAt
    ensures Checkers(c, q, crt, notified, ranAt[t := s])
  {
    hide Snapshot, NotesOk;
    forall s1: nat | |At(q, Check(s1))| == 1
      ensures CheckerOk(c, notified, ranAt[t := s], CrtAt(crt, s1), At(q, Check(s1))[0])
    {
      var pc := CrtAt(crt, s1);
      if pc.CrtLooked? { RunSnapshot(c, notified, ranAt, t, s, At(q, Check(s1))[0].id, pc.v); }
    }
  }

  lemma {:induction false} InputsStable(es: seq<Edge>, sizes: seq<int>, result: map<Task, Piece>, i: nat, t: Task,
                                        out: Piece)
    requires forall k :: 0 <= k < |es| ==> es[k].p != t
    ensures Inputs(es, sizes, result[t := out], i) == Inputs(es, sizes, result, i)
  {
    if i > 0 { InputsStable(es, sizes, result, i - 1, t, out); }
  }

  lemma CoreStable(c: Config, es: seq<Edge>, ranAt: Sites, result: map<Task, Piece>, pc: CorePc, t0: Task, t: Task,
                   s: Sched, out: Piece)
    requires CoreOk(c, es, ranAt, result, pc, t0) && t !in ranAt && forall k :: 0 <= k < |es| ==> es[k].p in ranAt
    ensures CoreOk(c, es, ranAt[t := s], result[t := out], pc, t0)
  {
    ReplayStable(c, t0, es, ranAt, t, s);
    if pc.CoreFetch? || pc.CoreNeed? || pc.CoreGot? {
      InputsStable(es, SizeList(c, es), result, pc.i, t, out);
    }
  }

  lemma RunCores(c: Config, q: Queues, core: map<Place, CorePc>, notified: Notes, ranAt: Sites,
                 result: map<Task, Piece>,
                 p: Place, t: Task, out: Piece)
    requires Cores(c, q, core, notified, ranAt, result) && NotesOk(c, notified, ranAt) && t !in ranAt
    requires p.Core? && CoreAt(core, p).CoreFetch? && |At(q, p)| == 1
    ensures Cores(c, q, core[p := CoreRan(CoreAt(core, p).v)], notified, ranAt[t := p.s], result[t := out])
  {
    hide NotesOk, Replay, InputOk;
    var core' := core[p := CoreRan(CoreAt(core, p).v)];
    forall s: nat, k: nat | |At(q, Core(s, k))| == 1
      ensures CoreOk(c, NotesAt(notified, At(q, Core(s, k))[0].id), ranAt[t := p.s], result[t := out],
                     CoreAt(core', Core(s, k)), At(q, Core(s, k))[0].id)
    {
      var t0 := At(q, Core(s, k))[0].id;
      NotesRan(c, notified, ranAt, t0);
      CoreStable(c, NotesAt(notified, t0), ranAt, result, CoreAt(core, Core(s, k)), t0, t, p.s, out);
    }
  }

  lemma RunInputs(c: Config, input: map<Task, seq<Piece>>, notified: Notes, ranAt: Sites, result: map<Task, Piece>,
                  t: Task, s: Sched, out: Piece, acc: seq<Piece>)
    requires InputsOk(c, input, notified, ranAt, result) && NotesOk(c, notified, ranAt) && t !in ranAt
    requires InputOk(c, NotesAt(notified, t), result, |NotesAt(notified, t)|, acc)
    ensures InputsOk(c, input[t := acc], notified, ranAt[t := s], result[t := out])
  {
    hide NotesOk, Inputs;
    forall t0: nat | t0 in ranAt[t := s]
      ensures t0 in input[t := acc]
              && InputOk(c, NotesAt(notified, t0), result[t := out], |NotesAt(notified, t0)|, input[t := acc][t0])
    {
      NotesRan(c, notified, ranAt, t0);
      InputsStable(NotesAt(notified, t0), SizeList(c, NotesAt(notified, t0)), result, |NotesAt(notified, t0)|, t, out);
    }
  }

  lemma RunStages(c: Config, q: Queues, crt: map<Sched, CrtPc>, core: map<Place, CorePc>, cct: map<Sched, CctPc>,
                  ranAt: Sites,
                  notified: Notes, p: Place, t: Task)
    requires Conserved(c, q) && Stages(c, q, crt, core, cct, ranAt, notified)
    requires p.Core? && CoreAt(core, p).CoreFetch? && |At(q, p)| == 1 && At(q, p)[0].id == t
    ensures Stages(c, q, crt, core[p := CoreRan(CoreAt(core, p).v)], cct, ranAt[t := p.s], notified)
  {
    var core' := core[p := CoreRan(CoreAt(core, p).v)];
    forall pl, t0: nat | Cnt(q, pl, t0) > 0
      ensures Placed(c, crt, core', cct, ranAt[t := p.s], notified, pl, t0)
    {
      CntAt(q, p, 0);
      OnlyTaskAt(c, q, p, t, pl, t0);
      if pl == p { var i := CntIndex(q, p, t0); }
      assert Placed(c, crt, core, cct, ranAt, notified, pl, t0);
      hide Conserved, Stages, Cnt, NotifiedUpTo, Ready, SentTo, Dispatched;
      assert pl != p ==> PreRun(core', pl) == PreRun(core, pl);
    }
  }

  lemma OnlyTaskAt(c: Config, q: Queues, p: Place, t: Task, pl: Place, t0: Task)
    requires Conserved(c, q) && Cnt(q, p, t) > 0 && Cnt(q, pl, t0) > 0
    ensures t0 == t ==> pl == p
  {
  }

  lemma OwnRun(c: Config, data: map<Sched, map<Name, Piece>>, ranAt: Sites, t: Task, s: Sched, out: Piece)
    requires OwnResults(c, data, ranAt) && s < c.numSched
    ensures OwnResults(c, data[s := InsertNew(DataAt(data, s), Name(s, t), out)], ranAt[t := s])
  {
  }

  lemma DataRun(m: map<Name, Piece>, ranAt: Sites, result: map<Task, Piece>, t: Task, s: Sched, out: Piece)
    requires DataOk(m, ranAt, result) && t !in ranAt
    ensures DataOk(m, ranAt[t := s], result[t := out])
    ensures DataOk(InsertNew(m, Name(s, t), out), ranAt[t := s], result[t := out])
  {
    assert Name(s, t) !in m;
  }

  lemma AllDataRun(data: map<Sched, map<Name, Piece>>, ranAt: Sites, result: map<Task, Piece>, t: Task, s: Sched,
                   out: Piece)
    requires AllDataOk(data, ranAt, result) && t !in ranAt
    ensures AllDataOk(data[s := InsertNew(DataAt(data, s), Name(s, t), out)], ranAt[t := s], result[t := out])
  {
    hide DataOk, InsertNew;
    var data' := data[s := InsertNew(DataAt(data, s), Name(s, t), out)];
    forall s1: nat
      ensures DataOk(DataAt(data', s1), ranAt[t := s], result[t := out])
    {
      assert DataOk(DataAt(data, s1), ranAt, result);
      DataRun(DataAt(data, s1), ranAt, result, t, s, out);
    }
  }

  lemma RunStored(c: Config, data: map<Sched, map<Name, Piece>>, ranAt: Sites, result: map<Task, Piece>, t: Task,
                  s: Sched, out: Piece)
    requires Stored(c, data, ranAt, result) && t !in ranAt && s < c.numSched
    ensures Stored(c, data[s := InsertNew(DataAt(data, s), Name(s, t), out)], ranAt[t := s], result[t := out])
  {
    OwnRun(c, data, ranAt, t, s, out);
    AllDataRun(data, ranAt, result, t, s, out);
    hide OwnResults, AllDataOk, InsertNew;
  }

  // ---------- Precedence ----------

  /** A ready task has only parents that have run. */
  lemma ReadyParents(c: Config, notified: Notes, ranAt: Sites, runs: seq<Task>, t: Task)
    requires |c.children| == c.n && NoteOk(c, notified, ranAt, t) && Ready(c, notified, t) && History(c, runs, ranAt)
    ensures ParentsIn(c, t, runs)
  {
    NotesBound(c, notified, ranAt, t);
  }

  lemma RunHistory(c: Config, runs: seq<Task>, ranAt: Sites, t: Task, s: Sched)
    requires History(c, runs, ranAt) && ParentsIn(c, t, runs) && t < c.n && t !in ranAt
    ensures History(c, runs + [t], ranAt[t := s])
  {
    var runs' := runs + [t];
    forall i | 0 <= i < |runs'|
      ensures runs'[i] < c.n && ParentsIn(c, runs'[i], runs'[..i])
    {
      assert runs'[..i] == runs[..i];
      assert i == |runs| ==> runs[..i] == runs;
    }
  }

  lemma RunCounted(c: Config, counted: map<Sched, set<Task>>, ranAt: Sites, t: Task, s: Sched)
    requires CountedOk(c, counted, ranAt) && t !in ranAt
    ensures CountedOk(c, counted, ranAt[t := s])
  {
    forall s1: nat
      ensures RanThere(c, SetAt(counted, s1), ranAt[t := s], s1)
    {
      assert RanThere(c, SetAt(counted, s1), ranAt, s1);
    }
  }

  lemma RunCounting(core: map<Place, CorePc>, counted: map<Sched, set<Task>>, ranAt: Sites, t: Task, s: Sched)
    requires CountingOk(core, counted, ranAt) && t !in ranAt
    ensures CountingOk(core, counted, ranAt[t := s])
  {
  }

  lemma RunThreads(c: Config, st: State, s: Sched, k: nat, t: Task, out: Piece, acc: seq<Piece>,
                   core': map<Place, CorePc>)
    requires Inv(c, st) && t !in st.ranAt && s < c.numSched && t < c.n
    requires CoreAt(st.core, Core(s, k)).CoreFetch? && |At(st.q, Core(s, k))| == 1 && At(st.q, Core(s, k))[0].id == t
    requires core' == st.core[Core(s, k) := CoreRan(CoreAt(st.core, Core(s, k)).v)]
    ensures Slots(st.q, st.crt, core', st.cct)
    ensures Stages(c, st.q, st.crt, core', st.cct, st.ranAt[t := s], st.notified)
    ensures Cores(c, st.q, core', st.notified, st.ranAt[t := s], st.result[t := out])
    ensures CountStages(st.q, core', st.counted) && CountingOk(core', st.counted, st.ranAt[t := s])
            && CoreDomain(c, core')
  {
    hide Conserved, Slots, Stages, NotesOk, Records, Notifiers, CompleteOk, Checkers, Stored, Cores, InputsOk, History,
         Received, Accounted, CountStages, CountedOk, CountingOk, CoreDomain, CrtDomain, CctDomain, RecDomain;
    var p := Core(s, k);
    CoreSlots(st.q, st.q, p, Wait(0), st.crt, st.core, core', st.cct);
    RunStages(c, st.q, st.crt, st.core, st.cct, st.ranAt, st.notified, p, t);
    RunCores(c, st.q, st.core, st.notified, st.ranAt, st.result, p, t, out);
    CountsSwap(st.q, st.core, st.counted, p, CoreAt(core', p));
    CountingSwap(st.core, st.counted, st.ranAt, p, CoreAt(core', p));
    RunCounting(core', st.counted, st.ranAt, t, s);
    CoreDomainSwap(c, st.core, p, CoreAt(core', p));
  }

  lemma RunRest(c: Config, st: State, s: Sched, t: Task, out: Piece, acc: seq<Piece>)
    requires Inv(c, st) && t !in st.ranAt && s < c.numSched && t < c.n && ParentsIn(c, t, st.runs)
    requires InputOk(c, NotesAt(st.notified, t), st.result, |NotesAt(st.notified, t)|, acc)
    ensures NotesOk(c, st.notified, st.ranAt[t := s]) && Records(c, st.zht, st.notified, st.ranAt[t := s])
    ensures Notifiers(c, st.q, st.cct, st.notified, st.ranAt[t := s])
            && Checkers(c, st.q, st.crt, st.notified, st.ranAt[t := s])
    ensures Stored(c, st.data[s := InsertNew(DataAt(st.data, s), Name(s, t), out)], st.ranAt[t := s],
                   st.result[t := out])
    ensures InputsOk(c, st.input[t := acc], st.notified, st.ranAt[t := s], st.result[t := out])
    ensures History(c, st.runs + [t], st.ranAt[t := s]) && CountedOk(c, st.counted, st.ranAt[t := s])
  {
    hide Conserved, Slots, Stages, NotesOk, Records, Notifiers, CompleteOk, Checkers, Stored, Cores, InputsOk, History,
         Received, Accounted, CountStages, CountedOk, CountingOk, CoreDomain, CrtDomain, CctDomain, RecDomain;
    RunNotes(c, st.notified, st.ranAt, t, s);
    RunRecords(c, st.zht, st.notified, st.ranAt, t, s);
    RunNotifiers(c, st.q, st.cct, st.notified, st.ranAt, t, s);
    RunCheckers(c, st.q, st.crt, st.notified, st.ranAt, t, s);
    RunStored(c, st.data, st.ranAt, st.result, t, s, out);
    RunInputs(c, st.input, st.notified, st.ranAt, st.result, t, s, out, acc);
    RunHistory(c, st.runs, st.ranAt, t, s);
    RunCounted(c, st.counted, st.ranAt, t, s);
  }

  /** When the command of a task is about to run, its input is complete and its parents have run. */
  lemma RunFacts(c: Config, st: State, s: Sched, k: nat) returns (t: Task)
    requires |c.children| == c.n && Inv(c, st) && CoreAt(st.core, Core(s, k)).CoreFetch?
    requires CoreAt(st.core, Core(s, k)).i >= |CoreAt(st.core, Core(s, k)).v.parents|
    ensures |At(st.q, Core(s, k))| == 1 && t == At(st.q, Core(s, k))[0].id && t < c.n && t !in st.ranAt
    ensures ParentsIn(c, t, st.runs)
    ensures InputOk(c, NotesAt(st.notified, t), st.result, |NotesAt(st.notified, t)|, CoreAt(st.core, Core(s, k)).acc)
  {
    hide Conserved, Slots, Stages, NotesOk, Records, Notifiers, CompleteOk, Checkers, Stored, Cores, InputsOk, History,
         Received, Accounted, CountStages, CountedOk, CountingOk, CoreDomain, CrtDomain, CctDomain, RecDomain, NoteOk;
    t := AtCore(c, st, s, k);
    ReadyParents(c, st.notified, st.ranAt, st.runs, t);
  }

  lemma ExecRunInv(c: Config, st: State, st': State, s: Sched, k: nat, out: Piece)
    requires |c.children| == c.n && Inv(c, st) && s < c.numSched && DoExecRun(c, st, st', s, k, out)
    ensures Inv(c, st')
  {
    hide Conserved, Slots, Stages, NotesOk, Records, Notifiers, CompleteOk, Checkers, Stored, Cores, InputsOk, History,
         Received, Accounted, CountStages, CountedOk, CountingOk, CoreDomain, CrtDomain, CctDomain, RecDomain, InputOk,
         ParentsIn, InsertNew;
    var t := RunFacts(c, st, s, k);
    var pc := CoreAt(st.core, Core(s, k));
    RunThreads(c, st, s, k, t, out, pc.acc, st'.core);
    RunRest(c, st, s, t, out, pc.acc);
  }

  // ---------- completeQueue and numTaskFin ----------

  lemma DoneStages(c: Config, q: Queues, q': Queues, p: Place, crt: map<Sched, CrtPc>, core: map<Place, CorePc>,
                   core': map<Place, CorePc>,
                   cct: map<Sched, CctPc>, ranAt: Sites, notified: Notes)
    requires p.Core? && Transfer(q, q', p, Complete(p.s)) && Stages(c, q, crt, core, cct, ranAt, notified)
    requires OnlyCore(core, core', p) && CoreAt(core, p).CoreRan? && At(q', p) == []
    ensures Stages(c, q', crt, core', cct, ranAt, notified)
  {
    hide Cnt, Transfer, Stages;
    StagesByTransfer(c, q, q', p, Complete(p.s), crt, core, cct, crt, core', cct, ranAt, notified);
  }

  lemma DoneStage(core: map<Place, CorePc>, counted: map<Sched, set<Task>>, p: Place, t: Task, pl: Place, t0: Task)
    requires p.Core? && CoreAt(core, p).CoreRan? && t0 != t && CountStage(core, counted, pl, t0)
    ensures CountStage(core[p := CoreCounting(t)], counted, pl, t0)
  {
    var core' := core[p := CoreCounting(t)];
    if AfterExec(pl) && t0 !in SetAt(counted, pl.s) {
      var k: nat :| CoreAt(core, Core(pl.s, k)) == CoreCounting(t0);
      assert CoreAt(core', Core(pl.s, k)) == CoreCounting(t0);
    } else if !AfterExec(pl) {
      forall p1
        ensures CoreAt(core', p1) != CoreCounting(t0)
      {
        assert CoreAt(core, p1) != CoreCounting(t0);
      }
    }
  }

  lemma DoneCounts(c: Config, q: Queues, q': Queues, core: map<Place, CorePc>, counted: map<Sched, set<Task>>,
                   s: Sched, k: nat, t: Task)
    requires Conserved(c, q') && CountStages(q, core, counted) && Transfer(q, q', Core(s, k), Complete(s))
    requires CoreAt(core, Core(s, k)).CoreRan? && |At(q, Core(s, k))| == 1 && At(q, Core(s, k))[0].id == t
             && Cnt(q', Complete(s), t) > 0
    ensures CountStages(q', core[Core(s, k) := CoreCounting(t)], counted)
  {
    var core' := core[Core(s, k) := CoreCounting(t)];
    assert CoreAt(core', Core(s, k)) == CoreCounting(t);
    forall pl, t0: nat | Cnt(q', pl, t0) > 0
      ensures CountStage(core', counted, pl, t0)
    {
      if t0 == t {
        OnlyTaskAt(c, q', Complete(s), t, pl, t0);
      } else {
        Whereabouts(q, q', Core(s, k), Complete(s), pl, t0);
        if Cnt(q, pl, t0) == 0 { var i := CntIndex(q, Core(s, k), t0); }
        assert CountStage(core, counted, pl, t0);
        DoneStage(core, counted, Core(s, k), t, pl, t0);
      }
    }
  }

  lemma DoneCounting(core: map<Place, CorePc>, counted: map<Sched, set<Task>>, ranAt: Sites, p: Place, t: Task)
    requires CountingOk(core, counted, ranAt) && NotCounted(core, counted, t) && t in ranAt && ranAt[t] == p.s
    ensures CountingOk(core[p := CoreCounting(t)], counted, ranAt)
  {
    var core' := core[p := CoreCounting(t)];
    forall p1 | CoreAt(core', p1).CoreCounting?
      ensures var u := CoreAt(core', p1).t; u in ranAt && ranAt[u] == p1.s && u !in SetAt(counted, p1.s)
    {
      assert p1 != p ==> CoreAt(core', p1) == CoreAt(core, p1);
    }
    forall p1, p2 | CoreAt(core', p1).CoreCounting? && CoreAt(core', p2) == CoreAt(core', p1)
      ensures p1 == p2
    {
      assert p1 != p ==> CoreAt(core', p1) == CoreAt(core, p1);
      assert p2 != p ==> CoreAt(core', p2) == CoreAt(core, p2);
    }
  }

  lemma CompleteAppend(c: Config, q: Queues, src: Place, s: Sched, x: Item)
    requires CompleteOk(c, q) && x.size == OutSize(c, x.id) && src != Complete(s) && !src.Complete?
    ensures CompleteOk(c, Move(q, src, [], Complete(s), At(q, Complete(s)) + [x]))
  {
    var q' := Move(q, src, [], Complete(s), At(q, Complete(s)) + [x]);
    forall s1: nat, j: nat | j < |At(q', Complete(s1))|
      ensures At(q', Complete(s1))[j].size == OutSize(c, At(q', Complete(s1))[j].id)
    {
      assert j < |At(q, Complete(s1))| ==> At(q', Complete(s1))[j] == At(q, Complete(s1))[j];
    }
  }

  lemma ExecCompleteMove(c: Config, st: State, st': State, s: Sched, k: nat, t: Task)
    requires Inv(c, st) && s < c.numSched && DoExecComplete(c, st, st', s, k) && |At(st.q, Core(s, k))| == 1
             && t == At(st.q, Core(s, k))[0].id
    requires Transfer(st.q, st'.q, Core(s, k), Complete(s)) && SameElsewhere(st.q, st'.q, Core(s, k), Complete(s))
             && Cnt(st'.q, Complete(s), t) > 0 && t in st.ranAt && st.ranAt[t] == s
    requires CompleteOk(c, st'.q) && NotCounted(st.core, st.counted, t)
    ensures Inv(c, st')
  {
    hide Conserved, Slots, Stages, NotesOk, Records, Notifiers, CompleteOk, Checkers, Stored, Cores, InputsOk, History,
         Received, Accounted, CountStages, CountedOk, CountingOk, CoreDomain, CrtDomain, CctDomain, RecDomain,
         NotCounted, Cnt, Transfer;
    var p := Core(s, k);
    ConservedByTransfer(c, st.q, st'.q, p, Complete(s));
    CoreSlots(st.q, st'.q, p, Complete(s), st.crt, st.core, st'.core, st.cct);
    NotifiersFrame(c, st.q, st'.q, p, Complete(s), st.cct, st.notified, st.ranAt);
    CheckersFrame(c, st.q, st'.q, p, Complete(s), st.crt, st.notified, st.ranAt);
    CoreCores(c, st.q, st'.q, p, Complete(s), st.core, st'.core, st.notified, st.ranAt, st.result);
    ReceivedFrame(c, st.q, st'.q, p, Complete(s), st.recv, st.recvCtr, st.started);
    DoneStages(c, st.q, st'.q, p, st.crt, st.core, st'.core, st.cct, st.ranAt, st.notified);
    DoneCounts(c, st.q, st'.q, st.core, st.counted, s, k, t);
    DoneCounting(st.core, st.counted, st.ranAt, p, t);
    CoreDomainSwap(c, st.core, p, CoreCounting(t));
  }

  lemma ExecCompleteInv(c: Config, st: State, st': State, s: Sched, k: nat)
    requires Inv(c, st) && s < c.numSched && DoExecComplete(c, st, st', s, k)
    ensures Inv(c, st')
  {
    hide Conserved, Slots, Stages, NotesOk, Records, Notifiers, Checkers, Stored, Cores, InputsOk, History,
         Received, Accounted, CountedOk, CountingOk, CoreDomain, CrtDomain, CctDomain, RecDomain, CompleteOk;
    var t := AtCore(c, st, s, k);
    var x := Item(t, CoreAt(st.core, Core(s, k)).v.outputSize);
    TransferOne(st.q, Core(s, k), Complete(s), x);
    CompleteAppend(c, st.q, Core(s, k), s, x);
    CntAt(st.q, Core(s, k), 0);
    assert At(st'.q, Complete(s))[|At(st.q, Complete(s))|] == x;
    CntAt(st'.q, Complete(s), |At(st.q, Complete(s))|);
    assert CountStage(st.core, st.counted, Core(s, k), t);
    ExecCompleteMove(c, st, st', s, k, t);
  }

  lemma CountStageStep(core: map<Place, CorePc>, counted: map<Sched, set<Task>>, p: Place, pl: Place, t0: Task)
    requires p.Core? && CoreAt(core, p).CoreCounting? && CountStage(core, counted, pl, t0)
             && (AfterExec(pl) && t0 == CoreAt(core, p).t ==> pl.s == p.s)
    ensures CountStage(core[p := CoreIdle], counted[p.s := SetAt(counted, p.s) + {CoreAt(core, p).t}], pl, t0)
  {
    var t := CoreAt(core, p).t;
    var core' := core[p := CoreIdle];
    var counted' := counted[p.s := SetAt(counted, p.s) + {t}];
    if AfterExec(pl) {
      if t0 != t && t0 !in SetAt(counted, pl.s) {
        var k: nat :| CoreAt(core, Core(pl.s, k)) == CoreCounting(t0);
        assert CoreAt(core', Core(pl.s, k)) == CoreCounting(t0);
      }
    } else {
      assert CoreAt(core, p) == CoreCounting(t);
      forall p1
        ensures CoreAt(core', p1) != CoreCounting(t0)
      {
        assert CoreAt(core, p1) != CoreCounting(t0);
      }
      forall s1: nat
        ensures t0 !in SetAt(counted', s1)
      {
        assert t0 !in SetAt(counted, s1);
      }
    }
  }

  lemma CountCounts(c: Config, q: Queues, crt: map<Sched, CrtPc>, cct: map<Sched, CctPc>, notified: Notes,
                    core: map<Place, CorePc>, counted: map<Sched, set<Task>>, ranAt: Sites, p: Place)
    requires CountStages(q, core, counted) && Stages(c, q, crt, core, cct, ranAt, notified) && p.Core?
             && CoreAt(core, p).CoreCounting?
    requires CountingOk(core, counted, ranAt)
    ensures CountStages(q, core[p := CoreIdle], counted[p.s := SetAt(counted, p.s) + {CoreAt(core, p).t}])
  {
    var t := CoreAt(core, p).t;
    forall pl, t0: nat | Cnt(q, pl, t0) > 0
      ensures CountStage(core[p := CoreIdle], counted[p.s := SetAt(counted, p.s) + {t}], pl, t0)
    {
      assert CountStage(core, counted, pl, t0);
      assert Placed(c, crt, core, cct, ranAt, notified, pl, t0);
      assert ranAt[t] == p.s;
      hide Stages, CountStages, CountingOk, NotifiedUpTo, Ready, Cnt, CountStage;
      assert AfterExec(pl) ==> !PreRun(core, pl);
      CountStageStep(core, counted, p, pl, t0);
    }
  }

  lemma CountCounting(core: map<Place, CorePc>, counted: map<Sched, set<Task>>, ranAt: Sites, p: Place)
    requires CountingOk(core, counted, ranAt) && CoreAt(core, p).CoreCounting?
    ensures CountingOk(core[p := CoreIdle], counted[p.s := SetAt(counted, p.s) + {CoreAt(core, p).t}], ranAt)
  {
    var core', counted' := core[p := CoreIdle], counted[p.s := SetAt(counted, p.s) + {CoreAt(core, p).t}];
    forall p1 | CoreAt(core', p1).CoreCounting?
      ensures CoreAt(core', p1) == CoreAt(core, p1) && CoreAt(core', p1).t in ranAt
              && ranAt[CoreAt(core', p1).t] == p1.s
      ensures CoreAt(core', p1).t !in SetAt(counted', p1.s)
    {
      assert p1 != p && CoreAt(core, p1) != CoreAt(core, p);
    }
  }

  lemma CountCounted(c: Config, runs: seq<Task>, counted: map<Sched, set<Task>>, ranAt: Sites, s: Sched, t: Task)
    requires CountedOk(c, counted, ranAt) && History(c, runs, ranAt) && t in ranAt && ranAt[t] == s
    ensures CountedOk(c, counted[s := SetAt(counted, s) + {t}], ranAt)
  {
    var counted' := counted[s := SetAt(counted, s) + {t}];
    var i :| 0 <= i < |runs| && runs[i] == t;
    forall s1: nat
      ensures RanThere(c, SetAt(counted', s1), ranAt, s1)
    {
      assert RanThere(c, SetAt(counted, s1), ranAt, s1);
    }
  }

  lemma CountFin(fin: map<Sched, int>, prev: map<Sched, int>, counted: map<Sched, set<Task>>, s: Sched, t: Task)
    requires FinOk(fin, prev, counted) && t !in SetAt(counted, s)
    ensures FinOk(fin[s := NumAt(fin, s) + 1], prev, counted[s := SetAt(counted, s) + {t}])
  {
    var fin' := fin[s := NumAt(fin, s) + 1];
    var counted' := counted[s := SetAt(counted, s) + {t}];
    forall s1: nat
      ensures NumAt(fin', s1) == |SetAt(counted', s1)| && NumAt(prev, s1) <= NumAt(fin', s1)
    {
      assert NumAt(fin, s1) == |SetAt(counted, s1)| && NumAt(prev, s1) <= NumAt(fin, s1);
    }
  }

  lemma CountAccounted(c: Config, rec: map<Sched, RecPc>, fin: map<Sched, int>, prev: map<Sched, int>,
                       counted: map<Sched, set<Task>>,
                       doneCtr: int, stopped: set<Sched>, s: Sched, t: Task)
    requires Accounted(c, rec, fin, prev, counted, doneCtr, stopped) && !RecAt(rec, s).RecSwapped?
             && t !in SetAt(counted, s)
    ensures Accounted(c, rec, fin[s := NumAt(fin, s) + 1], prev, counted[s := SetAt(counted, s) + {t}], doneCtr,
                      stopped)
  {
    hide FinOk;
    var fin' := fin[s := NumAt(fin, s) + 1];
    assert DoneParts(c, rec, fin', prev) == DoneParts(c, rec, fin, prev);
    CountFin(fin, prev, counted, s, t);
  }

  lemma CountingFacts(q: Queues, crt: map<Sched, CrtPc>, core: map<Place, CorePc>, cct: map<Sched, CctPc>,
                      counted: map<Sched, set<Task>>, ranAt: Sites, s: Sched, k: nat)
    requires CountingOk(core, counted, ranAt) && Slots(q, crt, core, cct) && CoreAt(core, Core(s, k)).CoreCounting?
    ensures var t := CoreAt(core, Core(s, k)).t; t in ranAt && ranAt[t] == s && t !in SetAt(counted, s)
    ensures |At(q, Core(s, k))| == 0
  {
  }

  lemma ExecCountInv(c: Config, st: State, st': State, s: Sched, k: nat)
    requires Inv(c, st) && s < c.numSched && DoExecCount(c, st, st', s, k)
    ensures Inv(c, st')
  {
    hide Conserved, Slots, Stages, NotesOk, Records, Notifiers, CompleteOk, Checkers, Stored, Cores, InputsOk, History,
         Received, Accounted, CountStages, CountedOk, CountingOk, CoreDomain, CrtDomain, CctDomain, RecDomain;
    var p := Core(s, k);
    var t := CoreAt(st.core, p).t;
    CountingFacts(st.q, st.crt, st.core, st.cct, st.counted, st.ranAt, s, k);
    CoreSlots(st.q, st.q, p, Wait(0), st.crt, st.core, st'.core, st.cct);
    CoreCores(c, st.q, st.q, p, Wait(0), st.core, st'.core, st.notified, st.ranAt, st.result);
    StayCoreStages(c, st.q, p, st.crt, st.core, st'.core, st.cct, st.ranAt, st.notified);
    CountCounts(c, st.q, st.crt, st.cct, st.notified, st.core, st.counted, st.ranAt, p);
    CountCounting(st.core, st.counted, st.ranAt, p);
    CountCounted(c, st.runs, st.counted, st.ranAt, s, t);
    CountAccounted(c, st.rec, st.fin, st.prev, st.counted, st.doneCtr, st.stopped, s, t);
    CoreDomainSwap(c, st.core, p, CoreIdle);
  }

  lemma ExecInv(c: Config, st: State, st': State, s: Sched, k: nat, a: ExecAct)
    requires WellFormed(c) && Inv(c, st) && s < c.numSched && ExecNext(c, st, st', s, k, a)
    ensures Inv(c, st')
  {
    hide Inv, WellFormed, DoExecStart, DoExecLookup, DoExecFetch, DoExecRemote, DoExecCache, DoExecRun, DoExecComplete,
         DoExecCount;
    WfChildren(c);
    match a
    case ExecStart(from, x, rest) => ExecStartInv(c, st, st', s, k, from, x, rest);
    case ExecLookup => ExecLookupInv(c, st, st', s, k);
    case ExecFetch => ExecFetchInv(c, st, st', s, k);
    case ExecRemote => ExecRemoteInv(c, st, st', s, k);
    case ExecCache => ExecCacheInv(c, st, st', s, k);
    case ExecRun(out) => ExecRunInv(c, st, st', s, k, out);
    case ExecComplete => ExecCompleteInv(c, st, st', s, k);
    case ExecCount => ExecCountInv(c, st, st', s, k);
  }
}
