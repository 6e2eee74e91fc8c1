/** Executing and counting tasks keep the invariant. */
module MatrixExec {
  import opened MatrixModel
  import opened MatrixInvariant
  import opened MatrixBasics
  import opened MatrixDispatch

  ghost predicate OnlyCore(core: map<Place, CorePc>, core': map<Place, CorePc>, p: Place) {
    forall p' :: p' != p ==> CoreAt(core', p') == CoreAt(core, p')
  }

  lemma CoreSlots(q: Queues, q': Queues, p: Place, other: Place, crt: map<Sched, CrtPc>,
                  core: map<Place, CorePc>, core': map<Place, CorePc>, cct: map<Sched, CctPc>)
    requires Slots(q, crt, core, cct) && SameElsewhere(q, q', p, other) && p.Core? && !IsSlot(other)
    requires OnlyCore(core, core', p) && |At(q', p)| == B(CoreBusy(CoreAt(core', p)))
    ensures Slots(q', crt, core', cct)
  {
  }

  lemma CoreCores(c: Config, q: Queues, q': Queues, p: Place, other: Place, core: map<Place, CorePc>,
                  core': map<Place, CorePc>,
                  notified: Notes, ranAt: Sites, result: map<Task, Piece>)
    requires Cores(c, q, core, notified, ranAt, result) && SameElsewhere(q, q', p, other) && p.Core? && !IsSlot(other)
    requires OnlyCore(core, core', p)
    requires |At(q', p)| == 1 ==> CoreOk(c, NotesAt(notified, At(q', p)[0].id), ranAt, result, CoreAt(core', p),
                                         At(q', p)[0].id)
    ensures Cores(c, q', core', notified, ranAt, result)
  {
    forall s: nat, k: nat | |At(q', Core(s, k))| == 1
      ensures CoreOk(c, NotesAt(notified, At(q', Core(s, k))[0].id), ranAt, result, CoreAt(core', Core(s, k)),
                     At(q', Core(s, k))[0].id)
    {
      if Core(s, k) != p { assert At(q', Core(s, k)) == At(q, Core(s, k)); }
    }
  }

  // ---------- Taking a task ----------

  lemma StartStages(c: Config, q: Queues, q': Queues, from: Place, p: Place, crt: map<Sched, CrtPc>,
                    core: map<Place, CorePc>, core': map<Place, CorePc>, cct: map<Sched, CctPc>, ranAt: Sites,
                    notified: Notes)
    requires Transfer(q, q', from, p) && Stages(c, q, crt, core, cct, ranAt, notified)
    requires (from.Ws? || from.Local?) && p.Core? && OnlyCore(core, core', p)
    requires At(q, p) == [] && !CoreAt(core', p).CoreRan?
    ensures Stages(c, q', crt, core', cct, ranAt, notified)
  {
    hide Cnt, Transfer, Stages;
    StagesByTransfer(c, q, q', from, p, crt, core, cct, crt, core', cct, ranAt, notified);
  }

  lemma StartCounts(q: Queues, q': Queues, from: Place, p: Place, core: map<Place, CorePc>,
                    counted: map<Sched, set<Task>>)
    requires CountStages(q, core, counted) && Transfer(q, q', from, p) && (from.Ws? || from.Local?) && p.Core?
             && CoreAt(core, p).CoreIdle?
    ensures CountStages(q', core[p := CorePopped], counted)
  {
    hide Transfer, CountStages;
    CountsByTransfer(q, q', from, p, core, counted);
    CountsSwap(q', core, counted, p, CorePopped);
  }

  lemma StageSwap(core: map<Place, CorePc>, counted: map<Sched, set<Task>>, p: Place, pc: CorePc, pl: Place, t: Task)
    requires CountStage(core, counted, pl, t) && !CoreAt(core, p).CoreCounting? && !pc.CoreCounting?
    ensures CountStage(core[p := pc], counted, pl, t)
  {
    if AfterExec(pl) && t !in SetAt(counted, pl.s) {
      var k: nat :| CoreAt(core, Core(pl.s, k)) == CoreCounting(t);
      assert CoreAt(core[p := pc], Core(pl.s, k)) == CoreCounting(t);
    } else if !AfterExec(pl) {
      var core' := core[p := pc];
      forall pl
        ensures CoreAt(core', pl) != CoreCounting(t)
      {
        assert CoreAt(core, pl) != CoreCounting(t);
      }
    }
  }

  /** Program counters that do not count are irrelevant to the accounting. */
  lemma CountsSwap(q: Queues, core: map<Place, CorePc>, counted: map<Sched, set<Task>>, p: Place, pc: CorePc)
    requires CountStages(q, core, counted) && !CoreAt(core, p).CoreCounting? && !pc.CoreCounting?
    ensures CountStages(q, core[p := pc], counted)
  {
    forall pl, t: nat | Cnt(q, pl, t) > 0
      ensures CountStage(core[p := pc], counted, pl, t)
    {
      assert CountStage(core, counted, pl, t);
      StageSwap(core, counted, p, pc, pl, t);
    }
  }

  lemma CountingSwap(core: map<Place, CorePc>, counted: map<Sched, set<Task>>, ranAt: Sites, p: Place, pc: CorePc)
    requires CountingOk(core, counted, ranAt) && !pc.CoreCounting?
    ensures CountingOk(core[p := pc], counted, ranAt)
  {
    var core' := core[p := pc];
    forall p1 | CoreAt(core', p1).CoreCounting?
      ensures CoreAt(core', p1) == CoreAt(core, p1)
    {
      assert p1 != p;
    }
  }

  lemma CoreDomainSwap(c: Config, core: map<Place, CorePc>, p: Place, pc: CorePc)
    requires CoreDomain(c, core) && p.Core? && (!pc.CoreIdle? ==> ValidPlace(c, p) || !CoreAt(core, p).CoreIdle?)
    ensures CoreDomain(c, core[p := pc])
  {
  }

  lemma IdleCore(st: State, s: Sched, k: nat)
    requires Slots(st.q, st.crt, st.core, st.cct) && CoreAt(st.core, Core(s, k)).CoreIdle?
    ensures At(st.q, Core(s, k)) == []
  {
  }

  lemma ExecStartInv(c: Config, st: State, st': State, s: Sched, k: nat, from: Place, x: Item, rest: seq<Item>)
    requires Inv(c, st) && s < c.numSched && DoExecStart(c, st, st', s, k, from, x, rest)
    ensures Inv(c, st')
  {
    hide Conserved, Slots, Stages, NotesOk, Records, Notifiers, CompleteOk, Checkers, Stored, Cores, InputsOk, History,
         Received, Accounted, CountStages, CountedOk, CountingOk, CoreDomain, CrtDomain, CctDomain, RecDomain,
         PoppedTops, Transfer, Cnt;
    var p := Core(s, k);
    IdleCore(st, s, k);
    TransferPopped(st.q, from, p, rest, [x]);
    ConservedByTransfer(c, st.q, st'.q, from, p);
    CoreSlots(st.q, st'.q, p, from, st.crt, st.core, st'.core, st.cct);
    NotifiersFrame(c, st.q, st'.q, from, p, st.cct, st.notified, st.ranAt);
    CompleteFrame(c, st.q, st'.q, from, p);
    CheckersFrame(c, st.q, st'.q, from, p, st.crt, st.notified, st.ranAt);
    CoreCores(c, st.q, st'.q, p, from, st.core, st'.core, st.notified, st.ranAt, st.result);
    ReceivedFrame(c, st.q, st'.q, from, p, st.recv, st.recvCtr, st.started);
    StartStages(c, st.q, st'.q, from, p, st.crt, st.core, st'.core, st.cct, st.ranAt, st.notified);
    StartCounts(st.q, st'.q, from, p, st.core, st.counted);
    CountingSwap(st.core, st.counted, st.ranAt, p, CorePopped);
    CoreDomainSwap(c, st.core, p, CorePopped);
  }

  // ---------- Gathering input data ----------

  lemma StayCoreStages(c: Config, q: Queues, p: Place, crt: map<Sched, CrtPc>, core: map<Place, CorePc>,
                       core': map<Place, CorePc>,
                       cct: map<Sched, CctPc>, ranAt: Sites, notified: Notes)
    requires Stages(c, q, crt, core, cct, ranAt, notified) && OnlyCore(core, core', p) && p.Core?
    requires CoreAt(core', p).CoreRan? == CoreAt(core, p).CoreRan?
    ensures Stages(c, q, crt, core', cct, ranAt, notified)
  {
    forall pl, t: nat | Cnt(q, pl, t) > 0
      ensures Placed(c, crt, core', cct, ranAt, notified, pl, t)
    {
      assert Placed(c, crt, core, cct, ranAt, notified, pl, t);
      PlacedView(c, crt, core, cct, crt, core', cct, ranAt, notified, pl, t);
    }
  }

  /** A step of an executing thread before its command runs. */
  lemma GatherStep(c: Config, st: State, st': State, p: Place, pc: CorePc)
    requires Inv(c, st) && st' == st.(core := st.core[p := pc], data := st'.data) && p.Core?
    requires CoreBusy(pc) && !pc.CoreRan? && CoreBusy(CoreAt(st.core, p)) && !CoreAt(st.core, p).CoreRan?
    requires |At(st.q, p)| == 1 ==>
               CoreOk(c, NotesAt(st.notified, At(st.q, p)[0].id), st.ranAt, st.result, pc, At(st.q, p)[0].id)
    requires Stored(c, st'.data, st.ranAt, st.result)
    ensures Inv(c, st')
  {
    assert |At(st.q, Core(p.s, p.k))| == 1;
    hide Conserved, Slots, Stages, NotesOk, Records, Notifiers, CompleteOk, Checkers, Stored, Cores, InputsOk, History,
         Received, Accounted, CountStages, CountedOk, CountingOk, CoreDomain, CrtDomain, CctDomain, RecDomain, CoreOk;
    CoreSlots(st.q, st.q, p, Wait(0), st.crt, st.core, st'.core, st.cct);
    CoreCores(c, st.q, st.q, p, Wait(0), st.core, st'.core, st.notified, st.ranAt, st.result);
    StayCoreStages(c, st.q, p, st.crt, st.core, st'.core, st.cct, st.ranAt, st.notified);
    CountsSwap(st.q, st.core, st.counted, p, pc);
    CountingSwap(st.core, st.counted, st.ranAt, p, pc);
    CoreDomainSwap(c, st.core, p, pc);
  }

  /** What the invariant says about the executing thread at p. */
  lemma AtCore(c: Config, st: State, s: Sched, k: nat) returns (t: Task)
    requires Inv(c, st) && CoreBusy(CoreAt(st.core, Core(s, k)))
    ensures |At(st.q, Core(s, k))| == 1 && t == At(st.q, Core(s, k))[0].id && t < c.n
    ensures CoreOk(c, NotesAt(st.notified, t), st.ranAt, st.result, CoreAt(st.core, Core(s, k)), t)
    ensures NoteOk(c, st.notified, st.ranAt, t)
    ensures ZhtAt(st.zht, t) == Replay(c, t, NotesAt(st.notified, t), st.ranAt)
    ensures Placed(c, st.crt, st.core, st.cct, st.ranAt, st.notified, Core(s, k), t)
  {
    assert |At(st.q, Core(s, k))| == 1;
    t := At(st.q, Core(s, k))[0].id;
    CntAt(st.q, Core(s, k), 0);
  }

  lemma ExecLookupInv(c: Config, st: State, st': State, s: Sched, k: nat)
    requires Inv(c, st) && DoExecLookup(c, st, st', s, k)
    ensures Inv(c, st')
  {
    hide Conserved, Slots, Stages, NotesOk, Records, Notifiers, CompleteOk, Checkers, Stored, Cores, InputsOk, History,
         Received, Accounted, CountStages, CountedOk, CountingOk, CoreDomain, CrtDomain, CctDomain, RecDomain;
    var t := AtCore(c, st, s, k);
    GatherStep(c, st, st', Core(s, k), CoreFetch(ZhtAt(st.zht, t), 0, []));
  }

  lemma NoteRan(c: Config, es: seq<Edge>, i: nat, notified: Notes, ranAt: Sites, t: Task)
    requires NoteOk(c, notified, ranAt, t) && es == NotesAt(notified, t) && i < |es|
    ensures es[i].p in ranAt
  {
    hide Into;
    assert es[i] in es;
  }

  lemma OwnResult(c: Config, data: map<Sched, map<Name, Piece>>, ranAt: Sites, result: map<Task, Piece>, p: Task)
    requires Stored(c, data, ranAt, result) && p in ranAt
    ensures Name(ranAt[p], p) in DataAt(data, ranAt[p])
  {
    hide ResultsKnown, AllDataOk;
  }

  /** The i-th entry of a record. */
  lemma EntryAt(c: Config, es: seq<Edge>, i: nat, ranAt: Sites, t: Task, v: Value)
    requires v == Replay(c, t, es, ranAt) && i < |es| && es[i].p in ranAt
    ensures NameAt(v, i) == Name(ranAt[es[i].p], es[i].p) && ParentAt(v, i) == ranAt[es[i].p]
    ensures SizeAt(v, i) == SizeList(c, es)[i]
  {
    hide InDeg, Sum;
  }

  /** The recorded holder of a parent's output really holds it, and all copies are alike. */
  lemma Available(c: Config, es: seq<Edge>, i: nat, notified: Notes, ranAt: Sites, t: Task,
                  data: map<Sched, map<Name, Piece>>, result: map<Task, Piece>, v: Value)
    requires Stored(c, data, ranAt, result) && NoteOk(c, notified, ranAt, t) && es == NotesAt(notified, t) && i < |es|
    requires v == Replay(c, t, es, ranAt)
    ensures NameAt(v, i) in DataAt(data, ParentAt(v, i))
    ensures SizeAt(v, i) == SizeList(c, es)[i]
    ensures NameAt(v, i).t == es[i].p && es[i].p in ranAt && NameAt(v, i).s == ranAt[es[i].p]
    ensures ParentAt(v, i) == ranAt[es[i].p]
  {
    hide Stored, NoteOk, Replay, SizeList, NameAt, ParentAt, SizeAt;
    NoteRan(c, es, i, notified, ranAt, t);
    EntryAt(c, es, i, ranAt, t, v);
    OwnResult(c, data, ranAt, result, es[i].p);
  }

  lemma CopyAgrees(c: Config, s: Sched, nm: Name, ranAt: Sites, data: map<Sched, map<Name, Piece>>,
                   result: map<Task, Piece>)
    requires Stored(c, data, ranAt, result) && nm in DataAt(data, s)
    ensures Find(DataAt(data, s), nm) == PieceAt(result, nm.t)
  {
    assert DataOk(DataAt(data, s), ranAt, result);
  }

  lemma FetchOk(c: Config, st: State, st': State, s: Sched, k: nat, t: Task, es: seq<Edge>)
    requires DoExecFetch(c, st, st', s, k) && CoreOk(c, es, st.ranAt, st.result, CoreAt(st.core, Core(s, k)), t)
    requires var pc := CoreAt(st.core, Core(s, k));
             ParentAt(pc.v, pc.i) == s || NameAt(pc.v, pc.i) in DataAt(st.data, s) ==>
               Find(DataAt(st.data, s), NameAt(pc.v, pc.i)) == PieceAt(st.result, es[pc.i].p)
    ensures CoreOk(c, es, st.ranAt, st.result, CoreAt(st'.core, Core(s, k)), t)
  {
  }

  lemma ExecFetchInv(c: Config, st: State, st': State, s: Sched, k: nat)
    requires Inv(c, st) && DoExecFetch(c, st, st', s, k)
    ensures Inv(c, st')
  {
    hide Conserved, Slots, Stages, NotesOk, Records, Notifiers, CompleteOk, Checkers, Stored, Cores, InputsOk, History,
         Received, Accounted, CountStages, CountedOk, CountingOk, CoreDomain, CrtDomain, CctDomain, RecDomain, NoteOk,
         Placed, InputOk;
    var t := AtCore(c, st, s, k);
    var pc := CoreAt(st.core, Core(s, k));
    Available(c, NotesAt(st.notified, t), pc.i, st.notified, st.ranAt, t, st.data, st.result, pc.v);
    var at := if NameAt(pc.v, pc.i) in DataAt(st.data, s) then s else ParentAt(pc.v, pc.i);
    CopyAgrees(c, at, NameAt(pc.v, pc.i), st.ranAt, st.data, st.result);
    FetchOk(c, st, st', s, k, t, NotesAt(st.notified, t));
    GatherStep(c, st, st', Core(s, k), CoreAt(st'.core, Core(s, k)));
  }

  lemma ExecRemoteInv(c: Config, st: State, st': State, s: Sched, k: nat)
    requires Inv(c, st) && DoExecRemote(c, st, st', s, k)
    ensures Inv(c, st')
  {
    hide Conserved, Slots, Stages, NotesOk, Records, Notifiers, CompleteOk, Checkers, Stored, Cores, InputsOk, History,
         Received, Accounted, CountStages, CountedOk, CountingOk, CoreDomain, CrtDomain, CctDomain, RecDomain, NoteOk,
         Placed;
    var t := AtCore(c, st, s, k);
    var pc := CoreAt(st.core, Core(s, k));
    Available(c, NotesAt(st.notified, t), pc.i, st.notified, st.ranAt, t, st.data, st.result, pc.v);
    CopyAgrees(c, ParentAt(pc.v, pc.i), NameAt(pc.v, pc.i), st.ranAt, st.data, st.result);
    GatherStep(c, st, st', Core(s, k), CoreAt(st'.core, Core(s, k)));
  }

  lemma DataInsert(m: map<Name, Piece>, ranAt: Sites, result: map<Task, Piece>, nm: Name)
    requires DataOk(m, ranAt, result) && nm.t in ranAt && ranAt[nm.t] == nm.s
    ensures DataOk(InsertNew(m, nm, PieceAt(result, nm.t)), ranAt, result)
  {
  }

  lemma OwnInsert(c: Config, data: map<Sched, map<Name, Piece>>, ranAt: Sites, s: Sched, nm: Name, v: Piece)
    requires OwnResults(c, data, ranAt)
    ensures OwnResults(c, data[s := InsertNew(DataAt(data, s), nm, v)], ranAt)
  {
  }

  lemma AllInsert(data: map<Sched, map<Name, Piece>>, ranAt: Sites, result: map<Task, Piece>, s: Sched, nm: Name)
    requires AllDataOk(data, ranAt, result) && nm.t in ranAt && ranAt[nm.t] == nm.s
    ensures AllDataOk(data[s := InsertNew(DataAt(data, s), nm, PieceAt(result, nm.t))], ranAt, result)
  {
    hide DataOk, InsertNew;
    var data' := data[s := InsertNew(DataAt(data, s), nm, PieceAt(result, nm.t))];
    forall s1: nat
      ensures DataOk(DataAt(data', s1), ranAt, result)
    {
      assert DataOk(DataAt(data, s1), ranAt, result);
      if s1 == s { DataInsert(DataAt(data, s), ranAt, result, nm); }
    }
  }

  /** Caching a copy of a known result keeps all copies alike. */
  lemma StoredInsert(c: Config, data: map<Sched, map<Name, Piece>>, ranAt: Sites, result: map<Task, Piece>, s: Sched,
                     nm: Name)
    requires Stored(c, data, ranAt, result) && nm.t in ranAt && ranAt[nm.t] == nm.s
    ensures Stored(c, data[s := InsertNew(DataAt(data, s), nm, PieceAt(result, nm.t))], ranAt, result)
  {
    hide ResultsKnown, OwnResults, AllDataOk, InsertNew;
    OwnInsert(c, data, ranAt, s, nm, PieceAt(result, nm.t));
    AllInsert(data, ranAt, result, s, nm);
  }

  lemma ExecCacheInv(c: Config, st: State, st': State, s: Sched, k: nat)
    requires Inv(c, st) && DoExecCache(c, st, st', s, k)
    ensures Inv(c, st')
  {
    hide Conserved, Slots, Stages, NotesOk, Records, Notifiers, CompleteOk, Checkers, Stored, Cores, InputsOk, History,
         Received, Accounted, CountStages, CountedOk, CountingOk, CoreDomain, CrtDomain, CctDomain, RecDomain, Placed;
    var t := AtCore(c, st, s, k);
    var pc := CoreAt(st.core, Core(s, k));
    var es := NotesAt(st.notified, t);
    Available(c, es, pc.i, st.notified, st.ranAt, t, st.data, st.result, pc.v);
    assert es[pc.i] in es;
    StoredInsert(c, st.data, st.ranAt, st.result, s, NameAt(pc.v, pc.i));
    GatherStep(c, st, st', Core(s, k), CoreAt(st'.core, Core(s, k)));
  }
}
