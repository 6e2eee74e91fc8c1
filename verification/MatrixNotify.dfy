/** Notifying children keeps the invariant. */
module MatrixNotify {
  import opened MatrixModel
  import opened MatrixInvariant
  import opened MatrixBasics
  import opened MatrixDispatch
  import opened MatrixExec
  import opened MatrixRun

  ghost predicate OnlyCct(cct: map<Sched, CctPc>, cct': map<Sched, CctPc>, s: Sched) {
    forall s': nat :: s' != s ==> CctAt(cct', s') == CctAt(cct, s')
  }

  ghost predicate NearNotify(s: Sched, p: Place) { p == Notify(s) || p == Complete(s) || p == Finished(s) }

  lemma CctSlots(q: Queues, q': Queues, s: Sched, src: Place, dst: Place, crt: map<Sched, CrtPc>,
                 core: map<Place, CorePc>,
                 cct: map<Sched, CctPc>, cct': map<Sched, CctPc>)
    requires Slots(q, crt, core, cct) && SameElsewhere(q, q', src, dst) && NearNotify(s, src) && NearNotify(s, dst)
    requires OnlyCct(cct, cct', s) && |At(q', Notify(s))| == B(!CctAt(cct', s).CctIdle?)
    ensures Slots(q', crt, core, cct')
  {
  }

  lemma CctNotifiers(c: Config, q: Queues, q': Queues, s: Sched, src: Place, dst: Place, cct: map<Sched, CctPc>,
                     cct': map<Sched, CctPc>,
                     notified: Notes, ranAt: Sites)
    requires Notifiers(c, q, cct, notified, ranAt) && SameElsewhere(q, q', src, dst) && NearNotify(s, src)
             && NearNotify(s, dst)
    requires OnlyCct(cct, cct', s)
    requires |At(q', Notify(s))| == 1 ==> NotifierOk(c, notified, ranAt, CctAt(cct', s), At(q', Notify(s))[0])
    ensures Notifiers(c, q', cct', notified, ranAt)
  {
    forall s1: nat | |At(q', Notify(s1))| == 1
      ensures NotifierOk(c, notified, ranAt, CctAt(cct', s1), At(q', Notify(s1))[0])
    {
      if s1 != s { assert At(q', Notify(s1)) == At(q, Notify(s1)); }
    }
  }

  lemma CctStages(c: Config, q: Queues, q': Queues, s: Sched, src: Place, dst: Place, crt: map<Sched, CrtPc>,
                  core: map<Place, CorePc>,
                  cct: map<Sched, CctPc>, cct': map<Sched, CctPc>, ranAt: Sites, notified: Notes)
    requires Transfer(q, q', src, dst) && Stages(c, q, crt, core, cct, ranAt, notified)
    requires NearNotify(s, src) && NearNotify(s, dst) && OnlyCct(cct, cct', s)
    requires if src == Notify(s) then At(q', src) == [] else dst == Notify(s) && At(q, dst) == []
    requires forall t: nat :: Cnt(q, src, t) > 0 ==> SentTo(c, cct', dst, t) == SentTo(c, cct, src, t)
    ensures Stages(c, q', crt, core, cct', ranAt, notified)
  {
    assert src != dst;
    hide Cnt, Transfer, Stages;
    StagesByTransfer(c, q, q', src, dst, crt, core, cct, crt, core, cct', ranAt, notified);
  }

  lemma CctDomainSwap(c: Config, cct: map<Sched, CctPc>, s: Sched, pc: CctPc)
    requires CctDomain(c, cct) && s < c.numSched
    ensures CctDomain(c, cct[s := pc])
  {
    var cct' := cct[s := pc];
    forall s1: nat | !CctAt(cct', s1).CctIdle?
      ensures s1 < c.numSched
    {
      assert s1 != s ==> !CctAt(cct, s1).CctIdle?;
    }
  }

  /** A move into or out of the notifying thread's variable. */
  lemma NotifyMove(c: Config, st: State, st': State, s: Sched, src: Place, dst: Place, pc: CctPc)
    requires Inv(c, st) && s < c.numSched && st' == st.(q := st'.q, cct := st.cct[s := pc])
    requires Transfer(st.q, st'.q, src, dst) && SameElsewhere(st.q, st'.q, src, dst) && NearNotify(s, src)
             && NearNotify(s, dst)
    requires if src == Notify(s) then At(st'.q, src) == [] else dst == Notify(s) && At(st.q, dst) == []
    requires forall t: nat :: Cnt(st.q, src, t) > 0 ==> SentTo(c, st'.cct, dst, t) == SentTo(c, st.cct, src, t)
    requires |At(st'.q, Notify(s))| == B(!pc.CctIdle?)
    requires |At(st'.q, Notify(s))| == 1 ==> NotifierOk(c, st.notified, st.ranAt, pc, At(st'.q, Notify(s))[0])
    requires CompleteOk(c, st'.q)
    ensures Inv(c, st')
  {
    hide Conserved, Slots, Stages, NotesOk, Records, Notifiers, CompleteOk, Checkers, Stored, Cores, InputsOk, History,
         Received, Accounted, CountStages, CountedOk, CountingOk, CoreDomain, CrtDomain, CctDomain, RecDomain, Cnt,
         Transfer,
         NotifierOk, SentTo;
    ConservedByTransfer(c, st.q, st'.q, src, dst);
    CctSlots(st.q, st'.q, s, src, dst, st.crt, st.core, st.cct, st'.cct);
    CctNotifiers(c, st.q, st'.q, s, src, dst, st.cct, st'.cct, st.notified, st.ranAt);
    CheckersFrame(c, st.q, st'.q, src, dst, st.crt, st.notified, st.ranAt);
    CoresFrame(c, st.q, st'.q, src, dst, st.core, st.notified, st.ranAt, st.result);
    ReceivedFrame(c, st.q, st'.q, src, dst, st.recv, st.recvCtr, st.started);
    CctStages(c, st.q, st'.q, s, src, dst, st.crt, st.core, st.cct, st'.cct, st.ranAt, st.notified);
    CountsByTransfer(st.q, st'.q, src, dst, st.core, st.counted);
    CctDomainSwap(c, st.cct, s, pc);
  }

  lemma CompleteTail(c: Config, q: Queues, s: Sched)
    requires CompleteOk(c, q) && |At(q, Complete(s))| > 0
    ensures CompleteOk(c, Move(q, Complete(s), At(q, Complete(s))[1..], Notify(s), [At(q, Complete(s))[0]]))
    ensures At(q, Complete(s))[0].size == OutSize(c, At(q, Complete(s))[0].id)
  {
    var q' := Move(q, Complete(s), At(q, Complete(s))[1..], Notify(s), [At(q, Complete(s))[0]]);
    forall s1: nat, j: nat | j < |At(q', Complete(s1))|
      ensures At(q', Complete(s1))[j].size == OutSize(c, At(q', Complete(s1))[j].id)
    {
      var j' := if s1 == s then j + 1 else j;
      assert At(q', Complete(s1))[j] == At(q, Complete(s1))[j'];
    }
  }

  lemma NotifySlot(q: Queues, crt: map<Sched, CrtPc>, core: map<Place, CorePc>, cct: map<Sched, CctPc>, s: Sched)
    requires Slots(q, crt, core, cct)
    ensures |At(q, Notify(s))| == B(!CctAt(cct, s).CctIdle?)
  {
  }

  lemma NotifyPopInv(c: Config, st: State, st': State, s: Sched)
    requires Inv(c, st) && s < c.numSched && DoNotifyPop(c, st, st', s)
    ensures Inv(c, st')
  {
    hide Conserved, Slots, Stages, NotesOk, Records, Notifiers, CompleteOk, Checkers, Stored, Cores, InputsOk, History,
         Received, Accounted, CountStages, CountedOk, CountingOk, CoreDomain, CrtDomain, CctDomain, RecDomain, Cnt;
    NotifySlot(st.q, st.crt, st.core, st.cct, s);
    CompleteTail(c, st.q, s);
    TransferFront(st.q, Complete(s), Notify(s));
    NotifyMove(c, st, st', s, Complete(s), Notify(s), CctHeld);
  }

  /** What the invariant says about the notifying thread of s. */
  lemma AtNotify(c: Config, st: State, s: Sched) returns (t: Task)
    requires Inv(c, st) && !CctAt(st.cct, s).CctIdle?
    ensures |At(st.q, Notify(s))| == 1 && t == At(st.q, Notify(s))[0].id && t < c.n && Cnt(st.q, Notify(s), t) > 0
    ensures NotifierOk(c, st.notified, st.ranAt, CctAt(st.cct, s), At(st.q, Notify(s))[0])
    ensures ZhtAt(st.zht, t) == Replay(c, t, NotesAt(st.notified, t), st.ranAt)
    ensures t in st.ranAt && st.ranAt[t] == s && NotifiedUpTo(c, st.notified, t, SentTo(c, st.cct, Notify(s), t))
  {
    assert |At(st.q, Notify(s))| == 1;
    t := At(st.q, Notify(s))[0].id;
    CntAt(st.q, Notify(s), 0);
    assert Placed(c, st.crt, st.core, st.cct, st.ranAt, st.notified, Notify(s), t);
  }

  lemma CompleteKeep(c: Config, q: Queues, s: Sched)
    requires CompleteOk(c, q)
    ensures CompleteOk(c, Move(q, Notify(s), [], Finished(s), At(q, Finished(s)) + At(q, Notify(s))))
  {
    CompleteFrame(c, q, Move(q, Notify(s), [], Finished(s), At(q, Finished(s)) + At(q, Notify(s))), Notify(s),
                  Finished(s));
  }

  lemma OnlyAtNotify(q: Queues, s: Sched, t0: Task)
    requires |At(q, Notify(s))| == 1 && Cnt(q, Notify(s), t0) > 0
    ensures t0 == At(q, Notify(s))[0].id
  {
    var i := CntIndex(q, Notify(s), t0);
  }

  lemma NotifyEndInv(c: Config, st: State, st': State, s: Sched)
    requires Inv(c, st) && s < c.numSched && DoNotifyEnd(c, st, st', s)
    ensures Inv(c, st')
  {
    hide Conserved, Slots, Stages, NotesOk, Records, Notifiers, CompleteOk, Checkers, Stored, Cores, InputsOk, History,
         Received, Accounted, CountStages, CountedOk, CountingOk, CoreDomain, CrtDomain, CctDomain, RecDomain, Cnt;
    var t := AtNotify(c, st, s);
    CompleteKeep(c, st.q, s);
    TransferAll(st.q, Notify(s), Finished(s));
    forall t0: nat | Cnt(st.q, Notify(s), t0) > 0
      ensures SentTo(c, st'.cct, Finished(s), t0) == SentTo(c, st.cct, Notify(s), t0)
    {
      OnlyAtNotify(st.q, s, t0);
    }
    NotifyMove(c, st, st', s, Notify(s), Finished(s), CctIdle);
  }

  /** A change of the notifying thread's program counter that notifies nobody. */
  lemma NotifyStay(c: Config, st: State, st': State, s: Sched, pc: CctPc)
    requires Inv(c, st) && s < c.numSched && st' == st.(cct := st.cct[s := pc])
    requires !pc.CctIdle? && |At(st.q, Notify(s))| == 1
    requires NotifierOk(c, st.notified, st.ranAt, pc, At(st.q, Notify(s))[0])
    requires forall t: nat :: SentTo(c, st'.cct, Notify(s), t) == SentTo(c, st.cct, Notify(s), t)
    ensures Inv(c, st')
  {
    hide Conserved, Slots, Stages, NotesOk, Records, Notifiers, CompleteOk, Checkers, Stored, Cores, InputsOk, History,
         Received, Accounted, CountStages, CountedOk, CountingOk, CoreDomain, CrtDomain, CctDomain, RecDomain,
         NotifierOk, SentTo;
    CctSlots(st.q, st.q, s, Finished(s), Finished(s), st.crt, st.core, st.cct, st'.cct);
    CctNotifiers(c, st.q, st.q, s, Finished(s), Finished(s), st.cct, st'.cct, st.notified, st.ranAt);
    StayCctStages(c, st.q, s, st.crt, st.core, st.cct, st'.cct, st.ranAt, st.notified);
    CctDomainSwap(c, st.cct, s, pc);
  }

  lemma StayCctStages(c: Config, q: Queues, s: Sched, crt: map<Sched, CrtPc>, core: map<Place, CorePc>,
                      cct: map<Sched, CctPc>, cct': map<Sched, CctPc>, ranAt: Sites, notified: Notes)
    requires Stages(c, q, crt, core, cct, ranAt, notified) && OnlyCct(cct, cct', s)
    requires forall t: nat :: SentTo(c, cct', Notify(s), t) == SentTo(c, cct, Notify(s), t)
    ensures Stages(c, q, crt, core, cct', ranAt, notified)
  {
    forall pl, t: nat | Cnt(q, pl, t) > 0
      ensures Placed(c, crt, core, cct', ranAt, notified, pl, t)
    {
      assert Placed(c, crt, core, cct, ranAt, notified, pl, t);
      hide Stages, Cnt, NotifiedUpTo, Ready, PreRun, Dispatched;
      assert SentTo(c, cct', pl, t) == SentTo(c, cct, pl, t);
    }
  }

  lemma NotifyLookupInv(c: Config, st: State, st': State, s: Sched)
    requires Inv(c, st) && s < c.numSched && DoNotifyLookup(c, st, st', s)
    ensures Inv(c, st')
  {
    hide Conserved, Slots, Stages, NotesOk, Records, Notifiers, CompleteOk, Checkers, Stored, Cores, InputsOk, History,
         Received, Accounted, CountStages, CountedOk, CountingOk, CoreDomain, CrtDomain, CctDomain, RecDomain, Cnt,
         NotifiedUpTo;
    var t := AtNotify(c, st, s);
    NotifyStay(c, st, st', s, CctNext(ZhtAt(st.zht, t).children, 0));
  }

  lemma CurrentSnapshot(c: Config, zht: map<Task, Value>, notified: Notes, ranAt: Sites, t: Task)
    requires Records(c, zht, notified, ranAt) && t < c.n
    ensures Snapshot(c, notified, ranAt, t, ZhtAt(zht, t)) && |ZhtAt(zht, t).parents| == |NotesAt(notified, t)|
    ensures ZhtAt(zht, t) == Replay(c, t, NotesAt(notified, t), ranAt)
  {
    var es := NotesAt(notified, t);
    assert es[..|es|] == es;
  }

  lemma NotifyReadInv(c: Config, st: State, st': State, s: Sched)
    requires WellFormed(c) && Inv(c, st) && s < c.numSched && DoNotifyRead(c, st, st', s)
    ensures Inv(c, st')
  {
    hide Conserved, Slots, Stages, NotesOk, Records, Notifiers, CompleteOk, Checkers, Stored, Cores, InputsOk, History,
         Received, Accounted, CountStages, CountedOk, CountingOk, CoreDomain, CrtDomain, CctDomain, RecDomain, Cnt,
         NotifiedUpTo,
         WellFormed, Snapshot;
    var pc := CctAt(st.cct, s);
    var t := AtNotify(c, st, s);
    KidsBelow(c, t, pc.i);
    CurrentSnapshot(c, st.zht, st.notified, st.ranAt, pc.kids[pc.i]);
    NotifyStay(c, st, st', s, CctRead(pc.kids, pc.i, ZhtAt(st.zht, pc.kids[pc.i]), 0));
  }

  lemma KidsBelow(c: Config, t: Task, i: nat)
    requires WellFormed(c) && t < c.n && i < |Kids(c, t)|
    ensures Kids(c, t)[i] < c.n
  {
  }

  // ---------- compare_swap on a child ----------

  /** A failed compare_swap means that another parent succeeded since the last read. */
  lemma StaleSnapshot(c: Config, zht: map<Task, Value>, notified: Notes, ranAt: Sites, t: Task, v: Value)
    requires Records(c, zht, notified, ranAt) && t < c.n && Snapshot(c, notified, ranAt, t, v)
    ensures ZhtAt(zht, t) != v <==> |v.parents| < |NotesAt(notified, t)|
  {
    var es := NotesAt(notified, t);
    assert es[..|es|] == es;
  }

  lemma NotifyRetryInv(c: Config, st: State, st': State, s: Sched)
    requires WellFormed(c) && Inv(c, st) && s < c.numSched && DoNotifyCas(c, st, st', s)
    requires ZhtAt(st.zht, CctAt(st.cct, s).kids[CctAt(st.cct, s).i]) != CctAt(st.cct, s).seen
    ensures Inv(c, st')
  {
    hide Conserved, Slots, Stages, NotesOk, Records, Notifiers, CompleteOk, Checkers, Stored, Cores, InputsOk, History,
         Received, Accounted, CountStages, CountedOk, CountingOk, CoreDomain, CrtDomain, CctDomain, RecDomain, Cnt,
         NotifiedUpTo,
         WellFormed, Snapshot;
    var pc := CctAt(st.cct, s);
    var t := AtNotify(c, st, s);
    var kid := pc.kids[pc.i];
    KidsBelow(c, t, pc.i);
    CurrentSnapshot(c, st.zht, st.notified, st.ranAt, kid);
    StaleSnapshot(c, st.zht, st.notified, st.ranAt, kid, pc.seen);
    NotifyStay(c, st, st', s, CctRead(pc.kids, pc.i, ZhtAt(st.zht, kid), pc.fails + 1));
  }

  lemma ReplayAppend(c: Config, t: Task, es: seq<Edge>, ranAt: Sites, e: Edge)
    ensures Replay(c, t, es + [e], ranAt) ==
            NotifyChild(Replay(c, t, es, ranAt), SchedAt(ranAt, e.p), Name(SchedAt(ranAt, e.p), e.p), OutSize(c, e.p))
  {
    var es' := es + [e];
    assert ParentList(es', ranAt) == ParentList(es, ranAt) + [SchedAt(ranAt, e.p)];
    assert NameList(es', ranAt) == NameList(es, ranAt) + [Name(SchedAt(ranAt, e.p), e.p)];
    assert SizeList(c, es') == SizeList(c, es) + [OutSize(c, e.p)];
    assert SizeList(c, es')[..|es|] == SizeList(c, es);
  }

  ghost function Add(notified: Notes, kid: Task, e: Edge): Notes { notified[kid := NotesAt(notified, kid) + [e]] }

  lemma AddRecords(c: Config, zht: map<Task, Value>, notified: Notes, ranAt: Sites, kid: Task, e: Edge)
    requires Records(c, zht, notified, ranAt) && kid < c.n
    ensures Records(c, zht[kid := NotifyChild(ZhtAt(zht, kid), SchedAt(ranAt, e.p), Name(SchedAt(ranAt, e.p), e.p),
                                              OutSize(c, e.p))],
                    Add(notified, kid, e), ranAt)
  {
    hide Replay;
    ReplayAppend(c, kid, NotesAt(notified, kid), ranAt, e);
    var zht' := zht[kid := NotifyChild(ZhtAt(zht, kid), SchedAt(ranAt, e.p), Name(SchedAt(ranAt, e.p), e.p),
                                       OutSize(c, e.p))];
    forall t: nat | t < c.n
      ensures ZhtAt(zht', t) == Replay(c, t, NotesAt(Add(notified, kid, e), t), ranAt)
    {
      assert ZhtAt(zht, t) == Replay(c, t, NotesAt(notified, t), ranAt);
    }
  }

  lemma AddNotes(c: Config, notified: Notes, ranAt: Sites, kid: Task, e: Edge)
    requires NotesOk(c, notified, ranAt) && Into(c, e, kid) && e.p < c.n && e.p in ranAt && e !in NotesAt(notified, kid)
    ensures NotesOk(c, Add(notified, kid, e), ranAt)
  {
    var notified' := Add(notified, kid, e);
    forall t: nat
      ensures NoteOk(c, notified', ranAt, t)
    {
      assert NoteOk(c, notified, ranAt, t);
    }
  }

  lemma AddSnapshot(c: Config, notified: Notes, ranAt: Sites, kid: Task, e: Edge, t: Task, v: Value)
    requires Snapshot(c, notified, ranAt, t, v)
    ensures Snapshot(c, Add(notified, kid, e), ranAt, t, v)
  {
    if t == kid {
      assert (NotesAt(notified, kid) + [e])[..|v.parents|] == NotesAt(notified, kid)[..|v.parents|];
    }
  }

  lemma AddNotifiers(c: Config, q: Queues, cct: map<Sched, CctPc>, notified: Notes, ranAt: Sites, kid: Task, e: Edge)
    requires Notifiers(c, q, cct, notified, ranAt)
    ensures Notifiers(c, q, cct, Add(notified, kid, e), ranAt)
  {
    hide Snapshot;
    forall s1: nat | |At(q, Notify(s1))| == 1
      ensures NotifierOk(c, Add(notified, kid, e), ranAt, CctAt(cct, s1), At(q, Notify(s1))[0])
    {
      var pc := CctAt(cct, s1);
      if pc.CctRead? { AddSnapshot(c, notified, ranAt, kid, e, pc.kids[pc.i], pc.seen); }
    }
  }

  lemma AddCheckers(c: Config, q: Queues, crt: map<Sched, CrtPc>, notified: Notes, ranAt: Sites, kid: Task, e: Edge)
    requires Checkers(c, q, crt, notified, ranAt)
    ensures Checkers(c, q, crt, Add(notified, kid, e), ranAt)
  {
    hide Snapshot;
    forall s1: nat | |At(q, Check(s1))| == 1
      ensures CheckerOk(c, Add(notified, kid, e), ranAt, CrtAt(crt, s1), At(q, Check(s1))[0])
    {
      var pc := CrtAt(crt, s1);
      if pc.CrtLooked? { AddSnapshot(c, notified, ranAt, kid, e, At(q, Check(s1))[0].id, pc.v); }
    }
  }

  /** A task that still misses a notification is neither dispatched nor executed. */
  lemma NotReady(c: Config, notified: Notes, ranAt: Sites, kid: Task, e: Edge)
    requires |c.children| == c.n && NoteOk(c, notified, ranAt, kid) && Into(c, e, kid) && e.p < c.n
             && e !in NotesAt(notified, kid)
    ensures !Ready(c, notified, kid)
  {
    NotesBound(c, notified, ranAt, kid);
  }

  lemma NotReadyAll(c: Config, notified: Notes, ranAt: Sites, kid: Task, e: Edge)
    requires |c.children| == c.n && NotesOk(c, notified, ranAt) && Into(c, e, kid) && e.p < c.n
             && e !in NotesAt(notified, kid)
    ensures !Ready(c, notified, kid)
  {
    assert NoteOk(c, notified, ranAt, kid);
    NotReady(c, notified, ranAt, kid, e);
  }

  lemma RanIsReady(c: Config, q: Queues, crt: map<Sched, CrtPc>, core: map<Place, CorePc>, cct: map<Sched, CctPc>,
                   ranAt: Sites, notified: Notes, t: Task)
    requires Conserved(c, q) && Stages(c, q, crt, core, cct, ranAt, notified) && t < c.n && t in ranAt
    ensures Ready(c, notified, t)
  {
    assert Somewhere(q, t);
    var p :| Cnt(q, p, t) == 1;
    assert Placed(c, crt, core, cct, ranAt, notified, p, t);
  }

  lemma AddCores(c: Config, q: Queues, crt: map<Sched, CrtPc>, core: map<Place, CorePc>, cct: map<Sched, CctPc>,
                 notified: Notes, ranAt: Sites,
                 result: map<Task, Piece>, kid: Task, e: Edge)
    requires Cores(c, q, core, notified, ranAt, result) && Stages(c, q, crt, core, cct, ranAt, notified)
             && !Ready(c, notified, kid)
    ensures Cores(c, q, core, Add(notified, kid, e), ranAt, result)
  {
    hide CoreOk;
    forall s: nat, k: nat | |At(q, Core(s, k))| == 1
      ensures CoreOk(c, NotesAt(Add(notified, kid, e), At(q, Core(s, k))[0].id), ranAt, result,
                     CoreAt(core, Core(s, k)), At(q, Core(s, k))[0].id)
    {
      CntAt(q, Core(s, k), 0);
      assert Placed(c, crt, core, cct, ranAt, notified, Core(s, k), At(q, Core(s, k))[0].id);
    }
  }

  lemma AddInputs(c: Config, input: map<Task, seq<Piece>>, notified: Notes, ranAt: Sites, result: map<Task, Piece>,
                  kid: Task, e: Edge)
    requires InputsOk(c, input, notified, ranAt, result) && kid !in ranAt
    ensures InputsOk(c, input, Add(notified, kid, e), ranAt, result)
  {
  }

  lemma AddUpTo(c: Config, notified: Notes, kid: Task, e: Edge, t: Task, k: int)
    requires NotifiedUpTo(c, notified, t, k) && Into(c, e, kid)
    ensures t != e.p ==> NotifiedUpTo(c, Add(notified, kid, e), t, k)
    ensures t == e.p && k == e.i ==> NotifiedUpTo(c, Add(notified, kid, e), t, k + 1)
  {
  }

  /** What the notification of kid by edge e says about task t at place pl. */
  lemma AddPlaced(c: Config, crt: map<Sched, CrtPc>, core: map<Place, CorePc>, cct: map<Sched, CctPc>, ranAt: Sites,
                  notified: Notes,
                  s: Sched, kid: Task, e: Edge, kids: seq<Task>, pl: Place, t: Task)
    requires Placed(c, crt, core, cct, ranAt, notified, pl, t) && !Ready(c, notified, kid) && Into(c, e, kid)
    requires CctAt(cct, s).CctRead? && CctAt(cct, s).i == e.i && (t == e.p <==> pl == Notify(s))
    ensures Placed(c, crt, core, cct[s := CctNext(kids, e.i + 1)], ranAt, Add(notified, kid, e), pl, t)
  {
    hide NotifiedUpTo, PreRun, Dispatched, Into, InDeg, Ready;
    AddUpTo(c, notified, kid, e, t, SentTo(c, cct, pl, t));
    if Ready(c, notified, t) { AddReady(c, notified, kid, e, t); }
  }

  lemma AddReady(c: Config, notified: Notes, kid: Task, e: Edge, t: Task)
    requires Ready(c, notified, t) && !Ready(c, notified, kid)
    ensures Ready(c, Add(notified, kid, e), t)
  {
    hide InDeg;
  }

  lemma AddStages(c: Config, q: Queues, crt: map<Sched, CrtPc>, core: map<Place, CorePc>, cct: map<Sched, CctPc>,
                  ranAt: Sites, notified: Notes,
                  s: Sched, kid: Task, e: Edge, kids: seq<Task>)
    requires Conserved(c, q) && Stages(c, q, crt, core, cct, ranAt, notified) && !Ready(c, notified, kid)
             && Into(c, e, kid)
    requires |At(q, Notify(s))| == 1 && At(q, Notify(s))[0].id == e.p && CctAt(cct, s).CctRead?
             && CctAt(cct, s).i == e.i
    ensures Stages(c, q, crt, core, cct[s := CctNext(kids, e.i + 1)], ranAt, Add(notified, kid, e))
  {
    hide Conserved, Cnt, Placed, Ready, Into;
    var cct' := cct[s := CctNext(kids, e.i + 1)];
    CntAt(q, Notify(s), 0);
    forall pl, t: nat | Cnt(q, pl, t) > 0
      ensures Placed(c, crt, core, cct', ranAt, Add(notified, kid, e), pl, t)
    {
      OnlyTaskAt(c, q, Notify(s), e.p, pl, t);
      if pl == Notify(s) { OnlyAtNotify(q, s, t); }
      AddPlaced(c, crt, core, cct, ranAt, notified, s, kid, e, kids, pl, t);
    }
  }

  lemma NotifySwapThreads(c: Config, st: State, s: Sched, kid: Task, e: Edge, cct': map<Sched, CctPc>)
    requires Inv(c, st) && Into(c, e, kid) && !Ready(c, st.notified, kid) && s < c.numSched
    requires |At(st.q, Notify(s))| == 1 && At(st.q, Notify(s))[0].id == e.p && CctAt(st.cct, s).CctRead?
             && CctAt(st.cct, s).i == e.i
    requires cct' == st.cct[s := CctNext(Kids(c, e.p), e.i + 1)]
    requires At(st.q, Notify(s))[0].size == OutSize(c, e.p)
    ensures Slots(st.q, st.crt, st.core, cct') && CctDomain(c, cct')
    ensures Stages(c, st.q, st.crt, st.core, cct', st.ranAt, Add(st.notified, kid, e))
    ensures Notifiers(c, st.q, cct', Add(st.notified, kid, e), st.ranAt)
    ensures Cores(c, st.q, st.core, Add(st.notified, kid, e), st.ranAt, st.result)
    ensures Checkers(c, st.q, st.crt, Add(st.notified, kid, e), st.ranAt)
  {
    hide Conserved, Slots, Stages, NotesOk, Records, Notifiers, CompleteOk, Checkers, Stored, Cores, InputsOk, History,
         Received, Accounted, CountStages, CountedOk, CountingOk, CoreDomain, CrtDomain, CctDomain, RecDomain, Ready,
         Add;
    CctSlots(st.q, st.q, s, Finished(s), Finished(s), st.crt, st.core, st.cct, cct');
    CctDomainSwap(c, st.cct, s, CctNext(Kids(c, e.p), e.i + 1));
    AddStages(c, st.q, st.crt, st.core, st.cct, st.ranAt, st.notified, s, kid, e, Kids(c, e.p));
    AddNotifiers(c, st.q, st.cct, st.notified, st.ranAt, kid, e);
    CctNotifiers(c, st.q, st.q, s, Finished(s), Finished(s), st.cct, cct', Add(st.notified, kid, e), st.ranAt);
    AddCores(c, st.q, st.crt, st.core, st.cct, st.notified, st.ranAt, st.result, kid, e);
    AddCheckers(c, st.q, st.crt, st.notified, st.ranAt, kid, e);
  }

  lemma NotifySwapRest(c: Config, st: State, kid: Task, e: Edge)
    requires |c.children| == c.n && Inv(c, st) && Into(c, e, kid) && e.p < c.n && kid < c.n && e.p in st.ranAt
             && e !in NotesAt(st.notified, kid)
    ensures !Ready(c, st.notified, kid)
    ensures NotesOk(c, Add(st.notified, kid, e), st.ranAt)
            && InputsOk(c, st.input, Add(st.notified, kid, e), st.ranAt, st.result)
    ensures Records(c, st.zht[kid := NotifyChild(ZhtAt(st.zht, kid), SchedAt(st.ranAt, e.p),
                                                 Name(SchedAt(st.ranAt, e.p), e.p), OutSize(c, e.p))],
                    Add(st.notified, kid, e), st.ranAt)
  {
    hide Conserved, Slots, Stages, NotesOk, Records, Notifiers, CompleteOk, Checkers, Stored, Cores, InputsOk, History,
         Received, Accounted, CountStages, CountedOk, CountingOk, CoreDomain, CrtDomain, CctDomain, RecDomain, Ready,
         Add, NoteOk;
    NotReadyAll(c, st.notified, st.ranAt, kid, e);
    if kid in st.ranAt { RanIsReady(c, st.q, st.crt, st.core, st.cct, st.ranAt, st.notified, kid); }
    AddNotes(c, st.notified, st.ranAt, kid, e);
    AddInputs(c, st.input, st.notified, st.ranAt, st.result, kid, e);
    AddRecords(c, st.zht, st.notified, st.ranAt, kid, e);
  }

  /** The successful compare_swap adds a notification that was not there before. */
  lemma SwapFacts(c: Config, st: State, s: Sched) returns (kid: Task, e: Edge)
    requires WellFormed(c) && Inv(c, st) && CctAt(st.cct, s).CctRead?
    ensures |At(st.q, Notify(s))| == 1 && e == Edge(At(st.q, Notify(s))[0].id, CctAt(st.cct, s).i) && e.p < c.n
    ensures CctAt(st.cct, s).kids == Kids(c, e.p) && e.i < |Kids(c, e.p)| && kid == Kids(c, e.p)[e.i] && kid < c.n
    ensures Into(c, e, kid) && e.p in st.ranAt && st.ranAt[e.p] == s && e !in NotesAt(st.notified, kid)
    ensures At(st.q, Notify(s))[0].size == OutSize(c, e.p)
  {
    hide Conserved, Slots, Stages, NotesOk, Records, Notifiers, CompleteOk, Checkers, Stored, Cores, InputsOk, History,
         Received, Accounted, CountStages, CountedOk, CountingOk, CoreDomain, CrtDomain, CctDomain, RecDomain, Cnt,
         WellFormed, Snapshot;
    var t := AtNotify(c, st, s);
    e := Edge(t, CctAt(st.cct, s).i);
    KidsBelow(c, t, e.i);
    kid := Kids(c, t)[e.i];
  }

  lemma NotifySwapInv(c: Config, st: State, st': State, s: Sched)
    requires WellFormed(c) && Inv(c, st) && s < c.numSched && DoNotifyCas(c, st, st', s)
    requires ZhtAt(st.zht, CctAt(st.cct, s).kids[CctAt(st.cct, s).i]) == CctAt(st.cct, s).seen
    ensures Inv(c, st')
  {
    hide Conserved, Slots, Stages, NotesOk, Records, Notifiers, CompleteOk, Checkers, Stored, Cores, InputsOk, History,
         Received, Accounted, CountStages, CountedOk, CountingOk, CoreDomain, CrtDomain, CctDomain, RecDomain,
         WellFormed, Ready;
    WfChildren(c);
    var kid, e := SwapFacts(c, st, s);
    NotifySwapRest(c, st, kid, e);
    NotifySwapThreads(c, st, s, kid, e, st'.cct);
  }

  lemma NotifyInv(c: Config, st: State, st': State, s: Sched, a: NotifyAct)
    requires WellFormed(c) && Inv(c, st) && s < c.numSched && NotifyNext(c, st, st', s, a)
    ensures Inv(c, st')
  {
    hide Inv, WellFormed;
    match a
    case NotifyPop => NotifyPopInv(c, st, st', s);
    case NotifyLookup => NotifyLookupInv(c, st, st', s);
    case NotifyRead => NotifyReadInv(c, st, st', s);
    case NotifyCas =>
      if ZhtAt(st.zht, CctAt(st.cct, s).kids[CctAt(st.cct, s).i]) == CctAt(st.cct, s).seen {
        NotifySwapInv(c, st, st', s);
      } else {
        NotifyRetryInv(c, st, st', s);
      }
    case NotifyEnd => NotifyEndInv(c, st, st', s);
  }
}
