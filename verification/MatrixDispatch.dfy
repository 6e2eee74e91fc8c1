/** Receiving, checking, dispatching, stealing and migrating keep the invariant. */
module MatrixDispatch {
  import opened MatrixModel
  import opened MatrixInvariant
  import opened MatrixBasics

  /** Places that are neither thread variables nor behind the completion queue. */
  ghost predicate Plain(p: Place) { p.Client? || p.Wait? || p.Ws? || p.Local? || p.Steal? || p.Migr? }

  lemma PlainFacts(p: Place)
    requires Plain(p) || p.Check?
    ensures !AfterExec(p) && !p.Core? && (Plain(p) ==> !IsSlot(p))
  {
  }

  lemma PlainView(c: Config, core: map<Place, CorePc>, cct: map<Sched, CctPc>, p: Place)
    requires Plain(p) || p.Check?
    ensures PreRun(core, p) && forall t: nat :: SentTo(c, cct, p, t) == 0
  {
  }

  lemma QuietStages(c: Config, q: Queues, q': Queues, src: Place, dst: Place, crt: map<Sched, CrtPc>,
                    core: map<Place, CorePc>, cct: map<Sched, CctPc>, ranAt: Sites, notified: Notes)
    requires Transfer(q, q', src, dst) && Stages(c, q, crt, core, cct, ranAt, notified)
    requires Plain(src) && Plain(dst) && (Dispatched(crt, dst) ==> Dispatched(crt, src))
    ensures Stages(c, q', crt, core, cct, ranAt, notified)
  {
    PlainView(c, core, cct, src);
    PlainView(c, core, cct, dst);
    hide Cnt, Transfer, Stages, PreRun, SentTo, Plain;
    StagesByTransfer(c, q, q', src, dst, crt, core, cct, crt, core, cct, ranAt, notified);
  }

  /** A move between plain places that does not promote an unready task. */
  lemma QuietMove(c: Config, st: State, st': State, src: Place, dst: Place)
    requires Inv(c, st) && st' == st.(q := st'.q) && Transfer(st.q, st'.q, src, dst)
    requires Plain(src) && Plain(dst) && ValidPlace(c, dst)
    requires Dispatched(st.crt, dst) ==> Dispatched(st.crt, src)
    requires Received(c, st'.q, st.recv, st.recvCtr, st.started) && SameElsewhere(st.q, st'.q, src, dst)
    ensures Inv(c, st')
  {
    PlainFacts(src);
    PlainFacts(dst);
    hide Conserved, Slots, Stages, NotesOk, Records, Notifiers, CompleteOk, Checkers, Stored, Cores, InputsOk, History,
         Received, Accounted, CountStages, CountedOk, CountingOk, CoreDomain, CrtDomain, CctDomain, RecDomain, Cnt,
         Transfer, Plain;
    ConservedByTransfer(c, st.q, st'.q, src, dst);
    SlotsFrame(st.q, st'.q, src, dst, st.crt, st.core, st.cct);
    NotifiersFrame(c, st.q, st'.q, src, dst, st.cct, st.notified, st.ranAt);
    CompleteFrame(c, st.q, st'.q, src, dst);
    CheckersFrame(c, st.q, st'.q, src, dst, st.crt, st.notified, st.ranAt);
    CoresFrame(c, st.q, st'.q, src, dst, st.core, st.notified, st.ranAt, st.result);
    QuietStages(c, st.q, st'.q, src, dst, st.crt, st.core, st.cct, st.ranAt, st.notified);
    CountsByTransfer(st.q, st'.q, src, dst, st.core, st.counted);
  }

  lemma ReceivedPkg(c: Config, q: Queues, recv: map<Sched, RecvPc>, recvCtr: int, started: set<Sched>, s: Sched, k: nat)
    requires Received(c, q, recv, recvCtr, started) && 1 <= k <= |At(q, Client(s))|
    ensures Received(c, Move(q, Client(s), At(q, Client(s))[k..], Wait(s), At(q, Wait(s)) + At(q, Client(s))[..k]),
                     recv, recvCtr, started)
  {
  }

  lemma RecvPkgInv(c: Config, st: State, st': State, s: Sched, k: nat)
    requires Inv(c, st) && s < c.numSched && DoRecvPkg(c, st, st', s, k)
    ensures Inv(c, st')
  {
    hide Conserved, Slots, Stages, NotesOk, Records, Notifiers, CompleteOk, Checkers, Stored, Cores, InputsOk, History,
         Received, Accounted, CountStages, CountedOk, CountingOk, CoreDomain, CrtDomain, CctDomain, RecDomain;
    ReceivedPkg(c, st.q, st.recv, st.recvCtr, st.started, s, k);
    TransferPrefix(st.q, Client(s), Wait(s), k);
    QuietMove(c, st, st', Client(s), Wait(s));
  }

  lemma ReceivedRetry(c: Config, q: Queues, recv: map<Sched, RecvPc>, recvCtr: int, started: set<Sched>, s: Sched,
                      seen: int)
    requires Received(c, q, recv, recvCtr, started) && !RecvAt(recv, s).RecvDone? && At(q, Client(s)) == []
    ensures Received(c, q, recv[s := RecvSeen(seen)], recvCtr, started)
  {
    assert RecvParts(c, recv[s := RecvSeen(seen)]) == RecvParts(c, recv);
  }

  lemma RecvLookupInv(c: Config, st: State, st': State, s: Sched)
    requires Inv(c, st) && s < c.numSched && DoRecvLookup(c, st, st', s)
    ensures Inv(c, st')
  {
    ReceivedRetry(c, st.q, st.recv, st.recvCtr, st.started, s, st.recvCtr);
  }

  /** The counter never passes the number of tasks, so once it is reached nobody adds to it. */
  lemma RecvBounded(c: Config, recv: map<Sched, RecvPc>)
    requires WellFormed(c)
    ensures Sum(RecvParts(c, recv)) <= c.n
    ensures Sum(RecvParts(c, recv)) == c.n ==> forall s: nat :: s < c.numSched ==> RecvPart(c, recv, s) == |Batch(c, s)|
  {
    SumMono(RecvParts(c, recv), BatchSizes(c));
    if Sum(RecvParts(c, recv)) == c.n {
      forall s: nat | s < c.numSched
        ensures RecvPart(c, recv, s) == |Batch(c, s)|
      {
        assert RecvParts(c, recv)[s] == BatchSizes(c)[s];
      }
    }
  }

  lemma ReceivedCas(c: Config, q: Queues, recv: map<Sched, RecvPc>, recvCtr: int, started: set<Sched>, s: Sched)
    requires WellFormed(c) && Received(c, q, recv, recvCtr, started) && s < c.numSched && RecvAt(recv, s).RecvSeen?
    ensures Received(c, q, recv[s := RecvDone], recvCtr + |Batch(c, s)|, started)
  {
    SumSame(RecvParts(c, recv), RecvParts(c, recv[s := RecvDone]), s);
    RecvBounded(c, recv[s := RecvDone]);
    RecvBounded(c, recv);
  }

  lemma RecvCasReceived(c: Config, st: State, st': State, s: Sched)
    requires WellFormed(c) && Received(c, st.q, st.recv, st.recvCtr, st.started) && s < c.numSched
             && DoRecvCas(c, st, st', s)
    ensures Received(c, st'.q, st'.recv, st'.recvCtr, st'.started)
  {
    ReceivedRetry(c, st.q, st.recv, st.recvCtr, st.started, s, st.recvCtr);
    ReceivedCas(c, st.q, st.recv, st.recvCtr, st.started, s);
  }

  lemma RecvCasRest(c: Config, st: State, st': State, s: Sched)
    requires Inv(c, st) && DoRecvCas(c, st, st', s) && Received(c, st'.q, st'.recv, st'.recvCtr, st'.started)
    ensures Inv(c, st')
  {
    hide Conserved, Slots, Stages, NotesOk, Records, Notifiers, CompleteOk, Checkers, Stored, Cores, InputsOk, History,
         Accounted, Received, CountStages, CountedOk, CountingOk, CoreDomain, CrtDomain, CctDomain, RecDomain;
  }

  lemma RecvCasInv(c: Config, st: State, st': State, s: Sched)
    requires WellFormed(c) && Inv(c, st) && s < c.numSched && DoRecvCas(c, st, st', s)
    ensures Inv(c, st')
  {
    RecvCasReceived(c, st, st', s);
    RecvCasRest(c, st, st', s);
  }

  lemma StartInv(c: Config, st: State, st': State, s: Sched)
    requires Inv(c, st) && s < c.numSched && DoStart(c, st, st', s)
    ensures Inv(c, st')
  {
  }

  // ---------- checking_ready_task ----------

  /** The record read for t shows indegree 0 only if every parent has notified t. */
  lemma ReadZero(c: Config, notified: Notes, ranAt: Sites, t: Task, v: Value)
    requires |c.children| == c.n && NoteOk(c, notified, ranAt, t) && Snapshot(c, notified, ranAt, t, v)
             && v.indegree == 0
    ensures Ready(c, notified, t) && v == Replay(c, t, NotesAt(notified, t), ranAt)
  {
    NotesBound(c, notified, ranAt, t);
    var es := NotesAt(notified, t);
    assert es[..|v.parents|] == es;
  }

  /** No task is notified more often than it has parents, counted with multiplicity. */
  lemma NotesBound(c: Config, notified: Notes, ranAt: Sites, t: Task)
    requires |c.children| == c.n && NoteOk(c, notified, ranAt, t)
    ensures |NotesAt(notified, t)| <= InDeg(c, t)
    ensures Ready(c, notified, t) ==> forall e: Edge :: e.p < c.n && Into(c, e, t) ==> e in NotesAt(notified, t)
  {
    var es := NotesAt(notified, t);
    NoDupCard(es);
    assert Elems(es) <= EdgesInto(c, t);
    SubsetCard(Elems(es), EdgesInto(c, t));
    if Ready(c, notified, t) {
      SameCard(Elems(es), EdgesInto(c, t));
      forall e: Edge | e.p < c.n && Into(c, e, t)
        ensures e in es
      {
        assert e in EdgesInto(c, t);
        assert e in Elems(es);
      }
    }
  }

  ghost predicate OnlyCrt(crt: map<Sched, CrtPc>, crt': map<Sched, CrtPc>, s: Sched) {
    forall s': nat :: s' != s ==> CrtAt(crt', s') == CrtAt(crt, s')
  }

  ghost predicate NearCheck(s: Sched, p: Place) { p == Check(s) || (Plain(p) && !p.Client?) }

  lemma CheckSlots(q: Queues, q': Queues, s: Sched, src: Place, dst: Place, crt: map<Sched, CrtPc>,
                   crt': map<Sched, CrtPc>,
                   core: map<Place, CorePc>, cct: map<Sched, CctPc>)
    requires Slots(q, crt, core, cct) && SameElsewhere(q, q', src, dst) && NearCheck(s, src) && NearCheck(s, dst)
    requires OnlyCrt(crt, crt', s) && |At(q', Check(s))| == B(CrtBusy(CrtAt(crt', s)))
    ensures Slots(q', crt', core, cct)
  {
  }

  lemma CheckCheckers(c: Config, q: Queues, q': Queues, s: Sched, src: Place, dst: Place, crt: map<Sched, CrtPc>,
                      crt': map<Sched, CrtPc>,
                      notified: Notes, ranAt: Sites)
    requires Checkers(c, q, crt, notified, ranAt) && SameElsewhere(q, q', src, dst) && NearCheck(s, src)
             && NearCheck(s, dst)
    requires OnlyCrt(crt, crt', s)
    requires |At(q', Check(s))| == 1 ==> CheckerOk(c, notified, ranAt, CrtAt(crt', s), At(q', Check(s))[0])
    ensures Checkers(c, q', crt', notified, ranAt)
  {
    forall s1: nat | |At(q', Check(s1))| == 1
      ensures CheckerOk(c, notified, ranAt, CrtAt(crt', s1), At(q', Check(s1))[0])
    {
      if s1 != s { assert At(q', Check(s1)) == At(q, Check(s1)); }
    }
  }

  lemma CheckStages(c: Config, q: Queues, q': Queues, s: Sched, src: Place, dst: Place, crt: map<Sched, CrtPc>,
                    crt': map<Sched, CrtPc>,
                    core: map<Place, CorePc>, cct: map<Sched, CctPc>, ranAt: Sites, notified: Notes)
    requires Transfer(q, q', src, dst) && Stages(c, q, crt, core, cct, ranAt, notified)
    requires NearCheck(s, src) && NearCheck(s, dst) && (src == Check(s) || dst == Check(s)) && OnlyCrt(crt, crt', s)
    requires Dispatched(crt', dst) ==> Dispatched(crt, src)
    requires if src == Check(s) then At(q', src) == [] else At(q, dst) == []
    ensures Stages(c, q', crt', core, cct, ranAt, notified)
  {
    PlainView(c, core, cct, src);
    PlainView(c, core, cct, dst);
    hide Cnt, Transfer, Stages, PreRun, SentTo;
    StagesByTransfer(c, q, q', src, dst, crt, core, cct, crt', core, cct, ranAt, notified);
  }

  lemma CrtDomainSwap(c: Config, crt: map<Sched, CrtPc>, s: Sched, pc: CrtPc)
    requires CrtDomain(c, crt) && s < c.numSched
    ensures CrtDomain(c, crt[s := pc])
  {
    var crt' := crt[s := pc];
    forall s1: nat | !CrtAt(crt', s1).CrtIdle?
      ensures s1 < c.numSched
    {
      assert s1 != s ==> !CrtAt(crt, s1).CrtIdle?;
    }
  }

  /** A move into or out of the checking thread's variable. */
  lemma NearCheckFacts(s: Sched, p: Place)
    requires NearCheck(s, p)
    ensures !p.Client? && !p.Notify? && !p.Complete? && !p.Core? && !AfterExec(p)
  {
  }

  lemma CheckMove(c: Config, st: State, st': State, s: Sched, src: Place, dst: Place, pc: CrtPc)
    requires Inv(c, st) && s < c.numSched
    requires st' == st.(q := st'.q, crt := st.crt[s := pc]) && Transfer(st.q, st'.q, src, dst)
    requires SameElsewhere(st.q, st'.q, src, dst)
    requires NearCheck(s, src) && NearCheck(s, dst) && (src == Check(s) || dst == Check(s)) && ValidPlace(c, dst)
    requires Dispatched(st'.crt, dst) ==> Dispatched(st.crt, src)
    requires if src == Check(s) then At(st'.q, src) == [] else At(st.q, dst) == []
    requires |At(st'.q, Check(s))| == B(CrtBusy(pc))
    requires |At(st'.q, Check(s))| == 1 ==> CheckerOk(c, st.notified, st.ranAt, pc, At(st'.q, Check(s))[0])
    ensures Inv(c, st')
  {
    hide Conserved, Slots, Stages, NotesOk, Records, Notifiers, CompleteOk, Checkers, Stored, Cores, InputsOk, History,
         Received, Accounted, CountStages, CountedOk, CountingOk, CoreDomain, CrtDomain, CctDomain, RecDomain, Cnt,
         Transfer, CheckerOk, NearCheck,
         Plain, AfterExec, Dispatched;
    NearCheckFacts(s, src);
    NearCheckFacts(s, dst);
    CrtDomainSwap(c, st.crt, s, pc);
    ConservedByTransfer(c, st.q, st'.q, src, dst);
    CheckSlots(st.q, st'.q, s, src, dst, st.crt, st'.crt, st.core, st.cct);
    NotifiersFrame(c, st.q, st'.q, src, dst, st.cct, st.notified, st.ranAt);
    CompleteFrame(c, st.q, st'.q, src, dst);
    CheckCheckers(c, st.q, st'.q, s, src, dst, st.crt, st'.crt, st.notified, st.ranAt);
    CoresFrame(c, st.q, st'.q, src, dst, st.core, st.notified, st.ranAt, st.result);
    ReceivedFrame(c, st.q, st'.q, src, dst, st.recv, st.recvCtr, st.started);
    CheckStages(c, st.q, st'.q, s, src, dst, st.crt, st'.crt, st.core, st.cct, st.ranAt, st.notified);
    CountsByTransfer(st.q, st'.q, src, dst, st.core, st.counted);
  }

  lemma WaitPopInv(c: Config, st: State, st': State, s: Sched)
    requires Inv(c, st) && s < c.numSched && DoWaitPop(c, st, st', s)
    ensures Inv(c, st')
  {
    assert |At(st.q, Check(s))| == 0;
    TransferFront(st.q, Wait(s), Check(s));
    CheckMove(c, st, st', s, Wait(s), Check(s), CrtHeld);
  }

  lemma CrtReturnInv(c: Config, st: State, st': State, s: Sched)
    requires Inv(c, st) && s < c.numSched && DoCrtReturn(c, st, st', s)
    ensures Inv(c, st')
  {
    TransferOne(st.q, Check(s), Wait(s), At(st.q, Check(s))[0]);
    CheckMove(c, st, st', s, Check(s), Wait(s), CrtIdle);
  }

  lemma CrtEnqueueInv(c: Config, st: State, st': State, s: Sched)
    requires Inv(c, st) && s < c.numSched && DoCrtEnqueue(c, st, st', s)
    ensures Inv(c, st')
  {
    var dst := if CrtAt(st.crt, s).to == ToWs then Ws(s) else Local(s);
    TransferOne(st.q, Check(s), dst, Item(At(st.q, Check(s))[0].id, CrtAt(st.crt, s).len));
    CheckMove(c, st, st', s, Check(s), dst, CrtIdle);
  }

  lemma PushRecvInv(c: Config, st: State, st': State, s: Sched)
    requires Inv(c, st) && s < c.numSched && DoPushRecv(c, st, st', s)
    ensures Inv(c, st')
  {
    var dst := Local(CrtAt(st.crt, s).to.target);
    TransferOne(st.q, Check(s), dst, Item(At(st.q, Check(s))[0].id, CrtAt(st.crt, s).len));
    assert CheckerOk(c, st.notified, st.ranAt, CrtAt(st.crt, s), At(st.q, Check(s))[0]);
    CheckMove(c, st, st', s, Check(s), dst, CrtAck);
  }

  lemma StayStages(c: Config, q: Queues, s: Sched, crt: map<Sched, CrtPc>, crt': map<Sched, CrtPc>,
                   core: map<Place, CorePc>, cct: map<Sched, CctPc>, ranAt: Sites, notified: Notes)
    requires Stages(c, q, crt, core, cct, ranAt, notified) && OnlyCrt(crt, crt', s)
    requires |At(q, Check(s))| == 0 || (|At(q, Check(s))| == 1 &&
               (Dispatched(crt', Check(s)) ==> Ready(c, notified, At(q, Check(s))[0].id)))
    ensures Stages(c, q, crt', core, cct, ranAt, notified)
  {
    forall p, t: nat | Cnt(q, p, t) > 0
      ensures Placed(c, crt', core, cct, ranAt, notified, p, t)
    {
      assert Placed(c, crt, core, cct, ranAt, notified, p, t);
      if p == Check(s) {
        var i := CntIndex(q, p, t);
      }
    }
  }

  /** A change of the checking thread's program counter alone. */
  lemma CheckStay(c: Config, st: State, st': State, s: Sched, pc: CrtPc)
    requires Inv(c, st) && s < c.numSched && st' == st.(crt := st.crt[s := pc])
    requires CrtBusy(pc) == CrtBusy(CrtAt(st.crt, s))
    requires |At(st.q, Check(s))| == 1 ==>
               && CheckerOk(c, st.notified, st.ranAt, pc, At(st.q, Check(s))[0])
               && (Dispatched(st'.crt, Check(s)) ==> Ready(c, st.notified, At(st.q, Check(s))[0].id))
    ensures Inv(c, st')
  {
    hide Conserved, Stages, NotesOk, Records, Notifiers, CompleteOk, Checkers, Stored, Cores, InputsOk, History,
         Received, Accounted, CountStages, CountedOk, CountingOk, CoreDomain, CrtDomain, CctDomain, RecDomain;
    CrtDomainSwap(c, st.crt, s, pc);
    CheckSlots(st.q, st.q, s, Wait(s), Wait(s), st.crt, st'.crt, st.core, st.cct);
    CheckCheckers(c, st.q, st.q, s, Wait(s), Wait(s), st.crt, st'.crt, st.notified, st.ranAt);
    StayStages(c, st.q, s, st.crt, st'.crt, st.core, st.cct, st.ranAt, st.notified);
  }

  lemma CrtLookupInv(c: Config, st: State, st': State, s: Sched)
    requires WellFormed(c) && Inv(c, st) && s < c.numSched && DoCrtLookup(c, st, st', s)
    ensures Inv(c, st')
  {
    var t := At(st.q, Check(s))[0].id;
    CntAt(st.q, Check(s), 0);
    var v := ZhtAt(st.zht, t);
    var es := NotesAt(st.notified, t);
    assert v == Replay(c, t, es, st.ranAt) && es[..|es|] == es;
    CheckStay(c, st, st', s, CrtLooked(v));
  }

  /** With a non-empty sum the loop of task_ready_process finds a piece. */
  lemma {:induction false} FirstMaxFinds(sizes: seq<int>)
    requires Sum(sizes) > 0
    ensures FirstMax(sizes).Some?
  {
    if FirstMax(sizes).None? {
      FirstMaxNone(sizes);
      SumNonPos(sizes);
    }
  }

  lemma {:induction false} FirstMaxNone(sizes: seq<int>)
    requires FirstMax(sizes).None?
    ensures forall j :: 0 <= j < |sizes| ==> sizes[j] <= NO_SIZE
  {
    if |sizes| > 0 { FirstMaxNone(sizes[..|sizes| - 1]); }
  }

  lemma {:induction false} SumNonPos(sizes: seq<int>)
    requires forall j :: 0 <= j < |sizes| ==> sizes[j] <= 0
    ensures Sum(sizes) <= 0
  {
    if |sizes| > 0 { SumNonPos(sizes[..|sizes| - 1]); }
  }

  lemma ParentStored(c: Config, es: seq<Edge>, m: nat, ranAt: Sites, data: map<Sched, map<Name, Piece>>,
                     result: map<Task, Piece>)
    requires m < |es| && es[m].p in ranAt && Stored(c, data, ranAt, result)
    ensures ParentList(es, ranAt)[m] < c.numSched
  {
  }

  lemma DecideTarget(c: Config, s: Sched, v: Value, localData: map<Name, Piece>)
    requires v.allSize > c.threshold ==> FirstMax(v.sizes).Some? && ParentAt(v, FirstMax(v.sizes).value) < c.numSched
    ensures var d := Decide(c, s, v, localData);
            d.CrtDecided? && !d.to.Lost? && (d.to.ToPeer? ==> d.to.target < c.numSched)
  {
  }

  /** A ready task over the threshold has data, and it is held by an existing scheduler. */
  lemma DecideSound(c: Config, t: Task, v: Value, notified: Notes, ranAt: Sites, data: map<Sched, map<Name, Piece>>,
                    result: map<Task, Piece>)
    requires c.threshold >= 0 && NoteOk(c, notified, ranAt, t) && Stored(c, data, ranAt, result)
    requires v == Replay(c, t, NotesAt(notified, t), ranAt) && v.allSize > c.threshold
    ensures FirstMax(v.sizes).Some? && ParentAt(v, FirstMax(v.sizes).value) < c.numSched
  {
    var es := NotesAt(notified, t);
    FirstMaxFinds(v.sizes);
    var m := FirstMax(v.sizes).value;
    assert es[m] in es;
    ParentStored(c, es, m, ranAt, data, result);
  }

  lemma CrtDecideInv(c: Config, st: State, st': State, s: Sched)
    requires WellFormed(c) && Inv(c, st) && s < c.numSched && DoCrtDecide(c, st, st', s)
    ensures Inv(c, st')
  {
    hide Conserved, Stages, Records, Notifiers, CompleteOk, Stored, Cores, InputsOk, History,
         Received, Accounted, CountStages, CountedOk, CountingOk, CoreDomain, CrtDomain, CctDomain, RecDomain;
    var v := CrtAt(st.crt, s).v;
    assert |At(st.q, Check(s))| == 1;
    var t := At(st.q, Check(s))[0].id;
    assert CheckerOk(c, st.notified, st.ranAt, CrtAt(st.crt, s), At(st.q, Check(s))[0]);
    assert NoteOk(c, st.notified, st.ranAt, t);
    ReadZero(c, st.notified, st.ranAt, t, v);
    if v.allSize > c.threshold { DecideSound(c, t, v, st.notified, st.ranAt, st.data, st.result); }
    DecideTarget(c, s, v, DataAt(st.data, s));
    CheckStay(c, st, st', s, Decide(c, s, v, DataAt(st.data, s)));
  }

  lemma CrtDoneInv(c: Config, st: State, st': State, s: Sched)
    requires Inv(c, st) && s < c.numSched && DoCrtDone(c, st, st', s)
    ensures Inv(c, st')
  {
    assert |At(st.q, Check(s))| == 0;
    CheckStay(c, st, st', s, CrtIdle);
  }

  // ---------- Stealing and migration ----------

  lemma BalanceInv(c: Config, st: State, st': State, s: Sched, a: BalanceAct)
    requires Inv(c, st) && s < c.numSched && BalanceNext(c, st, st', s, a)
    ensures Inv(c, st')
  {
    hide Conserved, Slots, Stages, NotesOk, Records, Notifiers, CompleteOk, Checkers, Stored, Cores, InputsOk, History,
         Received, Accounted, CountStages, CountedOk, CountingOk, CoreDomain, CrtDomain, CctDomain, RecDomain;
    var src, dst;
    match a {
    case StealSend(v, taken, rest) =>
      src, dst := Ws(v), Steal(s);
      TransferPopped(st.q, src, dst, rest, taken);
    case StealRecv(k) =>
      src, dst := Steal(s), Ws(s);
      TransferPrefix(st.q, src, dst, k);
    case MigrateOut(taken, rest) =>
      src, dst := Local(s), Migr(s);
      TransferPopped(st.q, src, dst, taken, rest);
    case MigrateIn =>
      src, dst := Migr(s), Ws(s);
      TransferAll(st.q, src, dst);
    }
    ReceivedFrame(c, st.q, st'.q, src, dst, st.recv, st.recvCtr, st.started);
    QuietMove(c, st, st', src, dst);
  }

  lemma ClientInv(c: Config, st: State, st': State, s: Sched, a: ClientAct)
    requires WellFormed(c) && Inv(c, st) && s < c.numSched && ClientNext(c, st, st', s, a)
    ensures Inv(c, st')
  {
    hide Inv, WellFormed;
    match a
    case RecvPkg(k) => RecvPkgInv(c, st, st', s, k);
    case RecvLookup => RecvLookupInv(c, st, st', s);
    case RecvCas => RecvCasInv(c, st, st', s);
    case Start => StartInv(c, st, st', s);
  }

  lemma CheckInv(c: Config, st: State, st': State, s: Sched, a: CheckAct)
    requires WellFormed(c) && Inv(c, st) && s < c.numSched && CheckNext(c, st, st', s, a)
    ensures Inv(c, st')
  {
    hide Inv, WellFormed;
    match a
    case WaitPop => WaitPopInv(c, st, st', s);
    case CrtLookup => CrtLookupInv(c, st, st', s);
    case CrtReturn => CrtReturnInv(c, st, st', s);
    case CrtDecide => CrtDecideInv(c, st, st', s);
    case CrtEnqueue => CrtEnqueueInv(c, st, st', s);
    case PushRecv => PushRecvInv(c, st, st', s);
    case CrtDone => CrtDoneInv(c, st, st', s);
  }
}
