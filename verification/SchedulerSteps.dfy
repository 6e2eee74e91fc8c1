/** The methods of the scheduler take the steps of the protocol. */
module SchedulerSteps {
  import opened MatrixModel
  import opened MatrixInvariant
  import opened MatrixBasics
  import opened Scheduler

  /** The fields of the scheduler are its part of the protocol's state. */
  ghost predicate Shows(ms: MatrixScheduler, st: State)
    reads ms, ms.localQueue, ms.wsQueue
  {
    && ms.localQueue != ms.wsQueue
    && ms.localQueue.items == At(st.q, Local(ms.id)) && ms.wsQueue.items == At(st.q, Ws(ms.id))
    && ms.localData == DataAt(st.data, ms.id)
    && ms.numTaskFin == NumAt(st.fin, ms.id) && ms.prevNumTaskFin == NumAt(st.prev, ms.id)
  }

  // ---------- Queues ----------

  /** send_task at the victim takes the tasks for a thief. */
  method StealSendStep(ms: MatrixScheduler, c: Config, thief: Sched, ghost st: State)
      returns (taken: seq<Item>, ghost st': State)
    requires Shows(ms, st) && ms.id < c.numSched && thief < c.numSched && thief != ms.id
    requires thief in st.started && At(st.q, Steal(thief)) == []
    modifies ms.wsQueue
    ensures NextStep(c, st, st', BalanceStep(thief, StealSend(ms.id, taken, ms.wsQueue.items)))
    ensures Shows(ms, st') && At(st'.q, Steal(thief)) == taken
  {
    hide PoppedTops;
    taken := ms.SendTask();
    st' := st.(q := Move(st.q, Ws(ms.id), ms.wsQueue.items, Steal(thief), taken));
    assert DoStealSend(c, st, st', ms.id, thief, taken, ms.wsQueue.items);
  }

  /** recv_task_from_scheduler at the thief enqueues a package of the tasks on their way. */
  method StealRecvStep(ms: MatrixScheduler, c: Config, pkg: seq<Item>, ghost st: State) returns (ghost st': State)
    requires Shows(ms, st) && ms.id < c.numSched && pkg != [] && pkg <= At(st.q, Steal(ms.id))
    modifies ms.wsQueue
    ensures NextStep(c, st, st', BalanceStep(ms.id, StealRecv(|pkg|))) && Shows(ms, st')
  {
    ghost var b := At(st.q, Steal(ms.id));
    ms.RecvTaskFromScheduler(pkg);
    assert pkg == b[..|pkg|];
    st' := st.(q := Move(st.q, Steal(ms.id), b[|pkg|..], Ws(ms.id), ms.wsQueue.items));
    assert DoStealRecv(c, st, st', ms.id, |pkg|);
  }

  /** localQueue_monitor changes nothing, or takes tasks out of the local queue and then enqueues them. */
  method MigrateSteps(ms: MatrixScheduler, c: Config, maxSize: nat, ghost st: State)
      returns (ghost mid: State, ghost st': State)
    requires Shows(ms, st) && ms.id < c.numSched && ms.id in st.started && At(st.q, Migr(ms.id)) == []
    modifies ms.localQueue, ms.wsQueue
    ensures Shows(ms, st')
    ensures maxSize == 0 || |At(st.q, Local(ms.id))| <= maxSize ==> st' == st
    ensures 0 < maxSize < |At(st.q, Local(ms.id))| ==>
              && |At(st'.q, Local(ms.id))| == maxSize
              && NextStep(c, st, mid, BalanceStep(ms.id, MigrateOut(At(mid.q, Local(ms.id)), At(mid.q, Migr(ms.id)))))
              && NextStep(c, mid, st', BalanceStep(ms.id, MigrateIn))
  {
    hide PoppedTops;
    ghost var local, ws := ms.localQueue.items, ms.wsQueue.items;
    ms.LocalQueueMonitor(maxSize);
    mid, st' := st, st;
    if 0 < maxSize < |local| {
      ghost var migrated :|
        PoppedTops(local, ms.localQueue.items, migrated) && ms.wsQueue.items == ws + migrated;
      PoppedLength(local, ms.localQueue.items, migrated);
      mid := st.(q := Move(st.q, Local(ms.id), ms.localQueue.items, Migr(ms.id), migrated));
      st' := mid.(q := Move(mid.q, Migr(ms.id), [], Ws(ms.id), ws + migrated));
      assert DoMigrateOut(c, st, mid, ms.id, ms.localQueue.items, migrated);
      assert DoMigrateIn(c, mid, st', ms.id);
    }
  }

  lemma PoppedLength(a: seq<Item>, taken: seq<Item>, rest: seq<Item>)
    requires PoppedTops(a, taken, rest)
    ensures |a| == |taken| + |rest|
  {
    IdsPopped(a, taken, rest);
  }

  /** An executing thread takes a task from the local queue, or from the stealing queue when that one is empty. */
  method ExecStartStep(ms: MatrixScheduler, c: Config, k: nat, ghost st: State)
      returns (r: Option<Item>, ghost st': State)
    requires Shows(ms, st) && ms.id < c.numSched && ms.id in st.started
    requires k < c.cores && CoreAt(st.core, Core(ms.id, k)).CoreIdle?
    modifies ms.localQueue, ms.wsQueue
    ensures Shows(ms, st')
    ensures r.None? ==> st' == st && At(st.q, Local(ms.id)) == [] && At(st.q, Ws(ms.id)) == []
    ensures r.Some? ==>
              var from := if At(st.q, Local(ms.id)) != [] then Local(ms.id) else Ws(ms.id);
              NextStep(c, st, st', ExecStep(ms.id, k, ExecStart(from, r.value, At(st'.q, from))))
  {
    hide PoppedTops, NextStep;
    ghost var from := if At(st.q, Local(ms.id)) != [] then Local(ms.id) else Ws(ms.id);
    r := ms.PopReady();
    st' := st;
    if r.Some? {
      st' := Started(c, st, ms.id, k, from, r.value, if from.Local? then ms.localQueue.items else ms.wsQueue.items);
    }
  }

  lemma Started(c: Config, st: State, s: Sched, k: nat, from: Place, x: Item, rest: seq<Item>) returns (st': State)
    requires s < c.numSched && s in st.started && k < c.cores && CoreAt(st.core, Core(s, k)).CoreIdle?
    requires from in {Local(s), Ws(s)} && PoppedTops(At(st.q, from), [x], rest)
    ensures NextStep(c, st, st', ExecStep(s, k, ExecStart(from, x, rest)))
    ensures At(st'.q, from) == rest && st'.data == st.data && st'.fin == st.fin && st'.prev == st.prev
    ensures forall p :: p != from && p != Core(s, k) ==> At(st'.q, p) == At(st.q, p)
  {
    hide PoppedTops;
    st' := st.(q := Move(st.q, from, rest, Core(s, k), [x]), core := st.core[Core(s, k) := CorePopped]);
    assert DoExecStart(c, st, st', s, k, from, x, rest);
  }

  // ---------- Routing ----------

  /** task_ready_process takes the decision of the checking thread. */
  method DecideStep(ms: MatrixScheduler, c: Config, v: Value, ghost st: State) returns (pc: CrtPc, ghost st': State)
    requires Shows(ms, st) && ms.id < c.numSched && CrtAt(st.crt, ms.id) == CrtLooked(v) && v.indegree == 0
    requires |v.sizes| == |v.parents| == |v.names|
    ensures NextStep(c, st, st', CheckStep(ms.id, CrtDecide)) && CrtAt(st'.crt, ms.id) == pc && Shows(ms, st')
  {
    hide Decide;
    pc := ms.TaskReadyProcess(c, v);
    st' := st.(crt := st.crt[ms.id := pc]);
    assert DoCrtDecide(c, st, st', ms.id);
  }

  // ---------- Collecting data ----------

  /** Steps of core k that take piece i and leave the localData `local`: a fetch, or a fetch, a request and caching. */
  ghost predicate Gathered(c: Config, st: State, s1: State, s2: State, s3: State, s: Sched, k: nat, v: Value, i: nat,
                           data': seq<Piece>, local: map<Name, Piece>) {
    && NextStep(c, st, s1, ExecStep(s, k, ExecFetch))
    && (s3 == s1 || (NextStep(c, s1, s2, ExecStep(s, k, ExecRemote)) && NextStep(c, s2, s3, ExecStep(s, k, ExecCache))))
    && CoreAt(s3.core, Core(s, k)) == CoreFetch(v, i + 1, data')
    && s3.q == st.q && s3.fin == st.fin && s3.prev == st.prev && DataAt(s3.data, s) == local
  }

  /** One round of the collection.  The holder answers from its localData. */
  method GatherSteps(ms: MatrixScheduler, c: Config, k: nat, v: Value, i: nat, data: seq<Piece>,
                     remote: (Sched, Name) -> Piece, ghost st: State)
      returns (data': seq<Piece>, ghost s1: State, ghost s2: State, ghost s3: State)
    requires Shows(ms, st) && ms.id < c.numSched && i < |v.sizes| == |v.parents| == |v.names|
    requires CoreAt(st.core, Core(ms.id, k)) == CoreFetch(v, i, data)
    requires v.parents[i] == ms.id ==> v.names[i] in ms.localData
    requires remote(v.parents[i], v.names[i]) == Find(DataAt(st.data, v.parents[i]), v.names[i])
    modifies ms`localData
    ensures Gathered(c, st, s1, s2, s3, ms.id, k, v, i, data', ms.localData) && Shows(ms, s3)
  {
    hide Gathered, DataAt, Find, At, NumAt, CoreAt;
    ghost var local := ms.localData;
    data' := ms.GatherOne(v, i, data, remote);
    if v.sizes[i] <= 0 || v.names[i] in local {
      s1 := UsedHere(c, st, ms.id, k, v, i, data, data');
      s2, s3 := s1, s1;
    } else {
      s1, s2, s3 := FetchedThere(c, st, ms.id, k, v, i, data);
    }
    GatheredFields(c, st, s1, s2, s3, ms.id, k, v, i, data', ms.localData);
  }

  lemma GatheredFields(c: Config, st: State, s1: State, s2: State, s3: State, s: Sched, k: nat, v: Value, i: nat,
                       data': seq<Piece>, local: map<Name, Piece>)
    requires Gathered(c, st, s1, s2, s3, s, k, v, i, data', local)
    ensures s3.q == st.q && s3.fin == st.fin && s3.prev == st.prev && DataAt(s3.data, s) == local
  {
  }

  /** A piece without data is skipped, one in localData is used. */
  lemma UsedHere(c: Config, st: State, s: Sched, k: nat, v: Value, i: nat, data: seq<Piece>, data': seq<Piece>)
      returns (s1: State)
    requires s < c.numSched && i < |v.sizes| == |v.parents| == |v.names|
    requires CoreAt(st.core, Core(s, k)) == CoreFetch(v, i, data)
    requires v.sizes[i] <= 0 || v.names[i] in DataAt(st.data, s)
    requires data' == if v.sizes[i] <= 0 then data else data + [DataAt(st.data, s)[v.names[i]]]
    ensures Gathered(c, st, s1, s1, s1, s, k, v, i, data', DataAt(st.data, s))
  {
    s1 := st.(core := st.core[Core(s, k) := CoreFetch(v, i + 1, data')]);
    assert DoExecFetch(c, st, s1, s, k);
  }

  /** Any other piece is requested from its holder, used and cached. */
  lemma FetchedThere(c: Config, st: State, s: Sched, k: nat, v: Value, i: nat, data: seq<Piece>)
      returns (s1: State, s2: State, s3: State)
    requires s < c.numSched && i < |v.sizes| == |v.parents| == |v.names|
    requires CoreAt(st.core, Core(s, k)) == CoreFetch(v, i, data)
    requires v.sizes[i] > 0 && v.names[i] !in DataAt(st.data, s) && v.parents[i] != s
    ensures var piece := Find(DataAt(st.data, v.parents[i]), v.names[i]);
            Gathered(c, st, s1, s2, s3, s, k, v, i, data + [piece], DataAt(st.data, s)[v.names[i] := piece])
  {
    hide Find;
    var p, piece := Core(s, k), Find(DataAt(st.data, v.parents[i]), v.names[i]);
    s1 := st.(core := st.core[p := CoreNeed(v, i, data)]);
    assert DoExecFetch(c, st, s1, s, k);
    s2 := s1.(core := s1.core[p := CoreGot(v, i, data, piece)]);
    assert DoExecRemote(c, s1, s2, s, k);
    s3 := s2.(core := s2.core[p := CoreFetch(v, i + 1, data + [piece])],
              data := s2.data[s := InsertNew(DataAt(s2.data, s), v.names[i], piece)]);
    assert DoExecCache(c, s2, s3, s, k);
  }

  // ---------- Reporting ----------

  /** Each attempt of the report is a compare_swap step of the reporting thread. */
  method ReportStep(ms: MatrixScheduler, c: Config, ctr: Counter, seen: int, ghost st: State)
      returns (left: bool, seen': int, ghost st': State)
    requires Shows(ms, st) && ms.id < c.numSched && ctr.value == st.doneCtr && RecAt(st.rec, ms.id) == RecLocked(seen)
    modifies ctr
    ensures NextStep(c, st, st', RecordStep(ms.id, RecCas)) && Shows(ms, st') && ctr.value == st'.doneCtr
    ensures RecAt(st'.rec, ms.id) == if left then RecSwapped else RecLocked(seen')
  {
    hide NextStep;
    var ok;
    ok, left, seen' := ms.TryReport(ctr, c.n, seen);
    st' := Tried(c, st, ms.id, seen);
  }

  lemma Tried(c: Config, st: State, s: Sched, seen: int) returns (st': State)
    requires s < c.numSched && RecAt(st.rec, s) == RecLocked(seen)
    ensures NextStep(c, st, st', RecordStep(s, RecCas)) && st' == st.(doneCtr := st'.doneCtr, rec := st'.rec)
    ensures st'.doneCtr == if st.doneCtr == seen then seen + (NumAt(st.fin, s) - NumAt(st.prev, s)) else st.doneCtr
    ensures RecAt(st'.rec, s) == if st.doneCtr == seen || st.doneCtr == c.n then RecSwapped else RecLocked(st.doneCtr)
  {
    var ok := st.doneCtr == seen;
    st' := st.(doneCtr := if ok then seen + (NumAt(st.fin, s) - NumAt(st.prev, s)) else st.doneCtr,
               rec := st.rec[s := if ok || st.doneCtr == c.n then RecSwapped else RecLocked(st.doneCtr)]);
    assert DoRecCas(c, st, st', s);
  }

  // ---------- Notifying ----------

  /** Each attempt of a notification is a compare_swap step of the completion thread. */
  method TryNotifyStep(rec: Record, c: Config, s: Sched, x: Item, seen: Value, ghost st: State)
      returns (ok: bool, query: Value, ghost st': State)
    requires s < c.numSched && At(st.q, Notify(s)) == [x]
    requires var pc := CctAt(st.cct, s);
             pc.CctRead? && pc.i < |pc.kids| && pc.seen == seen && rec.value == ZhtAt(st.zht, pc.kids[pc.i])
    modifies rec
    ensures NextStep(c, st, st', NotifyStep(s, NotifyCas))
    ensures rec.value == ZhtAt(st'.zht, CctAt(st.cct, s).kids[CctAt(st.cct, s).i])
    ensures ok ==> CctAt(st'.cct, s).CctNext?
    ensures !ok ==> CctAt(st'.cct, s).CctRead? && CctAt(st'.cct, s).seen == query
  {
    hide Noted, NextStep;
    var attempt := Noted(seen, Note(s, Name(s, x.id), x.size));
    ok, query := rec.CompareSwap(seen, attempt);
    NotedIs(seen, s, x);
    if ok { st' := Swapped(c, st, s, x); } else { st' := Refused(c, st, s, x); }
  }

  lemma NotedIs(v: Value, s: Sched, x: Item)
    ensures Noted(v, Note(s, Name(s, x.id), x.size)) == NotifyChild(v, s, Name(s, x.id), x.size)
  {
  }

  lemma Swapped(c: Config, st: State, s: Sched, x: Item) returns (st': State)
    requires s < c.numSched && At(st.q, Notify(s)) == [x]
    requires var pc := CctAt(st.cct, s);
             pc.CctRead? && pc.i < |pc.kids| && ZhtAt(st.zht, pc.kids[pc.i]) == pc.seen
    ensures NextStep(c, st, st', NotifyStep(s, NotifyCas)) && CctAt(st'.cct, s).CctNext?
    ensures var pc := CctAt(st.cct, s);
            ZhtAt(st'.zht, pc.kids[pc.i]) == NotifyChild(pc.seen, s, Name(s, x.id), x.size)
  {
    hide NotifyChild;
    var pc := CctAt(st.cct, s);
    var kid := pc.kids[pc.i];
    st' := st.(zht := st.zht[kid := NotifyChild(pc.seen, s, Name(s, x.id), x.size)],
               cct := st.cct[s := CctNext(pc.kids, pc.i + 1)],
               notified := st.notified[kid := NotesAt(st.notified, kid) + [Edge(x.id, pc.i)]]);
    assert DoNotifyCas(c, st, st', s);
  }

  lemma Refused(c: Config, st: State, s: Sched, x: Item) returns (st': State)
    requires s < c.numSched && At(st.q, Notify(s)) == [x]
    requires var pc := CctAt(st.cct, s);
             pc.CctRead? && pc.i < |pc.kids| && ZhtAt(st.zht, pc.kids[pc.i]) != pc.seen
    ensures NextStep(c, st, st', NotifyStep(s, NotifyCas)) && CctAt(st'.cct, s).CctRead? && st'.zht == st.zht
    ensures CctAt(st'.cct, s).seen == ZhtAt(st.zht, CctAt(st.cct, s).kids[CctAt(st.cct, s).i])
  {
    hide NotifyChild;
    var pc := CctAt(st.cct, s);
    st' := st.(cct := st.cct[s := CctRead(pc.kids, pc.i, ZhtAt(st.zht, pc.kids[pc.i]), pc.fails + 1)]);
    assert DoNotifyCas(c, st, st', s);
  }
}
