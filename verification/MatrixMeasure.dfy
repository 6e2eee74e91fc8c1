/**
  The work left in a state.  Every receive, dispatch, execute and notify step removes some; steals,
  failed compare_swaps and status reports add none.  A rotation of a wait queue consists of a pop, a
  lookup that finds the task not ready, and a return.  For k = 1 the pop and the lookup remove work
  that the return gives back; for k = 0 the three steps leave the work unchanged.
*/
module MatrixMeasure {
  import opened MatrixModel
  import opened MatrixInvariant
  import opened MatrixBasics
  import opened MatrixDispatch
  import opened MatrixExec
  import opened MatrixRun
  import opened MatrixNotify
  import opened MatrixRecord

  /** Work left for task t at place p, given d parents and `kids` children. */
  ghost function CoreRank(pc: CorePc, d: int): int {
    match pc
    case CoreRan(_) => 5
    case CoreGot(_, i, _, _) => 4 + 3 * (d - i)
    case CoreNeed(_, i, _) => 5 + 3 * (d - i)
    case CoreFetch(_, i, _) => 6 + 3 * (d - i)
    case _ => 7 + 3 * d
  }

  ghost function CctRank(pc: CctPc, kids: int): int {
    match pc
    case CctRead(_, i, _, _) => 2 * (kids - i) + 1
    case CctNext(_, i) => 2 * (kids - i) + 2
    case _ => 2 * kids + 3
  }

  ghost function CrtRank(k: nat, pc: CrtPc): int {
    match pc
    case CrtDecided(_, _) => 12
    case CrtLooked(v) => if v.indegree == 0 then 13 else 15 - 2 * k
    case CrtHeld => 15 - k
    case _ => 15
  }

  ghost function PlaceRank(k: nat, st: State, p: Place, d: int, kids: int): int {
    match p
    case Finished(_) => 0
    case Notify(s) => CctRank(CctAt(st.cct, s), kids)
    case Complete(_) => 2 * kids + 4
    case Core(_, _) => 2 * kids + CoreRank(CoreAt(st.core, p), d)
    case Ws(_) => 2 * kids + 3 * d + 8
    case Steal(_) => 2 * kids + 3 * d + 8
    case Migr(_) => 2 * kids + 3 * d + 9
    case Local(_) => 2 * kids + 3 * d + 10
    case Check(s) => 2 * kids + 3 * d + CrtRank(k, CrtAt(st.crt, s))
    case Wait(_) => 2 * kids + 3 * d + 15
    case Client(_) => 2 * kids + 3 * d + 16
  }

  ghost function CountBit(counted: map<Sched, set<Task>>, ranAt: Sites, t: Task): int {
    if t in ranAt && t in SetAt(counted, ranAt[t]) then 0 else 1
  }

  ghost function Where(q: Queues, t: Task): Place {
    if Somewhere(q, t) then (var p :| Cnt(q, p, t) == 1; p) else Client(0)
  }

  ghost function Rank(c: Config, k: nat, st: State, t: Task): int {
    PlaceRank(k, st, Where(st.q, t), InDeg(c, t), |Kids(c, t)|) + CountBit(st.counted, st.ranAt, t)
  }

  ghost function Ranks(c: Config, k: nat, st: State): seq<int> {
    seq(c.n, t requires 0 <= t => Rank(c, k, st, t))
  }

  /** What scheduler s has still to receive, to start and to acknowledge. */
  ghost function SchedRank(st: State, s: Sched): int {
    (match RecvAt(st.recv, s) case RecvIdle => 2 case RecvSeen(_) => 1 case RecvDone => 0) +
    (if s in st.started then 0 else 1) +
    (if CrtAt(st.crt, s).CrtAck? then 1 else 0)
  }

  ghost function SchedRanks(c: Config, st: State): seq<int> {
    seq(c.numSched, s requires 0 <= s => SchedRank(st, s))
  }

  ghost function TaskWork(c: Config, k: nat, st: State): int { Sum(Ranks(c, k, st)) }
  ghost function SchedWork(c: Config, st: State): int { Sum(SchedRanks(c, st)) }
  ghost function Potential(c: Config, k: nat, st: State): int { TaskWork(c, k, st) + SchedWork(c, st) }

  /** The work left when rotations are free. */
  ghost function Measure(c: Config, st: State): int { Potential(c, 0, st) }

  /** A lookup by the checking thread of s would find its task ready. */
  ghost predicate FindsReady(st: State, s: Sched) {
    |At(st.q, Check(s))| == 1 && ZhtAt(st.zht, At(st.q, Check(s))[0].id).indegree == 0
  }

  ghost predicate RecvSwaps(st: State, s: Sched) {
    RecvAt(st.recv, s).RecvSeen? && st.recvCtr == RecvAt(st.recv, s).seen
  }

  ghost predicate NotifySwaps(st: State, s: Sched) {
    var pc := CctAt(st.cct, s);
    pc.CctRead? && pc.i < |pc.kids| && ZhtAt(st.zht, pc.kids[pc.i]) == pc.seen
  }

  /** The work that a step removes. */
  ghost function Weight(k: nat, st: State, step: Step): int {
    match step
    case ClientStep(s, a) => if a.RecvCas? && !RecvSwaps(st, s) then 0 else 1
    case CheckStep(s, a) => CheckWeight(k, st, s, a)
    case BalanceStep(s, a) => if a.MigrateOut? || a.MigrateIn? then 1 else 0
    case ExecStep(s, i, a) => 1
    case NotifyStep(s, a) => if a.NotifyCas? && !NotifySwaps(st, s) then 0 else 1
    case RecordStep(s, a) => 0
  }

  ghost function CheckWeight(k: nat, st: State, s: Sched, a: CheckAct): int {
    match a
    case WaitPop => k
    case CrtLookup => if FindsReady(st, s) then 2 - k else k
    case CrtReturn => -2 * k
    case _ => 1
  }

  /** Steps that cannot be repeated for ever. */
  ghost predicate Useful(st: State, step: Step) { Weight(0, st, step) > 0 }

  lemma WhereIs(c: Config, q: Queues, p: Place, t: Task)
    requires Conserved(c, q) && Cnt(q, p, t) > 0
    ensures Where(q, t) == p
  {
    assert Cnt(q, p, t) == 1;
    assert Somewhere(q, t);
  }

  lemma WhereSound(c: Config, q: Queues, t: Task)
    requires Conserved(c, q) && t < c.n
    ensures Cnt(q, Where(q, t), t) == 1
  {
    assert Somewhere(q, t);
  }

  // ---------- Comparing sums of ranks ----------

  lemma SumDrop(a: seq<int>, b: seq<int>, t: nat, d: int)
    requires |a| == |b| && t < |a| && a[t] <= b[t] - d && forall j :: 0 <= j < |a| && j != t ==> a[j] <= b[j]
    ensures Sum(a) <= Sum(b) - d
  {
    var b' := b[t := b[t] - d];
    SumMono(a, b');
    SumSame(b, b', t);
  }

  /** Task t0 loses at least d, no other task gains. */
  lemma WorkDrops(c: Config, k: nat, st: State, st': State, t0: Task, d: int)
    requires forall t: nat :: t < c.n ==> Rank(c, k, st', t) <= Rank(c, k, st, t) - (if t == t0 then d else 0)
    requires d > 0 ==> t0 < c.n
    ensures TaskWork(c, k, st') <= TaskWork(c, k, st) - d
  {
    hide Rank;
    if t0 < c.n {
      SumDrop(Ranks(c, k, st'), Ranks(c, k, st), t0, d);
    } else {
      SumMono(Ranks(c, k, st'), Ranks(c, k, st));
    }
  }

  lemma SameWork(c: Config, k: nat, st: State, st': State)
    requires st'.q == st.q && st'.crt == st.crt && st'.core == st.core && st'.cct == st.cct
    requires st'.counted == st.counted && st'.ranAt == st.ranAt
    ensures TaskWork(c, k, st') == TaskWork(c, k, st)
  {
    assert Ranks(c, k, st') == Ranks(c, k, st);
  }

  ghost predicate SameCounts(st: State, st': State) { st'.counted == st.counted && st'.ranAt == st.ranAt }

  /** At place p task t ranks at least d lower than it did at place p0. */
  ghost predicate Lower(c: Config, k: nat, st: State, st': State, p0: Place, p: Place, t: Task, d: int) {
    PlaceRank(k, st', p, InDeg(c, t), |Kids(c, t)|) <= PlaceRank(k, st, p0, InDeg(c, t), |Kids(c, t)|) - d
  }

  /** A transfer in which the destination ranks no higher than the source, for t0 by at least d. */
  lemma TransferWork(c: Config, k: nat, st: State, st': State, src: Place, dst: Place, t0: Task, d: int)
    requires Conserved(c, st.q) && Conserved(c, st'.q) && Transfer(st.q, st'.q, src, dst) && SameCounts(st, st')
    requires forall p, t: nat :: Cnt(st.q, p, t) > 0 && Cnt(st'.q, p, t) > 0 ==> Lower(c, k, st, st', p, p, t, 0)
    requires forall t: nat :: Cnt(st.q, src, t) > 0 && Cnt(st'.q, dst, t) > 0 ==>
               Lower(c, k, st, st', src, dst, t, if t == t0 then d else 0)
    requires d > 0 ==> Cnt(st.q, src, t0) > 0 && Cnt(st'.q, dst, t0) > 0
    ensures TaskWork(c, k, st') <= TaskWork(c, k, st) - d
  {
    hide Rank, Lower, Conserved, Transfer, Cnt;
    TransferEnds(st.q, st'.q, src, dst);
    if d > 0 {
      BelowN(c, st.q, src, t0);
      WhereIs(c, st.q, src, t0);
      WhereIs(c, st'.q, dst, t0);
    }
    forall t: nat | t < c.n
      ensures Rank(c, k, st', t) <= Rank(c, k, st, t) - (if t == t0 then d else 0)
    {
      TaskTransfer(c, st.q, st'.q, src, dst, t);
      var e := if t == t0 then d else 0;
      var p := Where(st.q, t);
      if Where(st'.q, t) == p {
        assert Lower(c, k, st, st', p, p, t, 0);
        RankLower(c, k, st, st', t, 0);
      } else {
        assert Lower(c, k, st, st', src, dst, t, e);
        RankLower(c, k, st, st', t, e);
      }
    }
    WorkDrops(c, k, st, st', t0, d);
  }

  lemma TransferEnds(q: Queues, q': Queues, src: Place, dst: Place)
    requires Transfer(q, q', src, dst)
    ensures src != dst
  {
  }

  lemma RankLower(c: Config, k: nat, st: State, st': State, t: Task, e: int)
    requires SameCounts(st, st') && Lower(c, k, st, st', Where(st.q, t), Where(st'.q, t), t, e)
    ensures Rank(c, k, st', t) <= Rank(c, k, st, t) - e
  {
    hide PlaceRank, Where, CountBit;
  }

  lemma BelowN(c: Config, q: Queues, p: Place, t: Task)
    requires Conserved(c, q) && Cnt(q, p, t) > 0
    ensures t < c.n
  {
  }

  lemma TaskTransfer(c: Config, q: Queues, q': Queues, src: Place, dst: Place, t: Task)
    requires Conserved(c, q) && Conserved(c, q') && Transfer(q, q', src, dst) && t < c.n
    ensures var p := Where(q, t); var p' := Where(q', t);
            && Cnt(q, p, t) > 0 && Cnt(q', p', t) > 0
            && (p' == p || (p == src && p' == dst))
  {
    WhereSound(c, q, t);
    WhereSound(c, q', t);
    var p' := Where(q', t);
    Whereabouts(q, q', src, dst, p', t);
    if Cnt(q, p', t) > 0 { WhereIs(c, q, p', t); } else { WhereIs(c, q, src, t); }
  }

  /** A step that moves no task but changes the rank of one place. */
  lemma StayWork(c: Config, k: nat, st: State, st': State, p: Place, t0: Task, d: int)
    requires Conserved(c, st.q) && st'.q == st.q && Cnt(st.q, p, t0) > 0 && d >= 0
    requires forall p1, t: nat :: p1 != p ==> Lower(c, k, st, st', p1, p1, t, 0)
    requires forall t: nat :: Cnt(st.q, p, t) > 0 ==> Lower(c, k, st, st', p, p, t, d)
    requires forall t: nat :: CountBit(st'.counted, st'.ranAt, t) <= CountBit(st.counted, st.ranAt, t)
    ensures TaskWork(c, k, st') <= TaskWork(c, k, st) - d
  {
    hide PlaceRank, CountBit, Conserved, Cnt;
    BelowN(c, st.q, p, t0);
    WhereIs(c, st.q, p, t0);
    forall t: nat | t < c.n
      ensures Rank(c, k, st', t) <= Rank(c, k, st, t) - (if t == t0 then d else 0)
    {
      WhereSound(c, st.q, t);
      var p1 := Where(st.q, t);
      assert t == t0 ==> p1 == p;
      if p1 == p { assert Lower(c, k, st, st', p, p, t, d); } else { assert Lower(c, k, st, st', p1, p1, t, 0); }
    }
    WorkDrops(c, k, st, st', t0, d);
  }

  // ---------- Step by step ----------

  lemma RecvPkgWork(c: Config, k: nat, st: State, st': State, s: Sched, n: nat)
    requires Conserved(c, st.q) && Conserved(c, st'.q) && DoRecvPkg(c, st, st', s, n)
    ensures TaskWork(c, k, st') <= TaskWork(c, k, st) - 1
  {
    hide Conserved, Transfer, TaskWork, Cnt;
    TransferPrefix(st.q, Client(s), Wait(s), n);
    CntAt(st.q, Client(s), 0);
    var w := At(st.q, Wait(s));
    assert At(st'.q, Wait(s))[|w|] == At(st.q, Client(s))[0];
    CntAt(st'.q, Wait(s), |w|);
    TransferWork(c, k, st, st', Client(s), Wait(s), At(st.q, Client(s))[0].id, 1);
  }

  // ---------- Checking ----------

  lemma WaitPopWork(c: Config, k: nat, st: State, st': State, s: Sched)
    requires Conserved(c, st.q) && Conserved(c, st'.q) && Slots(st.q, st.crt, st.core, st.cct)
             && DoWaitPop(c, st, st', s)
    ensures TaskWork(c, k, st') <= TaskWork(c, k, st) - k
  {
    hide Conserved, Transfer, TaskWork, Cnt;
    assert |At(st.q, Check(s))| == 0;
    TransferFront(st.q, Wait(s), Check(s));
    FrontMoved(st.q, st'.q, Wait(s), Check(s));
    EmptyCnt(st.q, Check(s));
    TransferWork(c, k, st, st', Wait(s), Check(s), At(st.q, Wait(s))[0].id, k);
  }

  lemma OnlyAtCheck(q: Queues, s: Sched, t: Task)
    requires |At(q, Check(s))| == 1 && Cnt(q, Check(s), t) > 0
    ensures t == At(q, Check(s))[0].id
  {
    var i := CntIndex(q, Check(s), t);
  }

  lemma CrtReturnWork(c: Config, k: nat, st: State, st': State, s: Sched)
    requires Conserved(c, st.q) && Conserved(c, st'.q) && DoCrtReturn(c, st, st', s)
    ensures TaskWork(c, k, st') <= TaskWork(c, k, st) + 2 * k
  {
    hide Conserved, Transfer, TaskWork, Cnt;
    TransferOne(st.q, Check(s), Wait(s), At(st.q, Check(s))[0]);
    EmptyCnt(st'.q, Check(s));
    forall t: nat | Cnt(st.q, Check(s), t) > 0
      ensures t == At(st.q, Check(s))[0].id
    {
      OnlyAtCheck(st.q, s, t);
    }
    TransferWork(c, k, st, st', Check(s), Wait(s), At(st.q, Check(s))[0].id, -2 * k);
  }

  lemma AppendedAt(q: Queues, src: Place, dst: Place, x: Item)
    requires src != dst && |At(q, src)| == 1 && At(q, src)[0].id == x.id
    ensures Cnt(q, src, x.id) > 0 && Cnt(Move(q, src, [], dst, At(q, dst) + [x]), dst, x.id) > 0
  {
    CntAt(q, src, 0);
    var q' := Move(q, src, [], dst, At(q, dst) + [x]);
    assert At(q', dst)[|At(q, dst)|] == x;
    CntAt(q', dst, |At(q, dst)|);
  }

  /** A decided task leaves for a ready queue. */
  lemma DispatchWork(c: Config, k: nat, st: State, st': State, s: Sched, dst: Place, pc: CrtPc)
    requires Conserved(c, st.q) && Conserved(c, st'.q) && |At(st.q, Check(s))| == 1 && CrtAt(st.crt, s).CrtDecided?
    requires dst.Ws? || dst.Local?
    requires var x := Item(At(st.q, Check(s))[0].id, CrtAt(st.crt, s).len);
             st' == st.(q := Move(st.q, Check(s), [], dst, At(st.q, dst) + [x]), crt := st.crt[s := pc])
    ensures TaskWork(c, k, st') <= TaskWork(c, k, st) - 2
  {
    hide Conserved, Transfer, TaskWork, Cnt;
    var x := Item(At(st.q, Check(s))[0].id, CrtAt(st.crt, s).len);
    TransferOne(st.q, Check(s), dst, x);
    AppendedAt(st.q, Check(s), dst, x);
    EmptyCnt(st'.q, Check(s));
    TransferWork(c, k, st, st', Check(s), dst, x.id, 2);
  }

  /** The checking thread looks at its task or decides about it. */
  lemma CheckStayWork(c: Config, k: nat, st: State, st': State, s: Sched, pc: CrtPc, d: int)
    requires Conserved(c, st.q) && st' == st.(crt := st.crt[s := pc]) && |At(st.q, Check(s))| == 1
    requires d >= 0 && CrtRank(k, pc) <= CrtRank(k, CrtAt(st.crt, s)) - d
    ensures TaskWork(c, k, st') <= TaskWork(c, k, st) - d
  {
    hide Conserved, TaskWork, Cnt, CrtRank;
    CntAt(st.q, Check(s), 0);
    StayWork(c, k, st, st', Check(s), At(st.q, Check(s))[0].id, d);
  }

  lemma CheckTasks(c: Config, k: nat, st: State, st': State, s: Sched, a: CheckAct)
    requires k <= 1 && Conserved(c, st.q) && Conserved(c, st'.q) && Slots(st.q, st.crt, st.core, st.cct)
             && CheckNext(c, st, st', s, a)
    ensures TaskWork(c, k, st')
         <= TaskWork(c, k, st) - (if a.CrtDone? then 0 else CheckWeight(k, st, s, a)) - (if a.PushRecv? then 1 else 0)
  {
    hide Conserved, TaskWork;
    match a
    case WaitPop => WaitPopWork(c, k, st, st', s);
    case CrtReturn => CrtReturnWork(c, k, st, st', s);
    case CrtEnqueue => DispatchWork(c, k, st, st', s, if CrtAt(st.crt, s).to == ToWs then Ws(s) else Local(s), CrtIdle);
    case PushRecv => DispatchWork(c, k, st, st', s, Local(CrtAt(st.crt, s).to.target), CrtAck);
    case CrtLookup => CheckStayWork(c, k, st, st', s, CrtAt(st'.crt, s), CheckWeight(k, st, s, a));
    case CrtDecide => CheckStayWork(c, k, st, st', s, CrtAt(st'.crt, s), 1);
    case CrtDone => CrtDoneTasks(c, k, st, st', s);
  }

  lemma CrtDoneTasks(c: Config, k: nat, st: State, st': State, s: Sched)
    requires Conserved(c, st.q) && Slots(st.q, st.crt, st.core, st.cct) && DoCrtDone(c, st, st', s)
    ensures TaskWork(c, k, st') <= TaskWork(c, k, st)
  {
    hide Conserved, Cnt;
    assert |At(st.q, Check(s))| == 0;
    EmptyCnt(st.q, Check(s));
    forall t: nat | t < c.n
      ensures Rank(c, k, st', t) == Rank(c, k, st, t)
    {
      WhereSound(c, st.q, t);
      var p := Where(st.q, t);
      assert p != Check(s);
    }
    assert Ranks(c, k, st') == Ranks(c, k, st);
  }

  lemma CheckSched(c: Config, st: State, st': State, s: Sched, a: CheckAct)
    requires s < c.numSched && CheckNext(c, st, st', s, a)
    ensures SchedWork(c, st') == SchedWork(c, st) + (if a.PushRecv? then 1 else if a.CrtDone? then -1 else 0)
  {
    hide SchedWork;
    assert st'.recv == st.recv && st'.started == st.started;
    SchedStep(c, st, st', s);
  }

  lemma CheckWork(c: Config, k: nat, st: State, st': State, s: Sched, a: CheckAct)
    requires k <= 1 && s < c.numSched && CheckNext(c, st, st', s, a)
    requires Conserved(c, st.q) && Conserved(c, st'.q) && Slots(st.q, st.crt, st.core, st.cct)
    ensures Potential(c, k, st') <= Potential(c, k, st) - CheckWeight(k, st, s, a)
  {
    hide Conserved, Slots, TaskWork, SchedWork, CheckNext;
    CheckTasks(c, k, st, st', s, a);
    CheckSched(c, st, st', s, a);
  }

  // ---------- Balancing ----------

  /** The front of a non-empty destination comes from the source if the destination was empty. */
  lemma FrontMoved(q: Queues, q': Queues, src: Place, dst: Place)
    requires Transfer(q, q', src, dst) && At(q, dst) == [] && |At(q', dst)| > 0
    ensures Cnt(q, src, At(q', dst)[0].id) > 0 && Cnt(q', dst, At(q', dst)[0].id) > 0
  {
    CntAt(q', dst, 0);
    Whereabouts(q, q', src, dst, dst, At(q', dst)[0].id);
    assert Ids(At(q, dst)) == [];
  }

  lemma StealWork(c: Config, k: nat, st: State, st': State, s: Sched, a: BalanceAct)
    requires Conserved(c, st.q) && Conserved(c, st'.q) && BalanceNext(c, st, st', s, a)
             && (a.StealSend? || a.StealRecv?)
    ensures TaskWork(c, k, st') <= TaskWork(c, k, st)
  {
    hide Conserved, Transfer, TaskWork, Cnt;
    match a {
      case StealSend(v, taken, rest) =>
        TransferPopped(st.q, Ws(v), Steal(s), rest, taken);
        TransferWork(c, k, st, st', Ws(v), Steal(s), 0, 0);
      case StealRecv(n) =>
        TransferPrefix(st.q, Steal(s), Ws(s), n);
        TransferWork(c, k, st, st', Steal(s), Ws(s), 0, 0);
    }
  }

  lemma MigrateOutWork(c: Config, k: nat, st: State, st': State, s: Sched, taken: seq<Item>, rest: seq<Item>)
    requires Conserved(c, st.q) && Conserved(c, st'.q) && DoMigrateOut(c, st, st', s, taken, rest)
    ensures TaskWork(c, k, st') <= TaskWork(c, k, st) - 1
  {
    hide Conserved, Transfer, TaskWork, Cnt;
    TransferPopped(st.q, Local(s), Migr(s), taken, rest);
    IdsPopped(At(st.q, Local(s)), taken, rest);
    FrontMoved(st.q, st'.q, Local(s), Migr(s));
    TransferWork(c, k, st, st', Local(s), Migr(s), rest[0].id, 1);
  }

  lemma BalanceWork(c: Config, k: nat, st: State, st': State, s: Sched, a: BalanceAct)
    requires Conserved(c, st.q) && Conserved(c, st'.q) && BalanceNext(c, st, st', s, a)
    ensures TaskWork(c, k, st') <= TaskWork(c, k, st) - (if a.MigrateOut? || a.MigrateIn? then 1 else 0)
  {
    hide Conserved, TaskWork, DoStealSend, DoStealRecv, DoMigrateOut, DoMigrateIn;
    match a
    case StealSend(v, taken, rest) => StealWork(c, k, st, st', s, a);
    case StealRecv(n) => StealWork(c, k, st, st', s, a);
    case MigrateOut(taken, rest) => MigrateOutWork(c, k, st, st', s, taken, rest);
    case MigrateIn => MigrateInWork(c, k, st, st', s);
  }

  lemma MigrateInWork(c: Config, k: nat, st: State, st': State, s: Sched)
    requires Conserved(c, st.q) && Conserved(c, st'.q) && DoMigrateIn(c, st, st', s)
    ensures TaskWork(c, k, st') <= TaskWork(c, k, st) - 1
  {
    hide Conserved, Transfer, TaskWork, Cnt;
    TransferAll(st.q, Migr(s), Ws(s));
    CntAt(st.q, Migr(s), 0);
    assert At(st'.q, Ws(s))[|At(st.q, Ws(s))|] == At(st.q, Migr(s))[0];
    CntAt(st'.q, Ws(s), |At(st.q, Ws(s))|);
    TransferWork(c, k, st, st', Migr(s), Ws(s), At(st.q, Migr(s))[0].id, 1);
  }

  // ---------- Executing ----------

  lemma EmptyCnt(q: Queues, p: Place)
    requires At(q, p) == []
    ensures forall t: nat :: Cnt(q, p, t) == 0
  {
    assert Ids([]) == [];
  }

  lemma ExecStartWork(c: Config, k: nat, st: State, st': State, s: Sched, i: nat, from: Place, x: Item, rest: seq<Item>)
    requires Conserved(c, st.q) && Conserved(c, st'.q) && Slots(st.q, st.crt, st.core, st.cct)
    requires DoExecStart(c, st, st', s, i, from, x, rest)
    ensures TaskWork(c, k, st') <= TaskWork(c, k, st) - 1
  {
    hide Conserved, Transfer, TaskWork, Cnt;
    assert |At(st.q, Core(s, i))| == 0;
    TransferPopped(st.q, from, Core(s, i), rest, [x]);
    FrontMoved(st.q, st'.q, from, Core(s, i));
    EmptyCnt(st.q, Core(s, i));
    TransferWork(c, k, st, st', from, Core(s, i), x.id, 1);
  }

  lemma ExecCompleteWork(c: Config, k: nat, st: State, st': State, s: Sched, i: nat)
    requires Conserved(c, st.q) && Conserved(c, st'.q) && DoExecComplete(c, st, st', s, i)
    ensures TaskWork(c, k, st') <= TaskWork(c, k, st) - 1
  {
    hide Conserved, Transfer, TaskWork, Cnt;
    var x := Item(At(st.q, Core(s, i))[0].id, CoreAt(st.core, Core(s, i)).v.outputSize);
    TransferOne(st.q, Core(s, i), Complete(s), x);
    AppendedAt(st.q, Core(s, i), Complete(s), x);
    EmptyCnt(st'.q, Core(s, i));
    TransferWork(c, k, st, st', Core(s, i), Complete(s), x.id, 1);
  }

  /** A step of an executing thread on its task. */
  lemma GatherWork(c: Config, k: nat, st: State, st': State, s: Sched, i: nat, t: Task)
    requires Conserved(c, st.q) && st'.q == st.q && st'.crt == st.crt && st'.cct == st.cct && st'.counted == st.counted
    requires OnlyCore(st.core, st'.core, Core(s, i)) && |At(st.q, Core(s, i))| == 1 && t == At(st.q, Core(s, i))[0].id
    requires CoreRank(CoreAt(st'.core, Core(s, i)), InDeg(c, t)) < CoreRank(CoreAt(st.core, Core(s, i)), InDeg(c, t))
    requires st'.ranAt == st.ranAt || (t !in st.ranAt && st'.ranAt == st.ranAt[t := s])
    ensures TaskWork(c, k, st') <= TaskWork(c, k, st) - 1
  {
    hide Conserved, TaskWork, Cnt, CoreRank, InDeg;
    CntAt(st.q, Core(s, i), 0);
    forall t1: nat | Cnt(st.q, Core(s, i), t1) > 0
      ensures Lower(c, k, st, st', Core(s, i), Core(s, i), t1, 1)
    {
      var j := CntIndex(st.q, Core(s, i), t1);
    }
    StayWork(c, k, st, st', Core(s, i), t, 1);
  }

  lemma ReadyCore(c: Config, st: State, s: Sched, k: nat) returns (t: Task)
    requires Inv(c, st) && CoreBusy(CoreAt(st.core, Core(s, k)))
    ensures |At(st.q, Core(s, k))| == 1 && t == At(st.q, Core(s, k))[0].id && |NotesAt(st.notified, t)| == InDeg(c, t)
    ensures CoreOk(c, NotesAt(st.notified, t), st.ranAt, st.result, CoreAt(st.core, Core(s, k)), t)
    ensures !CoreAt(st.core, Core(s, k)).CoreRan? ==> t !in st.ranAt
  {
    hide Inv, NoteOk, CoreOk;
    t := AtCore(c, st, s, k);
  }

  ghost predicate Gathering(a: ExecAct) { a.ExecLookup? || a.ExecFetch? || a.ExecRemote? || a.ExecCache? || a.ExecRun? }

  lemma GatherRank(c: Config, st: State, st': State, s: Sched, k: nat, a: ExecAct, t: Task)
    requires ExecNext(c, st, st', s, k, a) && Gathering(a) && |At(st.q, Core(s, k))| == 1
             && t == At(st.q, Core(s, k))[0].id
    requires CoreOk(c, NotesAt(st.notified, t), st.ranAt, st.result, CoreAt(st.core, Core(s, k)), t)
    requires |NotesAt(st.notified, t)| == InDeg(c, t)
    ensures CoreRank(CoreAt(st'.core, Core(s, k)), InDeg(c, t)) < CoreRank(CoreAt(st.core, Core(s, k)), InDeg(c, t))
  {
    hide InDeg, InputOk, InsertNew, Find, Replay, NameAt, ParentAt, DataAt;
    ReplayLength(c, t, NotesAt(st.notified, t), st.ranAt);
  }

  lemma ReplayLength(c: Config, t: Task, es: seq<Edge>, ranAt: Sites)
    ensures |Replay(c, t, es, ranAt).parents| == |es|
  {
  }

  lemma GatherFrame(c: Config, st: State, st': State, s: Sched, k: nat, a: ExecAct)
    requires ExecNext(c, st, st', s, k, a) && Gathering(a) && |At(st.q, Core(s, k))| == 1
    ensures st'.q == st.q && st'.crt == st.crt && st'.cct == st.cct && st'.counted == st.counted
    ensures OnlyCore(st.core, st'.core, Core(s, k))
    ensures st'.ranAt == st.ranAt || (a.ExecRun? && st'.ranAt == st.ranAt[At(st.q, Core(s, k))[0].id := s])
    ensures CoreBusy(CoreAt(st.core, Core(s, k))) && !CoreAt(st.core, Core(s, k)).CoreRan?
    ensures st'.recv == st.recv && st'.started == st.started
  {
  }

  lemma ExecStayWork(c: Config, w: nat, st: State, st': State, s: Sched, k: nat, a: ExecAct)
    requires Inv(c, st) && Conserved(c, st.q) && ExecNext(c, st, st', s, k, a) && Gathering(a)
    ensures TaskWork(c, w, st') <= TaskWork(c, w, st) - 1
  {
    hide Inv, Conserved, TaskWork, InDeg, ExecNext, CoreOk, CoreRank, OnlyCore, Gathering;
    assert CoreBusy(CoreAt(st.core, Core(s, k))) by { GatherBusy(c, st, st', s, k, a); }
    var t := ReadyCore(c, st, s, k);
    GatherFrame(c, st, st', s, k, a);
    GatherRank(c, st, st', s, k, a, t);
    GatherWork(c, w, st, st', s, k, t);
  }

  lemma GatherBusy(c: Config, st: State, st': State, s: Sched, k: nat, a: ExecAct)
    requires ExecNext(c, st, st', s, k, a) && Gathering(a)
    ensures CoreBusy(CoreAt(st.core, Core(s, k)))
  {
  }

  lemma CountWork(c: Config, w: nat, st: State, st': State, s: Sched, k: nat)
    requires Inv(c, st) && Conserved(c, st.q) && DoExecCount(c, st, st', s, k)
    ensures TaskWork(c, w, st') <= TaskWork(c, w, st) - 1
  {
    hide Inv, Conserved, TaskWork, PlaceRank;
    var t := CoreAt(st.core, Core(s, k)).t;
    CountingAt(c, st, s, k);
    forall t1: nat | t1 < c.n
      ensures Rank(c, w, st', t1) <= Rank(c, w, st, t1) - (if t1 == t then 1 else 0)
    {
      CountRank(c, w, st, st', s, k, t1);
    }
    WorkDrops(c, w, st, st', t, 1);
  }

  lemma CountingAt(c: Config, st: State, s: Sched, k: nat)
    requires Inv(c, st) && CoreAt(st.core, Core(s, k)).CoreCounting?
    ensures At(st.q, Core(s, k)) == []
    ensures var t := CoreAt(st.core, Core(s, k)).t;
            t in st.ranAt && st.ranAt[t] == s && t !in SetAt(st.counted, s) && t < c.n
  {
    hide Conserved, Slots, Stages, NotesOk, Records, Notifiers, CompleteOk, Checkers, Stored, Cores, InputsOk,
         Received, Accounted, CountStages, CountedOk, CountingOk, CoreDomain, CrtDomain, CctDomain, RecDomain;
    CountingFacts(st.q, st.crt, st.core, st.cct, st.counted, st.ranAt, s, k);
    var t := CoreAt(st.core, Core(s, k)).t;
    var i :| 0 <= i < |st.runs| && st.runs[i] == t;
  }

  lemma CountRank(c: Config, w: nat, st: State, st': State, s: Sched, k: nat, t1: Task)
    requires Conserved(c, st.q) && DoExecCount(c, st, st', s, k) && At(st.q, Core(s, k)) == [] && t1 < c.n
    requires var t := CoreAt(st.core, Core(s, k)).t; t in st.ranAt && st.ranAt[t] == s && t !in SetAt(st.counted, s)
    ensures Rank(c, w, st', t1) <= Rank(c, w, st, t1) - (if t1 == CoreAt(st.core, Core(s, k)).t then 1 else 0)
  {
    hide Conserved, Cnt, CoreRank, CctRank, CrtRank;
    WhereSound(c, st.q, t1);
    EmptyCnt(st.q, Core(s, k));
    var p := Where(st.q, t1);
    assert p != Core(s, k);
    assert CoreAt(st'.core, p) == CoreAt(st.core, p);
  }

  // ---------- Notifying ----------

  lemma NotifyStayWork(c: Config, k: nat, st: State, st': State, s: Sched, t: Task)
    requires Conserved(c, st.q) && st'.q == st.q && st'.crt == st.crt && st'.core == st.core && SameCounts(st, st')
    requires OnlyCct(st.cct, st'.cct, s) && |At(st.q, Notify(s))| == 1 && t == At(st.q, Notify(s))[0].id
    requires CctRank(CctAt(st'.cct, s), |Kids(c, t)|) < CctRank(CctAt(st.cct, s), |Kids(c, t)|)
    ensures TaskWork(c, k, st') <= TaskWork(c, k, st) - 1
  {
    hide Conserved, TaskWork, Cnt, CctRank, InDeg;
    CntAt(st.q, Notify(s), 0);
    forall t1: nat | Cnt(st.q, Notify(s), t1) > 0
      ensures Lower(c, k, st, st', Notify(s), Notify(s), t1, 1)
    {
      OnlyAtNotify(st.q, s, t1);
    }
    StayWork(c, k, st, st', Notify(s), t, 1);
  }

  lemma NotifyPopWork(c: Config, k: nat, st: State, st': State, s: Sched)
    requires Conserved(c, st.q) && Conserved(c, st'.q) && Slots(st.q, st.crt, st.core, st.cct)
             && DoNotifyPop(c, st, st', s)
    ensures TaskWork(c, k, st') <= TaskWork(c, k, st) - 1
  {
    hide Conserved, Transfer, TaskWork, Cnt;
    assert |At(st.q, Notify(s))| == 0;
    TransferFront(st.q, Complete(s), Notify(s));
    FrontMoved(st.q, st'.q, Complete(s), Notify(s));
    EmptyCnt(st.q, Notify(s));
    TransferWork(c, k, st, st', Complete(s), Notify(s), At(st.q, Complete(s))[0].id, 1);
  }

  lemma NotifyEndWork(c: Config, k: nat, st: State, st': State, s: Sched)
    requires Inv(c, st) && Conserved(c, st.q) && Conserved(c, st'.q) && DoNotifyEnd(c, st, st', s)
    ensures TaskWork(c, k, st') <= TaskWork(c, k, st) - 1
  {
    hide Inv, Conserved, Transfer, TaskWork, Cnt, NotifiedUpTo;
    var t := AtNotify(c, st, s);
    TransferAll(st.q, Notify(s), Finished(s));
    CntAt(st.q, Notify(s), 0);
    assert At(st'.q, Finished(s))[|At(st.q, Finished(s))|] == At(st.q, Notify(s))[0];
    CntAt(st'.q, Finished(s), |At(st.q, Finished(s))|);
    EmptyCnt(st'.q, Notify(s));
    forall t1: nat | Cnt(st.q, Notify(s), t1) > 0
      ensures Lower(c, k, st, st', Notify(s), Finished(s), t1, 1)
    {
      OnlyAtNotify(st.q, s, t1);
    }
    TransferWork(c, k, st, st', Notify(s), Finished(s), t, 1);
  }

  ghost predicate Notifying(st: State, s: Sched, a: NotifyAct) {
    a.NotifyLookup? || a.NotifyRead? || (a.NotifyCas? && NotifySwaps(st, s))
  }

  lemma NotifyMidRank(c: Config, st: State, st': State, s: Sched, a: NotifyAct, t: Task)
    requires NotifyNext(c, st, st', s, a) && Notifying(st, s, a) && |At(st.q, Notify(s))| == 1
             && t == At(st.q, Notify(s))[0].id
    requires NotifierOk(c, st.notified, st.ranAt, CctAt(st.cct, s), At(st.q, Notify(s))[0])
             && ZhtAt(st.zht, t).children == Kids(c, t)
    ensures CctRank(CctAt(st'.cct, s), |Kids(c, t)|) < CctRank(CctAt(st.cct, s), |Kids(c, t)|)
    ensures st'.q == st.q && st'.crt == st.crt && st'.core == st.core && SameCounts(st, st')
            && OnlyCct(st.cct, st'.cct, s)
  {
    hide Snapshot, Kids, NotifyChild;
  }

  lemma NotifyMidWork(c: Config, k: nat, st: State, st': State, s: Sched, a: NotifyAct)
    requires Inv(c, st) && Conserved(c, st.q) && NotifyNext(c, st, st', s, a) && Notifying(st, s, a)
    ensures TaskWork(c, k, st') <= TaskWork(c, k, st) - 1
  {
    hide Inv, Conserved, TaskWork, Cnt, NotifiedUpTo, NotifierOk, CctRank, OnlyCct, NotifyNext, Notifying;
    assert !CctAt(st.cct, s).CctIdle? by { NotifyBusy(c, st, st', s, a); }
    var t := AtNotify(c, st, s);
    NotifyMidRank(c, st, st', s, a, t);
    NotifyStayWork(c, k, st, st', s, t);
  }

  lemma NotifyBusy(c: Config, st: State, st': State, s: Sched, a: NotifyAct)
    requires NotifyNext(c, st, st', s, a) && Notifying(st, s, a)
    ensures !CctAt(st.cct, s).CctIdle?
  {
  }

  lemma RetryWork(c: Config, k: nat, st: State, st': State, s: Sched)
    requires Conserved(c, st.q) && DoNotifyCas(c, st, st', s) && !NotifySwaps(st, s)
    ensures TaskWork(c, k, st') == TaskWork(c, k, st)
  {
    hide Conserved, CoreRank, CrtRank;
    forall t: nat | t < c.n
      ensures Rank(c, k, st', t) == Rank(c, k, st, t)
    {
      var p := Where(st.q, t);
      assert p.Notify? && p.s != s ==> CctAt(st'.cct, p.s) == CctAt(st.cct, p.s);
    }
    assert Ranks(c, k, st') == Ranks(c, k, st);
  }

  // ---------- Schedulers ----------

  lemma SchedStep(c: Config, st: State, st': State, s: Sched)
    requires s < c.numSched
    requires forall s1: nat :: s1 != s ==> SchedRank(st', s1) == SchedRank(st, s1)
    ensures SchedWork(c, st') == SchedWork(c, st) + SchedRank(st', s) - SchedRank(st, s)
  {
    SumSame(SchedRanks(c, st), SchedRanks(c, st'), s);
  }

  lemma ClientWork(c: Config, k: nat, st: State, st': State, s: Sched, a: ClientAct)
    requires s < c.numSched && ClientNext(c, st, st', s, a) && !a.RecvPkg?
    ensures Potential(c, k, st') <= Potential(c, k, st) - (if a.RecvCas? && !RecvSwaps(st, s) then 0 else 1)
  {
    hide TaskWork, SchedWork;
    SameWork(c, k, st, st');
    SchedStep(c, st, st', s);
  }

  lemma ConservedFacts(c: Config, st: State)
    requires Inv(c, st)
    ensures Conserved(c, st.q) && Slots(st.q, st.crt, st.core, st.cct)
  {
  }

  lemma ExecWork(c: Config, w: nat, st: State, st': State, s: Sched, k: nat, a: ExecAct)
    requires Inv(c, st) && Inv(c, st') && ExecNext(c, st, st', s, k, a)
    ensures TaskWork(c, w, st') <= TaskWork(c, w, st) - 1
  {
    hide Inv, Conserved, Slots, TaskWork, DoExecStart, DoExecLookup, DoExecFetch, DoExecRemote, DoExecCache, DoExecRun,
         DoExecComplete, DoExecCount;
    ConservedFacts(c, st);
    ConservedFacts(c, st');
    match a
    case ExecStart(from, x, rest) => ExecStartWork(c, w, st, st', s, k, from, x, rest);
    case ExecComplete => ExecCompleteWork(c, w, st, st', s, k);
    case ExecCount => CountWork(c, w, st, st', s, k);
    case _ => ExecStayWork(c, w, st, st', s, k, a);
  }

  lemma NotifyWork(c: Config, k: nat, st: State, st': State, s: Sched, a: NotifyAct)
    requires Inv(c, st) && Inv(c, st') && NotifyNext(c, st, st', s, a)
    ensures TaskWork(c, k, st') <= TaskWork(c, k, st) - (if a.NotifyCas? && !NotifySwaps(st, s) then 0 else 1)
  {
    hide Inv, Conserved, Slots, TaskWork, DoNotifyPop, DoNotifyLookup, DoNotifyRead, DoNotifyCas, DoNotifyEnd;
    ConservedFacts(c, st);
    ConservedFacts(c, st');
    match a
    case NotifyPop => NotifyPopWork(c, k, st, st', s);
    case NotifyEnd => NotifyEndWork(c, k, st, st', s);
    case _ => if Notifying(st, s, a) { NotifyMidWork(c, k, st, st', s, a); } else { RetryWork(c, k, st, st', s); }
  }

  ghost predicate SameArrivals(st: State, st': State) {
    st'.recv == st.recv && st'.started == st.started && st'.crt == st.crt
  }

  lemma SameSchedWork(c: Config, st: State, st': State)
    requires SameArrivals(st, st')
    ensures SchedWork(c, st') == SchedWork(c, st)
  {
    assert SchedRanks(c, st') == SchedRanks(c, st);
  }

  lemma BalanceArrivals(c: Config, st: State, st': State, s: Sched, a: BalanceAct)
    requires BalanceNext(c, st, st', s, a)
    ensures SameArrivals(st, st')
  {
    hide PoppedTops;
  }

  lemma ExecArrivals(c: Config, st: State, st': State, s: Sched, k: nat, a: ExecAct)
    requires ExecNext(c, st, st', s, k, a)
    ensures SameArrivals(st, st')
  {
    hide PoppedTops, InsertNew, Find;
  }

  lemma NotifyArrivals(c: Config, st: State, st': State, s: Sched, a: NotifyAct)
    requires NotifyNext(c, st, st', s, a)
    ensures SameArrivals(st, st')
  {
  }

  lemma RecordArrivals(c: Config, st: State, st': State, s: Sched, a: RecordAct)
    requires RecordNext(c, st, st', s, a)
    ensures SameArrivals(st, st') && st'.q == st.q && st'.core == st.core && st'.cct == st.cct && SameCounts(st, st')
  {
  }

  /** Only the client's messages and the checking thread change what the schedulers have yet to do themselves. */
  lemma SchedWorkSame(c: Config, st: State, st': State, step: Step)
    requires NextStep(c, st, st', step) && !step.CheckStep? && (step.ClientStep? ==> step.client.RecvPkg?)
    ensures SchedWork(c, st') == SchedWork(c, st)
  {
    hide BalanceNext, ExecNext, NotifyNext, RecordNext, SchedWork;
    match step {
      case ClientStep(s, a) =>
      case BalanceStep(s, a) => BalanceArrivals(c, st, st', s, a);
      case ExecStep(s, k, a) => ExecArrivals(c, st, st', s, k, a);
      case NotifyStep(s, a) => NotifyArrivals(c, st, st', s, a);
      case RecordStep(s, a) => RecordArrivals(c, st, st', s, a);
    }
    SameSchedWork(c, st, st');
  }

  lemma TaskWorkStep(c: Config, k: nat, st: State, st': State, step: Step)
    requires Inv(c, st) && Inv(c, st') && NextStep(c, st, st', step) && !step.CheckStep?
             && (step.ClientStep? ==> step.client.RecvPkg?)
    ensures TaskWork(c, k, st') <= TaskWork(c, k, st) - Weight(k, st, step)
  {
    hide Inv, Conserved, Slots, TaskWork, BalanceNext, ExecNext, NotifyNext, RecordNext, NotifySwaps;
    ConservedFacts(c, st);
    ConservedFacts(c, st');
    match step
    case ClientStep(s, a) => RecvPkgWork(c, k, st, st', s, a.k);
    case BalanceStep(s, a) => BalanceWork(c, k, st, st', s, a);
    case ExecStep(s, i, a) => ExecWork(c, k, st, st', s, i, a);
    case NotifyStep(s, a) => NotifyWork(c, k, st, st', s, a);
    case RecordStep(s, a) => RecordArrivals(c, st, st', s, a); SameWork(c, k, st, st');
  }

  /** A step removes at least its weight. */
  lemma StepPotential(c: Config, k: nat, st: State, st': State, step: Step)
    requires k <= 1 && WellFormed(c) && Inv(c, st) && NextStep(c, st, st', step)
    ensures Inv(c, st')
    ensures Potential(c, k, st') <= Potential(c, k, st) - Weight(k, st, step)
  {
    hide WellFormed, Inv, TaskWork, SchedWork, ClientNext, CheckNext, BalanceNext, ExecNext, NotifyNext, RecordNext,
         CheckWeight, RecvSwaps, NotifySwaps, Conserved, Slots;
    StepInv(c, st, st', step);
    if step.ClientStep? && !step.client.RecvPkg? {
      ClientWork(c, k, st, st', step.s, step.client);
    } else if step.CheckStep? {
      ConservedFacts(c, st);
      ConservedFacts(c, st');
      CheckWork(c, k, st, st', step.s, step.check);
    } else {
      SchedWorkSame(c, st, st', step);
      TaskWorkStep(c, k, st, st', step);
    }
  }

  /** When rotations are free no step adds work, and every useful step removes some. */
  lemma StepMeasure(c: Config, st: State, st': State, step: Step)
    requires WellFormed(c) && Inv(c, st) && NextStep(c, st, st', step)
    ensures Inv(c, st')
    ensures Measure(c, st') <= Measure(c, st) && (Useful(st, step) ==> Measure(c, st') < Measure(c, st))
  {
    hide WellFormed, Inv, Potential, NextStep;
    StepPotential(c, 0, st, st', step);
  }
}
