/**
  The inductive invariant of the protocol, one predicate per concern.  Each predicate takes
  the state components it speaks about, so a step that leaves them alone preserves it.
*/
module MatrixInvariant {
  import opened MatrixModel

  type Queues = map<Place, seq<Item>>
  type Notes = map<Task, seq<Edge>>
  type Sites = map<Task, Sched>

  // ---------- Conservation ----------

  function Ids(s: seq<Item>): seq<Task> { seq(|s|, i requires 0 <= i < |s| => s[i].id) }

  /** How often task t occurs at place p. */
  ghost function Cnt(q: Queues, p: Place, t: Task): nat { multiset(Ids(At(q, p)))[t] }

  ghost predicate ValidPlace(c: Config, p: Place) { p.s < c.numSched && (p.Core? ==> p.k < c.cores) }

  ghost predicate Somewhere(q: Queues, t: Task) { exists p :: Cnt(q, p, t) == 1 }

  /** Every task of the DAG is in exactly one place, exactly once. */
  ghost predicate Conserved(c: Config, q: Queues) {
    && (forall p, t: nat :: Cnt(q, p, t) <= 1)
    && (forall p1, p2, t: nat :: Cnt(q, p1, t) > 0 && Cnt(q, p2, t) > 0 ==> p1 == p2)
    && (forall p, t: nat :: Cnt(q, p, t) > 0 ==> t < c.n && ValidPlace(c, p))
    && (forall t: nat :: t < c.n ==> Somewhere(q, t))
  }

  // ---------- Threads and their slots ----------

  ghost predicate CrtBusy(pc: CrtPc) { !pc.CrtIdle? && !pc.CrtAck? }
  ghost predicate CoreBusy(pc: CorePc) { !pc.CoreIdle? && !pc.CoreCounting? }
  ghost function B(b: bool): nat { if b then 1 else 0 }

  ghost predicate Slots(q: Queues, crt: map<Sched, CrtPc>, core: map<Place, CorePc>, cct: map<Sched, CctPc>) {
    && (forall s: nat :: |At(q, Check(s))| == B(CrtBusy(CrtAt(crt, s))))
    && (forall s: nat, k: nat :: |At(q, Core(s, k))| == B(CoreBusy(CoreAt(core, Core(s, k)))))
    && (forall s: nat :: |At(q, Notify(s))| == B(!CctAt(cct, s).CctIdle?))
  }

  // ---------- What a place says about its tasks ----------

  ghost predicate PreRun(core: map<Place, CorePc>, p: Place) {
    match p
    case Core(s, k) => !CoreAt(core, p).CoreRan?
    case Complete(_) => false
    case Notify(_) => false
    case Finished(_) => false
    case _ => true
  }

  /** Places reached only by tasks whose stored indegree was read as 0. */
  ghost predicate Dispatched(crt: map<Sched, CrtPc>, p: Place) {
    match p
    case Client(_) => false
    case Wait(_) => false
    case Check(s) => CrtAt(crt, s).CrtDecided? || (CrtAt(crt, s).CrtLooked? && CrtAt(crt, s).v.indegree == 0)
    case _ => true
  }

  /** Number of children that a task at p has notified. */
  ghost function SentTo(c: Config, cct: map<Sched, CctPc>, p: Place, t: Task): int {
    match p
    case Notify(s) => (match CctAt(cct, s)
                       case CctNext(_, j) => j
                       case CctRead(_, j, _, _) => j
                       case _ => 0)
    case Finished(_) => |Kids(c, t)|
    case _ => 0
  }

  ghost predicate Ready(c: Config, notified: Notes, t: Task) { |NotesAt(notified, t)| == InDeg(c, t) }

  /** The children of t notified so far are the first k. */
  ghost predicate NotifiedUpTo(c: Config, notified: Notes, t: Task, k: int) {
    forall i: nat :: i < |Kids(c, t)| ==> (Edge(t, i) in NotesAt(notified, Kids(c, t)[i]) <==> i < k)
  }

  ghost predicate Placed(c: Config, crt: map<Sched, CrtPc>, core: map<Place, CorePc>, cct: map<Sched, CctPc>,
                         ranAt: Sites, notified: Notes, p: Place, t: Task) {
    && (if PreRun(core, p) then t !in ranAt else t in ranAt && ranAt[t] == p.s)
    && (Dispatched(crt, p) ==> Ready(c, notified, t))
    && NotifiedUpTo(c, notified, t, SentTo(c, cct, p, t))
  }

  ghost predicate Stages(c: Config, q: Queues, crt: map<Sched, CrtPc>, core: map<Place, CorePc>, cct: map<Sched, CctPc>,
                         ranAt: Sites, notified: Notes) {
    forall p, t: nat :: Cnt(q, p, t) > 0 ==> Placed(c, crt, core, cct, ranAt, notified, p, t)
  }

  // ---------- Notifications and records ----------

  ghost predicate NoDup<T(!new)>(s: seq<T>) { forall i, j :: 0 <= i < j < |s| ==> s[i] != s[j] }

  ghost predicate Into(c: Config, e: Edge, t: Task) { e.i < |Kids(c, e.p)| && Kids(c, e.p)[e.i] == t }

  ghost predicate NoteOk(c: Config, notified: Notes, ranAt: Sites, t: Task) {
    && NoDup(NotesAt(notified, t))
    && forall e :: e in NotesAt(notified, t) ==> Into(c, e, t) && e.p < c.n && e.p in ranAt
  }

  ghost predicate NotesOk(c: Config, notified: Notes, ranAt: Sites) {
    forall t: nat :: NoteOk(c, notified, ranAt, t)
  }

  function ParentList(es: seq<Edge>, ranAt: Sites): seq<Sched> {
    seq(|es|, k requires 0 <= k < |es| => SchedAt(ranAt, es[k].p))
  }
  function NameList(es: seq<Edge>, ranAt: Sites): seq<Name> {
    seq(|es|, k requires 0 <= k < |es| => Name(SchedAt(ranAt, es[k].p), es[k].p))
  }
  function SizeList(c: Config, es: seq<Edge>): seq<int> {
    seq(|es|, k requires 0 <= k < |es| => OutSize(c, es[k].p))
  }

  /** The record of task t after the notifications `es`, in this order. */
  ghost function Replay(c: Config, t: Task, es: seq<Edge>, ranAt: Sites): Value {
    Value(InDeg(c, t) - |es|, Kids(c, t), ParentList(es, ranAt), NameList(es, ranAt), SizeList(c, es),
          Sum(SizeList(c, es)), OutSize(c, t))
  }

  ghost predicate Records(c: Config, zht: map<Task, Value>, notified: Notes, ranAt: Sites) {
    forall t: nat :: t < c.n ==> ZhtAt(zht, t) == Replay(c, t, NotesAt(notified, t), ranAt)
  }

  /** v is a value that the record of t had at some earlier time, or has now. */
  ghost predicate Snapshot(c: Config, notified: Notes, ranAt: Sites, t: Task, v: Value) {
    && |v.parents| <= |NotesAt(notified, t)|
    && v == Replay(c, t, NotesAt(notified, t)[..|v.parents|], ranAt)
  }

  ghost predicate NotifierOk(c: Config, notified: Notes, ranAt: Sites, pc: CctPc, x: Item) {
    && x.size == OutSize(c, x.id)
    && (pc.CctNext? ==> pc.kids == Kids(c, x.id) && pc.i <= |pc.kids|)
    && (pc.CctRead? ==>
          && pc.kids == Kids(c, x.id) && pc.i < |pc.kids|
          && Snapshot(c, notified, ranAt, pc.kids[pc.i], pc.seen) && pc.fails <= |pc.seen.parents|)
  }

  ghost predicate Notifiers(c: Config, q: Queues, cct: map<Sched, CctPc>, notified: Notes, ranAt: Sites) {
    forall s: nat :: |At(q, Notify(s))| == 1 ==> NotifierOk(c, notified, ranAt, CctAt(cct, s), At(q, Notify(s))[0])
  }

  ghost predicate CompleteOk(c: Config, q: Queues) {
    forall s: nat, j: nat :: j < |At(q, Complete(s))| ==>
      At(q, Complete(s))[j].size == OutSize(c, At(q, Complete(s))[j].id)
  }

  ghost predicate CheckerOk(c: Config, notified: Notes, ranAt: Sites, pc: CrtPc, x: Item) {
    && (pc.CrtLooked? ==> Snapshot(c, notified, ranAt, x.id, pc.v))
    && (pc.CrtDecided? ==> !pc.to.Lost? && (pc.to.ToPeer? ==> pc.to.target < c.numSched))
  }

  ghost predicate Checkers(c: Config, q: Queues, crt: map<Sched, CrtPc>, notified: Notes, ranAt: Sites) {
    forall s: nat :: |At(q, Check(s))| == 1 ==> CheckerOk(c, notified, ranAt, CrtAt(crt, s), At(q, Check(s))[0])
  }

  // ---------- Data ----------

  /** Outputs of the first i notifying parents, leaving out those of size 0. */
  function Inputs(es: seq<Edge>, sizes: seq<int>, result: map<Task, Piece>, i: nat): seq<Piece> {
    if i == 0 then []
    else Inputs(es, sizes, result, i - 1) +
         (if i <= |es| && i <= |sizes| && sizes[i - 1] > 0 then [PieceAt(result, es[i - 1].p)] else [])
  }

  ghost predicate DataOk(data: map<Name, Piece>, ranAt: Sites, result: map<Task, Piece>) {
    forall nm :: nm in data ==> nm.t in ranAt && ranAt[nm.t] == nm.s && data[nm] == PieceAt(result, nm.t)
  }

  ghost predicate ResultsKnown(ranAt: Sites, result: map<Task, Piece>) { forall t: nat :: t in ranAt <==> t in result }

  ghost predicate OwnResults(c: Config, data: map<Sched, map<Name, Piece>>, ranAt: Sites) {
    forall t: nat :: t in ranAt ==> ranAt[t] < c.numSched && Name(ranAt[t], t) in DataAt(data, ranAt[t])
  }

  ghost predicate AllDataOk(data: map<Sched, map<Name, Piece>>, ranAt: Sites, result: map<Task, Piece>) {
    forall s: nat :: DataOk(DataAt(data, s), ranAt, result)
  }

  ghost predicate Stored(c: Config, data: map<Sched, map<Name, Piece>>, ranAt: Sites, result: map<Task, Piece>) {
    ResultsKnown(ranAt, result) && OwnResults(c, data, ranAt) && AllDataOk(data, ranAt, result)
  }

  ghost predicate InputOk(c: Config, es: seq<Edge>, result: map<Task, Piece>, i: nat, acc: seq<Piece>) {
    acc == Inputs(es, SizeList(c, es), result, i)
  }

  /** What an executing thread knows about its task, notified by `es`. */
  ghost predicate CoreOk(c: Config, es: seq<Edge>, ranAt: Sites, result: map<Task, Piece>, pc: CorePc, t: Task) {
    CoreBusy(pc) && !pc.CorePopped? ==>
      && pc.v == Replay(c, t, es, ranAt)
      && (pc.CoreFetch? ==> pc.i <= |es| && InputOk(c, es, result, pc.i, pc.acc))
      && (pc.CoreNeed? || pc.CoreGot? ==>
            pc.i < |es| && SizeAt(pc.v, pc.i) > 0 && InputOk(c, es, result, pc.i, pc.acc))
      && (pc.CoreGot? ==> pc.piece == PieceAt(result, es[pc.i].p))
  }

  ghost predicate Cores(c: Config, q: Queues, core: map<Place, CorePc>, notified: Notes, ranAt: Sites,
                        result: map<Task, Piece>) {
    forall s: nat, k: nat :: |At(q, Core(s, k))| == 1 ==>
      CoreOk(c, NotesAt(notified, At(q, Core(s, k))[0].id), ranAt, result, CoreAt(core, Core(s, k)),
             At(q, Core(s, k))[0].id)
  }

  ghost predicate InputsOk(c: Config, input: map<Task, seq<Piece>>, notified: Notes, ranAt: Sites,
                           result: map<Task, Piece>) {
    forall t: nat :: t in ranAt ==>
      t in input && InputOk(c, NotesAt(notified, t), result, |NotesAt(notified, t)|, input[t])
  }

  // ---------- Execution history ----------

  ghost predicate ParentsIn(c: Config, t: Task, ts: seq<Task>) {
    forall e: Edge :: e.p < c.n && Into(c, e, t) ==> e.p in ts
  }

  ghost predicate History(c: Config, runs: seq<Task>, ranAt: Sites) {
    && NoDup(runs)
    && (forall t: nat :: t in runs <==> t in ranAt)
    && (forall i :: 0 <= i < |runs| ==> runs[i] < c.n && ParentsIn(c, runs[i], runs[..i]))
  }

  // ---------- Counters ----------

  function RecvPart(c: Config, recv: map<Sched, RecvPc>, s: Sched): int {
    if RecvAt(recv, s).RecvDone? then |Batch(c, s)| else 0
  }
  function RecvParts(c: Config, recv: map<Sched, RecvPc>): seq<int> {
    seq(c.numSched, s requires 0 <= s => RecvPart(c, recv, s))
  }

  ghost predicate Received(c: Config, q: Queues, recv: map<Sched, RecvPc>, recvCtr: int, started: set<Sched>) {
    && recvCtr == Sum(RecvParts(c, recv))
    && (forall s: nat :: |At(q, Client(s))| <= |Batch(c, s)|)
    && (forall s: nat :: !RecvAt(recv, s).RecvIdle? ==> At(q, Client(s)) == [])
    && (started != {} ==> recvCtr == c.n)
    && (forall s: nat :: s in started ==> s < c.numSched)
  }

  /** Finished tasks that scheduler s has added to "num tasks done". */
  function DonePart(rec: map<Sched, RecPc>, fin: map<Sched, int>, prev: map<Sched, int>, s: Sched): int {
    if RecAt(rec, s).RecSwapped? then NumAt(fin, s) else NumAt(prev, s)
  }
  function DoneParts(c: Config, rec: map<Sched, RecPc>, fin: map<Sched, int>, prev: map<Sched, int>): seq<int> {
    seq(c.numSched, s requires 0 <= s => DonePart(rec, fin, prev, s))
  }
  function FinParts(c: Config, fin: map<Sched, int>): seq<int> { seq(c.numSched, s requires 0 <= s => NumAt(fin, s)) }

  ghost predicate FinOk(fin: map<Sched, int>, prev: map<Sched, int>, counted: map<Sched, set<Task>>) {
    forall s: nat :: NumAt(fin, s) == |SetAt(counted, s)| && NumAt(prev, s) <= NumAt(fin, s)
  }

  ghost predicate StopOk(c: Config, rec: map<Sched, RecPc>, doneCtr: int, stopped: set<Sched>) {
    && (stopped != {} ==> doneCtr == c.n)
    && (forall s: nat :: s in stopped ==> s < c.numSched && RecAt(rec, s).RecIdle?)
  }

  ghost predicate Accounted(c: Config, rec: map<Sched, RecPc>, fin: map<Sched, int>, prev: map<Sched, int>,
                            counted: map<Sched, set<Task>>, doneCtr: int, stopped: set<Sched>) {
    && doneCtr == Sum(DoneParts(c, rec, fin, prev))
    && FinOk(fin, prev, counted)
    && StopOk(c, rec, doneCtr, stopped)
  }

  ghost predicate AfterExec(p: Place) { p.Complete? || p.Notify? || p.Finished? }

  ghost predicate SomeCounting(core: map<Place, CorePc>, s: Sched, t: Task) {
    exists k: nat :: CoreAt(core, Core(s, k)) == CoreCounting(t)
  }

  ghost predicate Uncounted(counted: map<Sched, set<Task>>, t: Task) { forall s: nat :: t !in SetAt(counted, s) }

  ghost predicate Uncounting(core: map<Place, CorePc>, t: Task) { forall p :: CoreAt(core, p) != CoreCounting(t) }

  ghost predicate NotCounted(core: map<Place, CorePc>, counted: map<Sched, set<Task>>, t: Task) {
    Uncounted(counted, t) && Uncounting(core, t)
  }

  /** A task past its core is counted or being counted, before that neither. */
  ghost predicate CountStage(core: map<Place, CorePc>, counted: map<Sched, set<Task>>, p: Place, t: Task) {
    if AfterExec(p) then t in SetAt(counted, p.s) || SomeCounting(core, p.s, t) else NotCounted(core, counted, t)
  }

  ghost predicate CountStages(q: Queues, core: map<Place, CorePc>, counted: map<Sched, set<Task>>) {
    forall p, t: nat :: Cnt(q, p, t) > 0 ==> CountStage(core, counted, p, t)
  }

  ghost predicate RanThere(c: Config, ts: set<Task>, ranAt: Sites, s: Sched) {
    forall t: nat :: t in ts ==> t < c.n && t in ranAt && ranAt[t] == s
  }

  ghost predicate CountedOk(c: Config, counted: map<Sched, set<Task>>, ranAt: Sites) {
    forall s: nat :: RanThere(c, SetAt(counted, s), ranAt, s)
  }

  ghost predicate CountingOk(core: map<Place, CorePc>, counted: map<Sched, set<Task>>, ranAt: Sites) {
    && (forall p :: CoreAt(core, p).CoreCounting? ==>
          CoreAt(core, p).t in ranAt && ranAt[CoreAt(core, p).t] == p.s && CoreAt(core, p).t !in SetAt(counted, p.s))
    && (forall p1, p2 :: CoreAt(core, p1).CoreCounting? && CoreAt(core, p2) == CoreAt(core, p1) ==> p1 == p2)
  }

  /** Only existing schedulers and cores have active threads. */
  ghost predicate CoreDomain(c: Config, core: map<Place, CorePc>) {
    forall p :: !CoreAt(core, p).CoreIdle? ==> p.Core? && ValidPlace(c, p)
  }
  ghost predicate CrtDomain(c: Config, crt: map<Sched, CrtPc>) {
    forall s: nat :: !CrtAt(crt, s).CrtIdle? ==> s < c.numSched
  }

  ghost predicate CctDomain(c: Config, cct: map<Sched, CctPc>) {
    forall s: nat :: !CctAt(cct, s).CctIdle? ==> s < c.numSched
  }

  ghost predicate RecDomain(c: Config, rec: map<Sched, RecPc>) {
    forall s: nat :: !RecAt(rec, s).RecIdle? ==> s < c.numSched
  }


  ghost predicate Inv(c: Config, st: State) {
    && Conserved(c, st.q)
    && Slots(st.q, st.crt, st.core, st.cct)
    && Stages(c, st.q, st.crt, st.core, st.cct, st.ranAt, st.notified)
    && NotesOk(c, st.notified, st.ranAt)
    && Records(c, st.zht, st.notified, st.ranAt)
    && Notifiers(c, st.q, st.cct, st.notified, st.ranAt)
    && CompleteOk(c, st.q)
    && Checkers(c, st.q, st.crt, st.notified, st.ranAt)
    && Stored(c, st.data, st.ranAt, st.result)
    && Cores(c, st.q, st.core, st.notified, st.ranAt, st.result)
    && InputsOk(c, st.input, st.notified, st.ranAt, st.result)
    && History(c, st.runs, st.ranAt)
    && Received(c, st.q, st.recv, st.recvCtr, st.started)
    && Accounted(c, st.rec, st.fin, st.prev, st.counted, st.doneCtr, st.stopped)
    && CountStages(st.q, st.core, st.counted)
    && CountedOk(c, st.counted, st.ranAt)
    && CountingOk(st.core, st.counted, st.ranAt)
    && CoreDomain(c, st.core) && CrtDomain(c, st.crt) && CctDomain(c, st.cct) && RecDomain(c, st.rec)
  }
}
