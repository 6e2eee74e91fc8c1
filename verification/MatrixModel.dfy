/**
  The MATRIX scheduling protocol as a transition system.

  N schedulers share the key-value store ZHT.  One step of the system is one mutex-guarded
  section, one ZHT call or one message delivery; the steps of all threads of all schedulers
  interleave freely.  The fields under "history" are written by steps and read by none.
*/
module MatrixModel {

  datatype Option<+T> = None | Some(value: T)

  type Task = nat
  type Sched = nat

  /** A TaskMsg (`size` is its dataLength) or a CmpQueueItem (`size` is its dataSize). */
  datatype Item = Item(id: Task, size: int)

  /** The `i`-th entry of the child list of task `p`. */
  datatype Edge = Edge(p: Task, i: nat)

  /** The key under which scheduler `s` stores the output of task `t`. */
  datatype Name = Name(s: Sched, t: Task)

  /** A piece of task output; `NotFound` is what a failed localData search yields. */
  datatype Piece = Piece(text: string) | NotFound

  /** The ZHT record of a task. */
  datatype Value = Value(indegree: int, children: seq<Task>, parents: seq<Sched>,
                         names: seq<Name>, sizes: seq<int>, allSize: int, outputSize: int)

  /** Everything that can hold a task: queues, messages in flight and thread-local variables. */
  datatype Place =
    | Client(s: Sched)          // batch sent by the client, not yet enqueued by s
    | Wait(s: Sched)            // waitQueue
    | Check(s: Sched)           // tm of the checking_ready_task thread
    | Ws(s: Sched)              // wsQueue
    | Local(s: Sched)           // localQueue
    | Steal(s: Sched)           // tasks on their way to thief s
    | Migr(s: Sched)            // vecMigrated of localQueue_monitor
    | Core(s: Sched, k: nat)    // tm of an executing_task thread
    | Complete(s: Sched)        // completeQueue
    | Notify(s: Sched)          // cqItem of the checking_complete_task thread
    | Finished(s: Sched)        // children notified

  /** Where task_ready_process sends a ready task; `Lost` is a push to the empty host name. */
  datatype Decision = ToWs | ToLocal | ToPeer(target: Sched) | Lost

  datatype RecvPc = RecvIdle | RecvSeen(seen: int) | RecvDone
  datatype CrtPc = CrtIdle | CrtHeld | CrtLooked(v: Value) | CrtDecided(to: Decision, len: int) | CrtAck
  datatype CorePc =
    | CoreIdle
    | CorePopped
    | CoreFetch(v: Value, i: nat, acc: seq<Piece>)
    | CoreNeed(v: Value, i: nat, acc: seq<Piece>)
    | CoreGot(v: Value, i: nat, acc: seq<Piece>, piece: Piece)
    | CoreRan(v: Value)
    | CoreCounting(t: Task)
  datatype CctPc =
    | CctIdle
    | CctHeld
    | CctNext(kids: seq<Task>, i: nat)
    | CctRead(kids: seq<Task>, i: nat, seen: Value, fails: nat)
  datatype RecPc = RecIdle | RecSeen(seen: int) | RecLocked(seen: int) | RecSwapped

  /** `children` is the task DAG, `batch[s]` the tasks the client submits to scheduler s. */
  datatype Config = Config(n: nat, children: seq<seq<Task>>, outputSize: seq<int>,
                           numSched: nat, cores: nat, threshold: int, batch: seq<seq<Task>>)

  datatype State = State(
    q: map<Place, seq<Item>>,
    zht: map<Task, Value>,
    recvCtr: int,                        // "num tasks recv"
    doneCtr: int,                        // "num tasks done"
    started: set<Sched>,
    stopped: set<Sched>,                 // running == false
    recv: map<Sched, RecvPc>,
    crt: map<Sched, CrtPc>,
    core: map<Place, CorePc>,
    cct: map<Sched, CctPc>,
    rec: map<Sched, RecPc>,
    data: map<Sched, map<Name, Piece>>,  // localData
    fin: map<Sched, int>,                // numTaskFin
    prev: map<Sched, int>,               // prevNumTaskFin
    // history
    runs: seq<Task>,                     // executions, in order
    ranAt: map<Task, Sched>,
    result: map<Task, Piece>,
    input: map<Task, seq<Piece>>,        // the data assembled for each execution
    notified: map<Task, seq<Edge>>,      // per child, the edges whose compare_swap succeeded
    counted: map<Sched, set<Task>>)      // executions included in numTaskFin

  // ---------- Total accessors ----------

  function At(q: map<Place, seq<Item>>, p: Place): seq<Item> { if p in q then q[p] else [] }
  function CrtAt(m: map<Sched, CrtPc>, s: Sched): CrtPc { if s in m then m[s] else CrtIdle }
  function CctAt(m: map<Sched, CctPc>, s: Sched): CctPc { if s in m then m[s] else CctIdle }
  function RecAt(m: map<Sched, RecPc>, s: Sched): RecPc { if s in m then m[s] else RecIdle }
  function RecvAt(m: map<Sched, RecvPc>, s: Sched): RecvPc { if s in m then m[s] else RecvIdle }
  function CoreAt(m: map<Place, CorePc>, p: Place): CorePc { if p in m then m[p] else CoreIdle }
  function DataAt(m: map<Sched, map<Name, Piece>>, s: Sched): map<Name, Piece> { if s in m then m[s] else map[] }
  function NumAt(m: map<Sched, int>, s: Sched): int { if s in m then m[s] else 0 }
  function NotesAt(m: map<Task, seq<Edge>>, t: Task): seq<Edge> { if t in m then m[t] else [] }
  function SetAt(m: map<Sched, set<Task>>, s: Sched): set<Task> { if s in m then m[s] else {} }
  function ZhtAt(m: map<Task, Value>, t: Task): Value { if t in m then m[t] else Value(0, [], [], [], [], 0, 0) }
  function PieceAt(m: map<Task, Piece>, t: Task): Piece { if t in m then m[t] else NotFound }
  function SchedAt(m: map<Task, Sched>, t: Task): Sched { if t in m then m[t] else 0 }
  function Find(m: map<Name, Piece>, k: Name): Piece { if k in m then m[k] else NotFound }
  function Kids(c: Config, t: Task): seq<Task> { if t < |c.children| then c.children[t] else [] }
  function OutSize(c: Config, t: Task): int { if t < |c.outputSize| then c.outputSize[t] else 0 }
  function Batch(c: Config, s: Sched): seq<Task> { if s < |c.batch| then c.batch[s] else [] }

  /** std::map::insert: an existing entry wins. */
  function InsertNew(m: map<Name, Piece>, k: Name, v: Piece): map<Name, Piece> {
    if k in m then m else m[k := v]
  }

  // ---------- The DAG ----------

  ghost function EdgesInto(c: Config, t: Task): set<Edge> {
    set p: nat, i: nat | 0 <= p < |c.children| && 0 <= i < |c.children[p]| && c.children[p][i] == t :: Edge(p, i)
  }

  ghost function InDeg(c: Config, t: Task): nat { |EdgesInto(c, t)| }

  /** `order` is a topological order of the task graph. */
  ghost predicate Topological(c: Config, order: seq<int>) {
    && |order| == c.n
    && forall p: nat, i: nat :: p < c.n && i < |Kids(c, p)| && Kids(c, p)[i] < c.n ==> order[p] < order[Kids(c, p)[i]]
  }

  ghost predicate Acyclic(c: Config) { exists order :: Topological(c, order) }

  function Sum(s: seq<int>): int { if |s| == 0 then 0 else Sum(s[..|s| - 1]) + s[|s| - 1] }

  function BatchSizes(c: Config): seq<int> { seq(c.numSched, s requires 0 <= s => |Batch(c, s)|) }

  ghost predicate Submitted(c: Config, t: Task) { exists s: nat :: s < c.numSched && t in Batch(c, s) }

  ghost predicate WellFormed(c: Config) {
    && c.numSched >= 1 && c.cores >= 1 && c.threshold >= 0
    && |c.children| == c.n && |c.outputSize| == c.n && |c.batch| == c.numSched
    && (forall p: nat, i: nat :: p < c.n && i < |Kids(c, p)| ==> Kids(c, p)[i] < c.n)
    && (forall t: nat :: t < c.n ==> OutSize(c, t) >= 0)
    // the client submits every task of the DAG exactly once
    && (forall s: nat, t: nat :: multiset(Batch(c, s))[t] <= 1)
    && (forall s: nat, s': nat, t: nat :: t in Batch(c, s) && t in Batch(c, s') ==> s == s')
    && (forall s: nat, t: nat :: t in Batch(c, s) ==> t < c.n)
    && (forall t: nat :: t < c.n ==> Submitted(c, t))
    && Sum(BatchSizes(c)) == c.n
  }

  // ---------- Local computations ----------

  /** The record after notify_children adds one finished parent. */
  function NotifyChild(v: Value, s: Sched, name: Name, size: int): Value {
    v.(indegree := v.indegree - 1, parents := v.parents + [s], names := v.names + [name],
       sizes := v.sizes + [size], allSize := v.allSize + size)
  }

  const NO_SIZE := -1000000

  /** Index picked by the loop of task_ready_process: the first strict maximum above NO_SIZE. */
  function FirstMax(sizes: seq<int>): (r: Option<nat>)
    ensures r.Some? ==> r.value < |sizes|
  {
    if |sizes| == 0 then None
    else
      var r := FirstMax(sizes[..|sizes| - 1]);
      if sizes[|sizes| - 1] > (if r.None? then NO_SIZE else sizes[r.value]) then Some(|sizes| - 1) else r
  }

  function NameAt(v: Value, i: nat): Name { if i < |v.names| then v.names[i] else Name(0, 0) }
  function ParentAt(v: Value, i: nat): Sched { if i < |v.parents| then v.parents[i] else 0 }
  function SizeAt(v: Value, i: nat): int { if i < |v.sizes| then v.sizes[i] else 0 }

  function Decide(c: Config, s: Sched, v: Value, localData: map<Name, Piece>): CrtPc {
    if v.allSize <= c.threshold then CrtDecided(ToWs, v.allSize)
    else
      var m := FirstMax(v.sizes);
      if m.None? then CrtDecided(Lost, NO_SIZE)
      else if ParentAt(v, m.value) == s || NameAt(v, m.value) in localData then CrtDecided(ToLocal, SizeAt(v, m.value))
      else CrtDecided(ToPeer(ParentAt(v, m.value)), SizeAt(v, m.value))
  }

  /** `taken` can be the successive tops of priority queue `a`, leaving `rest`: smallest size first. */
  ghost predicate PoppedTops(a: seq<Item>, taken: seq<Item>, rest: seq<Item>) {
    && multiset(a) == multiset(taken) + multiset(rest)
    && (forall i, j :: 0 <= i < j < |taken| ==> taken[i].size <= taken[j].size)
    && (forall i, j :: 0 <= i < |taken| && 0 <= j < |rest| ==> taken[i].size <= rest[j].size)
  }

  // ---------- Steps ----------

  datatype ClientAct = RecvPkg(k: nat) | RecvLookup | RecvCas | Start
  datatype CheckAct = WaitPop | CrtLookup | CrtReturn | CrtDecide | CrtEnqueue | PushRecv | CrtDone
  datatype BalanceAct =
    | StealSend(victim: Sched, taken: seq<Item>, rest: seq<Item>)
    | StealRecv(k: nat)
    | MigrateOut(taken: seq<Item>, rest: seq<Item>)
    | MigrateIn
  datatype ExecAct =
    | ExecStart(from: Place, x: Item, rest: seq<Item>)
    | ExecLookup | ExecFetch | ExecRemote | ExecCache
    | ExecRun(out: Piece)
    | ExecComplete | ExecCount
  datatype NotifyAct = NotifyPop | NotifyLookup | NotifyRead | NotifyCas | NotifyEnd
  datatype RecordAct = RecLookup | RecLock | RecCas | RecUnlock

  /** A step of scheduler s, by thread. */
  datatype Step =
    | ClientStep(s: Sched, client: ClientAct)          // server thread receiving the client's batch
    | CheckStep(s: Sched, check: CheckAct)             // checking_ready_task
    | BalanceStep(s: Sched, balance: BalanceAct)       // workstealing, localQueue_monitor
    | ExecStep(s: Sched, k: nat, exec: ExecAct)        // executing_task on core k
    | NotifyStep(s: Sched, notify: NotifyAct)          // checking_complete_task
    | RecordStep(s: Sched, record: RecordAct)          // recording_stat

  function Move(q: map<Place, seq<Item>>, src: Place, a: seq<Item>, dst: Place, b: seq<Item>): map<Place, seq<Item>> {
    q[src := a][dst := b]
  }

  // recv_task_from_client: enqueue one package
  ghost predicate DoRecvPkg(c: Config, st: State, st': State, s: Sched, k: nat) {
    var b := At(st.q, Client(s));
    && 1 <= k <= |b|
    && st' == st.(q := Move(st.q, Client(s), b[k..], Wait(s), At(st.q, Wait(s)) + b[..k]))
  }

  // recv_task_from_client: read, then compare_swap "num tasks recv"
  ghost predicate DoRecvLookup(c: Config, st: State, st': State, s: Sched) {
    && At(st.q, Client(s)) == [] && |Batch(c, s)| > 0 && RecvAt(st.recv, s).RecvIdle?
    && st' == st.(recv := st.recv[s := RecvSeen(st.recvCtr)])
  }

  ghost predicate DoRecvCas(c: Config, st: State, st': State, s: Sched) {
    && RecvAt(st.recv, s).RecvSeen?
    && var ok := st.recvCtr == RecvAt(st.recv, s).seen;
    st' == st.(recvCtr := if ok then RecvAt(st.recv, s).seen + |Batch(c, s)| else st.recvCtr,
               recv := st.recv[s := if ok then RecvDone else RecvSeen(st.recvCtr)])
  }

  // wait_all_task_recv
  ghost predicate DoStart(c: Config, st: State, st': State, s: Sched) {
    && s !in st.started && st.recvCtr == c.n
    && st' == st.(started := st.started + {s})
  }

  // checking_ready_task, check_a_ready_task, task_ready_process
  ghost predicate DoWaitPop(c: Config, st: State, st': State, s: Sched) {
    var w := At(st.q, Wait(s));
    && s in st.started && CrtAt(st.crt, s).CrtIdle? && |w| > 0
    && st' == st.(q := Move(st.q, Wait(s), w[1..], Check(s), [w[0]]), crt := st.crt[s := CrtHeld])
  }

  ghost predicate DoCrtLookup(c: Config, st: State, st': State, s: Sched) {
    && CrtAt(st.crt, s).CrtHeld? && |At(st.q, Check(s))| == 1
    && st' == st.(crt := st.crt[s := CrtLooked(ZhtAt(st.zht, At(st.q, Check(s))[0].id))])
  }

  ghost predicate DoCrtReturn(c: Config, st: State, st': State, s: Sched) {
    && CrtAt(st.crt, s).CrtLooked? && CrtAt(st.crt, s).v.indegree != 0 && |At(st.q, Check(s))| == 1
    && st' == st.(q := Move(st.q, Check(s), [], Wait(s), At(st.q, Wait(s)) + [At(st.q, Check(s))[0]]),
                  crt := st.crt[s := CrtIdle])
  }

  ghost predicate DoCrtDecide(c: Config, st: State, st': State, s: Sched) {
    && CrtAt(st.crt, s).CrtLooked? && CrtAt(st.crt, s).v.indegree == 0
    && st' == st.(crt := st.crt[s := Decide(c, s, CrtAt(st.crt, s).v, DataAt(st.data, s))])
  }

  ghost predicate DoCrtEnqueue(c: Config, st: State, st': State, s: Sched) {
    && CrtAt(st.crt, s).CrtDecided? && CrtAt(st.crt, s).to in {ToWs, ToLocal} && |At(st.q, Check(s))| == 1
    && var dst := if CrtAt(st.crt, s).to == ToWs then Ws(s) else Local(s);
    st' == st.(q := Move(st.q, Check(s), [], dst,
                         At(st.q, dst) + [Item(At(st.q, Check(s))[0].id, CrtAt(st.crt, s).len)]),
               crt := st.crt[s := CrtIdle])
  }

  // recv_pushing_task at the target, and the sender's wait for the acknowledgement
  ghost predicate DoPushRecv(c: Config, st: State, st': State, s: Sched) {
    && CrtAt(st.crt, s).CrtDecided? && CrtAt(st.crt, s).to.ToPeer? && |At(st.q, Check(s))| == 1
    && var dst := Local(CrtAt(st.crt, s).to.target);
    st' == st.(q := Move(st.q, Check(s), [], dst,
                         At(st.q, dst) + [Item(At(st.q, Check(s))[0].id, CrtAt(st.crt, s).len)]),
               crt := st.crt[s := CrtAck])
  }

  ghost predicate DoCrtDone(c: Config, st: State, st': State, s: Sched) {
    && CrtAt(st.crt, s).CrtAck?
    && st' == st.(crt := st.crt[s := CrtIdle])
  }

  // send_task at the victim, recv_task_from_scheduler at the thief
  ghost predicate DoStealSend(c: Config, st: State, st': State, victim: Sched, thief: Sched, taken: seq<Item>,
                              rest: seq<Item>) {
    && victim < c.numSched && victim != thief && thief in st.started && At(st.q, Steal(thief)) == []
    && PoppedTops(At(st.q, Ws(victim)), taken, rest) && |taken| == |At(st.q, Ws(victim))| / 2
    && st' == st.(q := Move(st.q, Ws(victim), rest, Steal(thief), taken))
  }

  ghost predicate DoStealRecv(c: Config, st: State, st': State, s: Sched, k: nat) {
    var b := At(st.q, Steal(s));
    && 1 <= k <= |b|
    && st' == st.(q := Move(st.q, Steal(s), b[k..], Ws(s), At(st.q, Ws(s)) + b[..k]))
  }

  // localQueue_monitor: the |taken| smallest stay, the others migrate
  ghost predicate DoMigrateOut(c: Config, st: State, st': State, s: Sched, taken: seq<Item>, rest: seq<Item>) {
    && s in st.started && At(st.q, Migr(s)) == []
    && |taken| >= 1 && |At(st.q, Local(s))| > |taken| && PoppedTops(At(st.q, Local(s)), taken, rest)
    && st' == st.(q := Move(st.q, Local(s), taken, Migr(s), rest))
  }

  ghost predicate DoMigrateIn(c: Config, st: State, st': State, s: Sched) {
    && At(st.q, Migr(s)) != []
    && st' == st.(q := Move(st.q, Migr(s), [], Ws(s), At(st.q, Ws(s)) + At(st.q, Migr(s))))
  }

  // executing_task, exec_a_task
  ghost predicate DoExecStart(c: Config, st: State, st': State, s: Sched, k: nat, from: Place, x: Item,
                              rest: seq<Item>) {
    && k < c.cores && s in st.started && CoreAt(st.core, Core(s, k)).CoreIdle? && from in {Local(s), Ws(s)}
    && PoppedTops(At(st.q, from), [x], rest)
    && st' == st.(q := Move(st.q, from, rest, Core(s, k), [x]), core := st.core[Core(s, k) := CorePopped])
  }

  ghost predicate DoExecLookup(c: Config, st: State, st': State, s: Sched, k: nat) {
    && CoreAt(st.core, Core(s, k)).CorePopped? && |At(st.q, Core(s, k))| == 1
    && st' == st.(core := st.core[Core(s, k) := CoreFetch(ZhtAt(st.zht, At(st.q, Core(s, k))[0].id), 0, [])])
  }

  ghost predicate DoExecFetch(c: Config, st: State, st': State, s: Sched, k: nat) {
    var pc := CoreAt(st.core, Core(s, k));
    && pc.CoreFetch? && pc.i < |pc.v.parents|
    && st' == st.(core := st.core[Core(s, k) :=
                      if SizeAt(pc.v, pc.i) <= 0 then CoreFetch(pc.v, pc.i + 1, pc.acc)
                      else if ParentAt(pc.v, pc.i) == s || NameAt(pc.v, pc.i) in DataAt(st.data, s)
                      then CoreFetch(pc.v, pc.i + 1, pc.acc + [Find(DataAt(st.data, s), NameAt(pc.v, pc.i))])
                      else CoreNeed(pc.v, pc.i, pc.acc)])
  }

  // "scheduler require data", served by the scheduler that ran the parent
  ghost predicate DoExecRemote(c: Config, st: State, st': State, s: Sched, k: nat) {
    var pc := CoreAt(st.core, Core(s, k));
    && pc.CoreNeed?
    && st' == st.(core := st.core[Core(s, k) :=
                      CoreGot(pc.v, pc.i, pc.acc, Find(DataAt(st.data, ParentAt(pc.v, pc.i)), NameAt(pc.v, pc.i)))])
  }

  ghost predicate DoExecCache(c: Config, st: State, st': State, s: Sched, k: nat) {
    var pc := CoreAt(st.core, Core(s, k));
    && pc.CoreGot?
    && st' == st.(core := st.core[Core(s, k) := CoreFetch(pc.v, pc.i + 1, pc.acc + [pc.piece])],
                  data := st.data[s := InsertNew(DataAt(st.data, s), NameAt(pc.v, pc.i), pc.piece)])
  }

  ghost predicate DoExecRun(c: Config, st: State, st': State, s: Sched, k: nat, out: Piece) {
    var pc := CoreAt(st.core, Core(s, k));
    && pc.CoreFetch? && pc.i >= |pc.v.parents| && |At(st.q, Core(s, k))| == 1
    && var t := At(st.q, Core(s, k))[0].id;
    st' == st.(core := st.core[Core(s, k) := CoreRan(pc.v)],
               data := st.data[s := InsertNew(DataAt(st.data, s), Name(s, t), out)],
               runs := st.runs + [t], ranAt := st.ranAt[t := s],
               result := st.result[t := out], input := st.input[t := pc.acc])
  }

  ghost predicate DoExecComplete(c: Config, st: State, st': State, s: Sched, k: nat) {
    var pc := CoreAt(st.core, Core(s, k));
    && pc.CoreRan? && |At(st.q, Core(s, k))| == 1
    && var t := At(st.q, Core(s, k))[0].id;
    st' == st.(q := Move(st.q, Core(s, k), [], Complete(s), At(st.q, Complete(s)) + [Item(t, pc.v.outputSize)]),
               core := st.core[Core(s, k) := CoreCounting(t)])
  }

  // numTaskFin++, excluded while recording_stat holds numTaskFinMutex
  ghost predicate DoExecCount(c: Config, st: State, st': State, s: Sched, k: nat) {
    var pc := CoreAt(st.core, Core(s, k));
    && pc.CoreCounting? && !RecAt(st.rec, s).RecLocked? && !RecAt(st.rec, s).RecSwapped?
    && st' == st.(core := st.core[Core(s, k) := CoreIdle], fin := st.fin[s := NumAt(st.fin, s) + 1],
                  counted := st.counted[s := SetAt(st.counted, s) + {pc.t}])
  }

  // checking_complete_task, notify_children
  ghost predicate DoNotifyPop(c: Config, st: State, st': State, s: Sched) {
    var w := At(st.q, Complete(s));
    && s in st.started && CctAt(st.cct, s).CctIdle? && |w| > 0
    && st' == st.(q := Move(st.q, Complete(s), w[1..], Notify(s), [w[0]]), cct := st.cct[s := CctHeld])
  }

  ghost predicate DoNotifyLookup(c: Config, st: State, st': State, s: Sched) {
    && CctAt(st.cct, s).CctHeld? && |At(st.q, Notify(s))| == 1
    && st' == st.(cct := st.cct[s := CctNext(ZhtAt(st.zht, At(st.q, Notify(s))[0].id).children, 0)])
  }

  ghost predicate DoNotifyRead(c: Config, st: State, st': State, s: Sched) {
    var pc := CctAt(st.cct, s);
    && pc.CctNext? && pc.i < |pc.kids|
    && st' == st.(cct := st.cct[s := CctRead(pc.kids, pc.i, ZhtAt(st.zht, pc.kids[pc.i]), 0)])
  }

  ghost predicate DoNotifyCas(c: Config, st: State, st': State, s: Sched) {
    var pc := CctAt(st.cct, s);
    && pc.CctRead? && pc.i < |pc.kids| && |At(st.q, Notify(s))| == 1
    && var x := At(st.q, Notify(s))[0];
    var kid := pc.kids[pc.i];
    var ok := ZhtAt(st.zht, kid) == pc.seen;
    st' == st.(zht := if ok then st.zht[kid := NotifyChild(pc.seen, s, Name(s, x.id), x.size)] else st.zht,
               cct := st.cct[s := if ok then CctNext(pc.kids, pc.i + 1)
                                  else CctRead(pc.kids, pc.i, ZhtAt(st.zht, kid), pc.fails + 1)],
               notified := if ok then st.notified[kid := NotesAt(st.notified, kid) + [Edge(x.id, pc.i)]]
                 else st.notified)
  }

  ghost predicate DoNotifyEnd(c: Config, st: State, st': State, s: Sched) {
    var pc := CctAt(st.cct, s);
    && pc.CctNext? && pc.i >= |pc.kids| && |At(st.q, Notify(s))| == 1
    && st' == st.(q := Move(st.q, Notify(s), [], Finished(s), At(st.q, Finished(s)) + At(st.q, Notify(s))),
                  cct := st.cct[s := CctIdle])
  }

  // recording_stat
  ghost predicate DoRecLookup(c: Config, st: State, st': State, s: Sched) {
    && s in st.started && s !in st.stopped && RecAt(st.rec, s).RecIdle?
    && st' == st.(stopped := if st.doneCtr == c.n then st.stopped + {s} else st.stopped,
                  rec := if st.doneCtr == c.n then st.rec else st.rec[s := RecSeen(st.doneCtr)])
  }

  ghost predicate DoRecLock(c: Config, st: State, st': State, s: Sched) {
    && RecAt(st.rec, s).RecSeen?
    && st' == st.(rec := st.rec[s := RecLocked(RecAt(st.rec, s).seen)])
  }

  ghost predicate DoRecCas(c: Config, st: State, st': State, s: Sched) {
    var pc := RecAt(st.rec, s);
    && pc.RecLocked?
    && var ok := st.doneCtr == pc.seen;
    st' == st.(doneCtr := if ok then pc.seen + (NumAt(st.fin, s) - NumAt(st.prev, s)) else st.doneCtr,
               // the second disjunct is the early break
               rec := st.rec[s := if ok || st.doneCtr == c.n then RecSwapped else RecLocked(st.doneCtr)])
  }

  ghost predicate DoRecUnlock(c: Config, st: State, st': State, s: Sched) {
    && RecAt(st.rec, s).RecSwapped?
    && st' == st.(prev := st.prev[s := NumAt(st.fin, s)], rec := st.rec[s := RecIdle])
  }

  ghost predicate ClientNext(c: Config, st: State, st': State, s: Sched, a: ClientAct) {
    match a
    case RecvPkg(k) => DoRecvPkg(c, st, st', s, k)
    case RecvLookup => DoRecvLookup(c, st, st', s)
    case RecvCas => DoRecvCas(c, st, st', s)
    case Start => DoStart(c, st, st', s)
  }

  ghost predicate CheckNext(c: Config, st: State, st': State, s: Sched, a: CheckAct) {
    match a
    case WaitPop => DoWaitPop(c, st, st', s)
    case CrtLookup => DoCrtLookup(c, st, st', s)
    case CrtReturn => DoCrtReturn(c, st, st', s)
    case CrtDecide => DoCrtDecide(c, st, st', s)
    case CrtEnqueue => DoCrtEnqueue(c, st, st', s)
    case PushRecv => DoPushRecv(c, st, st', s)
    case CrtDone => DoCrtDone(c, st, st', s)
  }

  ghost predicate BalanceNext(c: Config, st: State, st': State, s: Sched, a: BalanceAct) {
    match a
    case StealSend(v, taken, rest) => DoStealSend(c, st, st', v, s, taken, rest)
    case StealRecv(k) => DoStealRecv(c, st, st', s, k)
    case MigrateOut(taken, rest) => DoMigrateOut(c, st, st', s, taken, rest)
    case MigrateIn => DoMigrateIn(c, st, st', s)
  }

  ghost predicate ExecNext(c: Config, st: State, st': State, s: Sched, k: nat, a: ExecAct) {
    match a
    case ExecStart(from, x, rest) => DoExecStart(c, st, st', s, k, from, x, rest)
    case ExecLookup => DoExecLookup(c, st, st', s, k)
    case ExecFetch => DoExecFetch(c, st, st', s, k)
    case ExecRemote => DoExecRemote(c, st, st', s, k)
    case ExecCache => DoExecCache(c, st, st', s, k)
    case ExecRun(out) => DoExecRun(c, st, st', s, k, out)
    case ExecComplete => DoExecComplete(c, st, st', s, k)
    case ExecCount => DoExecCount(c, st, st', s, k)
  }

  ghost predicate NotifyNext(c: Config, st: State, st': State, s: Sched, a: NotifyAct) {
    match a
    case NotifyPop => DoNotifyPop(c, st, st', s)
    case NotifyLookup => DoNotifyLookup(c, st, st', s)
    case NotifyRead => DoNotifyRead(c, st, st', s)
    case NotifyCas => DoNotifyCas(c, st, st', s)
    case NotifyEnd => DoNotifyEnd(c, st, st', s)
  }

  ghost predicate RecordNext(c: Config, st: State, st': State, s: Sched, a: RecordAct) {
    match a
    case RecLookup => DoRecLookup(c, st, st', s)
    case RecLock => DoRecLock(c, st, st', s)
    case RecCas => DoRecCas(c, st, st', s)
    case RecUnlock => DoRecUnlock(c, st, st', s)
  }

  ghost predicate NextStep(c: Config, st: State, st': State, step: Step) {
    && step.s < c.numSched
    && match step
       case ClientStep(s, a) => ClientNext(c, st, st', s, a)
       case CheckStep(s, a) => CheckNext(c, st, st', s, a)
       case BalanceStep(s, a) => BalanceNext(c, st, st', s, a)
       case ExecStep(s, k, a) => ExecNext(c, st, st', s, k, a)
       case NotifyStep(s, a) => NotifyNext(c, st, st', s, a)
       case RecordStep(s, a) => RecordNext(c, st, st', s, a)
  }

  // ---------- Initial state and runs ----------

  function Items(ts: seq<Task>): seq<Item> { seq(|ts|, i requires 0 <= i < |ts| => Item(ts[i], 0)) }

  /** State once the client has written every task record and sent its batches. */
  ghost predicate Init(c: Config, st: State) {
    && (forall p :: At(st.q, p) == if p.Client? && p.s < c.numSched then Items(Batch(c, p.s)) else [])
    && (forall t: nat :: t < c.n ==> ZhtAt(st.zht, t) == Value(InDeg(c, t), Kids(c, t), [], [], [], 0, OutSize(c, t)))
    && st.recvCtr == 0 && st.doneCtr == 0 && st.started == {} && st.stopped == {}
    && st.recv == map[] && st.crt == map[] && st.core == map[] && st.cct == map[] && st.rec == map[]
    && st.data == map[] && st.fin == map[] && st.prev == map[]
    && st.runs == [] && st.ranAt == map[] && st.result == map[] && st.input == map[]
    && st.notified == map[] && st.counted == map[]
  }

  /** `steps` lead from `states[0]` through `states[1]`, ... to the last state. */
  ghost predicate IsRun(c: Config, states: seq<State>, steps: seq<Step>) {
    && |states| == |steps| + 1
    && forall i :: 0 <= i < |steps| ==> NextStep(c, states[i], states[i + 1], steps[i])
  }

  ghost predicate CanReach(c: Config, st: State, st': State) {
    exists states, steps :: IsRun(c, states, steps) && states[0] == st && states[|steps|] == st'
  }

  ghost predicate Reachable(c: Config, st: State) {
    exists st0 :: Init(c, st0) && CanReach(c, st0, st)
  }
}
