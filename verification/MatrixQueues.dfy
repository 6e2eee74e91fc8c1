/**
  What the queues hold: each waiting task as it was submitted, each ready task with the length of its
  data, and in a local queue only tasks whose largest piece of data is there.
*/
module MatrixQueues {
  import opened MatrixModel
  import opened MatrixInvariant
  import opened MatrixBasics
  import opened MatrixDispatch
  import opened MatrixExec
  import opened MatrixRecord
  import opened MatrixTheorems

  // ---------- Lengths and places ----------

  predicate IsMax(sizes: seq<int>, n: int) { n in sizes && forall i :: 0 <= i < |sizes| ==> sizes[i] <= n }

  predicate Heavy(c: Config, v: Value) { v.allSize > c.threshold }

  /** The length of a task's data: all of them if they are few, else the largest piece. */
  predicate HasLength(c: Config, v: Value, n: int) { if Heavy(c, v) then IsMax(v.sizes, n) else n == v.allSize }

  /** A largest piece of the task's data is in the localData of s. */
  ghost predicate Held(data: map<Sched, map<Name, Piece>>, s: Sched, v: Value) {
    exists k: nat :: k < |v.sizes| && k < |v.names| && IsMax(v.sizes, v.sizes[k]) && v.names[k] in DataAt(data, s)
  }

  /** `mig` tells whether tasks have ever been migrated. */
  ghost predicate ItemOk(c: Config, zht: map<Task, Value>, data: map<Sched, map<Name, Piece>>, mig: bool,
                         p: Place, x: Item) {
    var v := ZhtAt(zht, x.id);
    match p
    case Client(_) => x.size == 0
    case Wait(_) => x.size == 0
    case Check(_) => x.size == 0
    case Ws(_) => HasLength(c, v, x.size) && (Heavy(c, v) ==> mig)
    case Steal(_) => HasLength(c, v, x.size) && (Heavy(c, v) ==> mig)
    case Local(s) => HasLength(c, v, x.size) && Heavy(c, v) && Held(data, s, v)
    case Migr(s) => HasLength(c, v, x.size) && Heavy(c, v) && mig
    case Core(s, _) => HasLength(c, v, x.size) && (Heavy(c, v) ==> mig || Held(data, s, v))
    case _ => true
  }

  ghost predicate DecisionOk(c: Config, zht: map<Task, Value>, data: map<Sched, map<Name, Piece>>, s: Sched, pc: CrtPc,
                             x: Item) {
    var v := ZhtAt(zht, x.id);
    pc.CrtDecided? ==>
      && HasLength(c, v, pc.len)
      && match pc.to
         case ToWs => !Heavy(c, v)
         case ToLocal => Heavy(c, v) && Held(data, s, v)
         case ToPeer(peer) => Heavy(c, v) && Held(data, peer, v) && peer != s
         case Lost => false
  }

  ghost predicate ItemsOk(c: Config, q: Queues, zht: map<Task, Value>, data: map<Sched, map<Name, Piece>>, mig: bool) {
    forall p, x :: x in At(q, p) ==> ItemOk(c, zht, data, mig, p, x)
  }

  ghost predicate DecisionsOk(c: Config, q: Queues, crt: map<Sched, CrtPc>, zht: map<Task, Value>,
                              data: map<Sched, map<Name, Piece>>) {
    forall s: nat, x :: x in At(q, Check(s)) ==> DecisionOk(c, zht, data, s, CrtAt(crt, s), x)
  }

  ghost predicate Lengths(c: Config, st: State, mig: bool) {
    ItemsOk(c, st.q, st.zht, st.data, mig) && DecisionsOk(c, st.q, st.crt, st.zht, st.data)
  }

  // ---------- Moves ----------

  lemma MoveOk(c: Config, zht: map<Task, Value>, data: map<Sched, map<Name, Piece>>, mig: bool, q: Queues,
               src: Place, a: seq<Item>, dst: Place, b: seq<Item>)
    requires ItemsOk(c, q, zht, data, mig) && src != dst
    requires forall x :: x in a ==> x in At(q, src)
    requires forall x :: x in b ==> x in At(q, dst) || ItemOk(c, zht, data, mig, dst, x)
    ensures ItemsOk(c, Move(q, src, a, dst, b), zht, data, mig)
  {
    hide ItemOk;
    var q' := Move(q, src, a, dst, b);
    forall p, x | x in At(q', p)
      ensures ItemOk(c, zht, data, mig, p, x)
    {
      assert p != src && p != dst ==> At(q', p) == At(q, p);
    }
  }

  lemma NoMigration(c: Config, q: Queues, zht: map<Task, Value>, data: map<Sched, map<Name, Piece>>)
    requires ItemsOk(c, q, zht, data, false)
    ensures ItemsOk(c, q, zht, data, true)
  {
    forall p, x | x in At(q, p)
      ensures ItemOk(c, zht, data, true, p, x)
    {
      assert ItemOk(c, zht, data, false, p, x);
    }
  }

  lemma PoppedMembers(a: seq<Item>, taken: seq<Item>, rest: seq<Item>)
    requires PoppedTops(a, taken, rest)
    ensures forall x :: x in taken || x in rest ==> x in a
  {
    forall x | x in taken || x in rest
      ensures x in a
    {
      assert x in multiset(taken) + multiset(rest);
      assert x in multiset(a);
    }
  }

  /** The decisions of other schedulers do not change. */
  lemma DecisionsElsewhere(c: Config, q: Queues, q': Queues, crt: map<Sched, CrtPc>, crt': map<Sched, CrtPc>,
                           zht: map<Task, Value>, data: map<Sched, map<Name, Piece>>, s: Sched)
    requires DecisionsOk(c, q, crt, zht, data) && OnlyCrt(crt, crt', s)
    requires forall s1: nat :: s1 != s ==> At(q', Check(s1)) == At(q, Check(s1))
    requires forall x :: x in At(q', Check(s)) ==> DecisionOk(c, zht, data, s, CrtAt(crt', s), x)
    ensures DecisionsOk(c, q', crt', zht, data)
  {
    hide DecisionOk;
    forall s1: nat, x | x in At(q', Check(s1))
      ensures DecisionOk(c, zht, data, s1, CrtAt(crt', s1), x)
    {
      assert s1 != s ==> x in At(q, Check(s1));
    }
  }

  lemma NotChecked(c: Config, q: Queues, q': Queues, crt: map<Sched, CrtPc>, zht: map<Task, Value>,
                   data: map<Sched, map<Name, Piece>>)
    requires DecisionsOk(c, q, crt, zht, data) && forall s: nat :: At(q', Check(s)) == At(q, Check(s))
    ensures DecisionsOk(c, q', crt, zht, data)
  {
    hide DecisionOk;
  }

  // ---------- Receiving and checking ----------

  lemma ClientLengths(c: Config, st: State, st': State, s: Sched, a: ClientAct, mig: bool)
    requires Lengths(c, st, mig) && ClientNext(c, st, st', s, a)
    ensures Lengths(c, st', mig)
  {
    hide ItemsOk, DecisionsOk;
    if a.RecvPkg? {
      var b, w := At(st.q, Client(s)), At(st.q, Wait(s));
      PkgItems(c, st, s, a.k, mig);
      MoveOk(c, st.zht, st.data, mig, st.q, Client(s), b[a.k..], Wait(s), w + b[..a.k]);
      NotChecked(c, st.q, st'.q, st.crt, st.zht, st.data);
    }
  }

  lemma PkgItems(c: Config, st: State, s: Sched, k: nat, mig: bool)
    requires ItemsOk(c, st.q, st.zht, st.data, mig) && k <= |At(st.q, Client(s))|
    ensures forall x :: x in At(st.q, Client(s)) ==> ItemOk(c, st.zht, st.data, mig, Wait(s), x)
  {
    forall x | x in At(st.q, Client(s))
      ensures ItemOk(c, st.zht, st.data, mig, Wait(s), x)
    {
      assert ItemOk(c, st.zht, st.data, mig, Client(s), x);
    }
  }

  lemma WaitPopLengths(c: Config, st: State, st': State, s: Sched, mig: bool)
    requires Lengths(c, st, mig) && DoWaitPop(c, st, st', s)
    ensures Lengths(c, st', mig)
  {
    hide ItemsOk, DecisionsOk;
    var w := At(st.q, Wait(s));
    assert ItemOk(c, st.zht, st.data, mig, Check(s), w[0]) by { WaitItem(c, st, s, mig); }
    MoveOk(c, st.zht, st.data, mig, st.q, Wait(s), w[1..], Check(s), [w[0]]);
    DecisionsElsewhere(c, st.q, st'.q, st.crt, st'.crt, st.zht, st.data, s);
  }

  lemma WaitItem(c: Config, st: State, s: Sched, mig: bool)
    requires ItemsOk(c, st.q, st.zht, st.data, mig) && At(st.q, Wait(s)) != []
    ensures ItemOk(c, st.zht, st.data, mig, Check(s), At(st.q, Wait(s))[0])
  {
    assert ItemOk(c, st.zht, st.data, mig, Wait(s), At(st.q, Wait(s))[0]);
  }

  lemma CrtReturnLengths(c: Config, st: State, st': State, s: Sched, mig: bool)
    requires Lengths(c, st, mig) && DoCrtReturn(c, st, st', s)
    ensures Lengths(c, st', mig)
  {
    hide ItemsOk, DecisionsOk;
    var x := At(st.q, Check(s))[0];
    assert ItemOk(c, st.zht, st.data, mig, Wait(s), x) by { CheckItem(c, st, s, mig); }
    MoveOk(c, st.zht, st.data, mig, st.q, Check(s), [], Wait(s), At(st.q, Wait(s)) + [x]);
    DecisionsElsewhere(c, st.q, st'.q, st.crt, st'.crt, st.zht, st.data, s);
  }

  lemma CheckItem(c: Config, st: State, s: Sched, mig: bool)
    requires ItemsOk(c, st.q, st.zht, st.data, mig) && At(st.q, Check(s)) != []
    ensures ItemOk(c, st.zht, st.data, mig, Wait(s), At(st.q, Check(s))[0])
  {
    assert ItemOk(c, st.zht, st.data, mig, Check(s), At(st.q, Check(s))[0]);
  }

  /** The decision about a ready task, stated without the loop that takes it. */
  lemma Decided(c: Config, st: State, s: Sched)
    requires WellFormed(c) && Inv(c, st) && CrtAt(st.crt, s).CrtLooked? && CrtAt(st.crt, s).v.indegree == 0
    ensures |At(st.q, Check(s))| == 1
    ensures DecisionOk(c, st.zht, st.data, s, Decide(c, s, CrtAt(st.crt, s).v, DataAt(st.data, s)),
                       At(st.q, Check(s))[0])
  {
    hide WellFormed, Inv, NoteOk, Stored, Replay, Decide, HasLength, Held;
    WfChildren(c);
    var v := CrtAt(st.crt, s).v;
    var t := LookedFacts(c, st, s);
    LookedRecord(c, st, s, t);
    if Heavy(c, v) {
      HeavyDecision(c, st, s, t, v);
    } else {
      LightDecision(c, s, v, DataAt(st.data, s));
    }
  }

  lemma LookedRecord(c: Config, st: State, s: Sched, t: Task)
    requires Inv(c, st) && |At(st.q, Check(s))| == 1 && t == At(st.q, Check(s))[0].id
    ensures t < c.n && ZhtAt(st.zht, t) == Replay(c, t, NotesAt(st.notified, t), st.ranAt)
  {
    hide Slots, Stages, NotesOk, Notifiers, CompleteOk, Checkers, Stored, Cores, InputsOk, History, Replay,
         Received, Accounted, CountStages, CountedOk, CountingOk, CctDomain, CoreDomain, RecDomain, CrtDomain, Cnt;
    CntAt(st.q, Check(s), 0);
  }

  lemma LightDecision(c: Config, s: Sched, v: Value, localData: map<Name, Piece>)
    requires !Heavy(c, v)
    ensures HasLength(c, v, v.allSize) && Decide(c, s, v, localData) == CrtDecided(ToWs, v.allSize)
  {
  }

  lemma HeavyDecision(c: Config, st: State, s: Sched, t: Task, v: Value)
    requires c.threshold >= 0 && NoteOk(c, st.notified, st.ranAt, t) && Stored(c, st.data, st.ranAt, st.result)
    requires v == Replay(c, t, NotesAt(st.notified, t), st.ranAt) && Heavy(c, v)
    ensures var pc := Decide(c, s, v, DataAt(st.data, s));
            && pc.CrtDecided? && HasLength(c, v, pc.len) && !pc.to.Lost? && !pc.to.ToWs?
            && Held(st.data, if pc.to.ToPeer? then pc.to.target else s, v)
            && (pc.to.ToPeer? ==> pc.to.target != s)
  {
    hide NoteOk, Stored, Replay, FirstMax;
    assert |v.sizes| == |v.parents| == |v.names| == |NotesAt(st.notified, t)| by { ReplayLengths(c, st, t, v); }
    DecideSound(c, t, v, st.notified, st.ranAt, st.data, st.result);
    FirstMaxSpec(v.sizes);
    var m := FirstMax(v.sizes).value;
    Available(c, NotesAt(st.notified, t), m, st.notified, st.ranAt, t, st.data, st.result, v);
    assert IsMax(v.sizes, v.sizes[m]);
    assert v.names[m] in DataAt(st.data, v.parents[m]);
  }

  lemma ReplayLengths(c: Config, st: State, t: Task, v: Value)
    requires v == Replay(c, t, NotesAt(st.notified, t), st.ranAt)
    ensures |v.sizes| == |v.parents| == |v.names| == |NotesAt(st.notified, t)|
  {
  }

  lemma CrtDecideLengths(c: Config, st: State, st': State, s: Sched, mig: bool)
    requires WellFormed(c) && Inv(c, st) && Lengths(c, st, mig) && DoCrtDecide(c, st, st', s)
    ensures Lengths(c, st', mig)
  {
    hide WellFormed, Inv, ItemsOk, DecisionsOk, Decide, DecisionOk;
    Decided(c, st, s);
    DecisionsElsewhere(c, st.q, st'.q, st.crt, st'.crt, st.zht, st.data, s);
  }

  /** What a decided task brings to its queue. */
  lemma DispatchedItem(c: Config, st: State, s: Sched, dst: Place, mig: bool)
    requires DecisionsOk(c, st.q, st.crt, st.zht, st.data) && CrtAt(st.crt, s).CrtDecided? && At(st.q, Check(s)) != []
    requires match CrtAt(st.crt, s).to
             case ToWs => dst == Ws(s)
             case ToLocal => dst == Local(s)
             case ToPeer(peer) => dst == Local(peer)
             case Lost => false
    ensures ItemOk(c, st.zht, st.data, mig, dst, Item(At(st.q, Check(s))[0].id, CrtAt(st.crt, s).len))
  {
    assert DecisionOk(c, st.zht, st.data, s, CrtAt(st.crt, s), At(st.q, Check(s))[0]);
  }

  lemma CrtEnqueueLengths(c: Config, st: State, st': State, s: Sched, mig: bool)
    requires Lengths(c, st, mig) && DoCrtEnqueue(c, st, st', s)
    ensures Lengths(c, st', mig)
  {
    hide ItemsOk, DecisionsOk, ItemOk;
    var dst := if CrtAt(st.crt, s).to == ToWs then Ws(s) else Local(s);
    DispatchedItem(c, st, s, dst, mig);
    MoveOk(c, st.zht, st.data, mig, st.q, Check(s), [], dst,
           At(st.q, dst) + [Item(At(st.q, Check(s))[0].id, CrtAt(st.crt, s).len)]);
    DecisionsElsewhere(c, st.q, st'.q, st.crt, st'.crt, st.zht, st.data, s);
  }

  lemma PushRecvLengths(c: Config, st: State, st': State, s: Sched, mig: bool)
    requires Lengths(c, st, mig) && DoPushRecv(c, st, st', s)
    ensures Lengths(c, st', mig)
  {
    hide ItemsOk, DecisionsOk, ItemOk;
    var dst := Local(CrtAt(st.crt, s).to.target);
    DispatchedItem(c, st, s, dst, mig);
    MoveOk(c, st.zht, st.data, mig, st.q, Check(s), [], dst,
           At(st.q, dst) + [Item(At(st.q, Check(s))[0].id, CrtAt(st.crt, s).len)]);
    DecisionsElsewhere(c, st.q, st'.q, st.crt, st'.crt, st.zht, st.data, s);
  }

  lemma CheckLengths(c: Config, st: State, st': State, s: Sched, a: CheckAct, mig: bool)
    requires WellFormed(c) && Inv(c, st) && Lengths(c, st, mig) && CheckNext(c, st, st', s, a)
    ensures Lengths(c, st', mig)
  {
    hide WellFormed, Inv, ItemsOk, DecisionsOk, Decide;
    match a
    case WaitPop => WaitPopLengths(c, st, st', s, mig);
    case CrtReturn => CrtReturnLengths(c, st, st', s, mig);
    case CrtDecide => CrtDecideLengths(c, st, st', s, mig);
    case CrtEnqueue => CrtEnqueueLengths(c, st, st', s, mig);
    case PushRecv => PushRecvLengths(c, st, st', s, mig);
    case CrtLookup => DecisionsElsewhere(c, st.q, st'.q, st.crt, st'.crt, st.zht, st.data, s);
    case CrtDone => DecisionsElsewhere(c, st.q, st'.q, st.crt, st'.crt, st.zht, st.data, s);
  }

  // ---------- Stealing, migrating, starting ----------

  /** Whatever is fine at src is fine at dst. */
  ghost predicate Passes(c: Config, st: State, mig: bool, src: Place, dst: Place) {
    forall x :: x in At(st.q, src) ==> ItemOk(c, st.zht, st.data, mig, dst, x)
  }

  lemma StealPasses(c: Config, st: State, mig: bool, s: Sched, s': Sched, k: nat)
    requires ItemsOk(c, st.q, st.zht, st.data, mig)
    ensures Passes(c, st, mig, Ws(s), Steal(s')) && Passes(c, st, mig, Steal(s), Ws(s'))
    ensures Passes(c, st, mig, Ws(s), Core(s, k)) && Passes(c, st, mig, Local(s), Core(s, k))
    ensures mig ==> Passes(c, st, mig, Local(s), Migr(s)) && Passes(c, st, mig, Migr(s), Ws(s))
  {
    forall p, x | x in At(st.q, p)
      ensures ItemOk(c, st.zht, st.data, mig, p, x)
    {
    }
  }

  lemma BalanceLengths(c: Config, st: State, st': State, s: Sched, a: BalanceAct, mig: bool)
    requires Lengths(c, st, mig) && BalanceNext(c, st, st', s, a) && (a.MigrateOut? ==> mig)
    requires a.MigrateIn? ==> mig
    ensures Lengths(c, st', mig)
  {
    hide ItemsOk, DecisionsOk, ItemOk, PoppedTops;
    match a {
      case StealSend(v, taken, rest) =>
        PoppedMembers(At(st.q, Ws(v)), taken, rest);
        StealPasses(c, st, mig, v, s, 0);
        MoveOk(c, st.zht, st.data, mig, st.q, Ws(v), rest, Steal(s), taken);
      case StealRecv(k) =>
        var b := At(st.q, Steal(s));
        StealPasses(c, st, mig, s, s, 0);
        MoveOk(c, st.zht, st.data, mig, st.q, Steal(s), b[k..], Ws(s), At(st.q, Ws(s)) + b[..k]);
      case MigrateOut(taken, rest) =>
        PoppedMembers(At(st.q, Local(s)), taken, rest);
        StealPasses(c, st, mig, s, s, 0);
        MoveOk(c, st.zht, st.data, mig, st.q, Local(s), taken, Migr(s), rest);
      case MigrateIn =>
        StealPasses(c, st, mig, s, s, 0);
        MoveOk(c, st.zht, st.data, mig, st.q, Migr(s), [], Ws(s), At(st.q, Ws(s)) + At(st.q, Migr(s)));
    }
    NotChecked(c, st.q, st'.q, st.crt, st.zht, st.data);
  }

  /** Nothing is on its way from a local queue if nothing has ever been migrated. */
  lemma MigratingSince(c: Config, st: State, s: Sched, mig: bool)
    requires ItemsOk(c, st.q, st.zht, st.data, mig) && At(st.q, Migr(s)) != []
    ensures mig
  {
    assert ItemOk(c, st.zht, st.data, mig, Migr(s), At(st.q, Migr(s))[0]);
  }

  lemma ExecStartLengths(c: Config, st: State, st': State, s: Sched, k: nat, from: Place, x: Item, rest: seq<Item>,
                         mig: bool)
    requires Lengths(c, st, mig) && DoExecStart(c, st, st', s, k, from, x, rest)
    ensures Lengths(c, st', mig)
  {
    hide ItemsOk, DecisionsOk, ItemOk, PoppedTops;
    PoppedMembers(At(st.q, from), [x], rest);
    StealPasses(c, st, mig, s, s, k);
    assert x in [x];
    MoveOk(c, st.zht, st.data, mig, st.q, from, rest, Core(s, k), [x]);
    NotChecked(c, st.q, st'.q, st.crt, st.zht, st.data);
  }

  // ---------- Executing and notifying ----------

  ghost predicate DataGrows(data: map<Sched, map<Name, Piece>>, data': map<Sched, map<Name, Piece>>) {
    forall s: nat, nm :: nm in DataAt(data, s) ==> nm in DataAt(data', s)
  }

  lemma HeldGrows(data: map<Sched, map<Name, Piece>>, data': map<Sched, map<Name, Piece>>, s: Sched, v: Value)
    requires DataGrows(data, data') && Held(data, s, v)
    ensures Held(data', s, v)
  {
    var k: nat :| k < |v.sizes| && k < |v.names| && IsMax(v.sizes, v.sizes[k]) && v.names[k] in DataAt(data, s);
    assert v.names[k] in DataAt(data', s);
  }

  lemma ItemGrows(c: Config, zht: map<Task, Value>, data: map<Sched, map<Name, Piece>>,
                  data': map<Sched, map<Name, Piece>>, mig: bool, p: Place, x: Item)
    requires ItemOk(c, zht, data, mig, p, x) && DataGrows(data, data')
    ensures ItemOk(c, zht, data', mig, p, x)
  {
    hide Held, HasLength, DataGrows;
    if Held(data, p.s, ZhtAt(zht, x.id)) { HeldGrows(data, data', p.s, ZhtAt(zht, x.id)); }
  }

  lemma DecisionGrows(c: Config, zht: map<Task, Value>, data: map<Sched, map<Name, Piece>>,
                      data': map<Sched, map<Name, Piece>>, s: Sched, pc: CrtPc, x: Item)
    requires DecisionOk(c, zht, data, s, pc, x) && DataGrows(data, data')
    ensures DecisionOk(c, zht, data', s, pc, x)
  {
    hide Held, HasLength, DataGrows;
    if pc.CrtDecided? && pc.to.ToLocal? { HeldGrows(data, data', s, ZhtAt(zht, x.id)); }
    if pc.CrtDecided? && pc.to.ToPeer? { HeldGrows(data, data', pc.to.target, ZhtAt(zht, x.id)); }
  }

  lemma LengthsGrow(c: Config, st: State, st': State, mig: bool)
    requires Lengths(c, st, mig) && DataGrows(st.data, st'.data)
    requires st'.q == st.q && st'.crt == st.crt && st'.zht == st.zht
    ensures Lengths(c, st', mig)
  {
    hide ItemOk, DecisionOk, DataGrows;
    forall p, x | x in At(st.q, p)
      ensures ItemOk(c, st.zht, st'.data, mig, p, x)
    {
      ItemGrows(c, st.zht, st.data, st'.data, mig, p, x);
    }
    forall s: nat, x | x in At(st.q, Check(s))
      ensures DecisionOk(c, st.zht, st'.data, s, CrtAt(st.crt, s), x)
    {
      DecisionGrows(c, st.zht, st.data, st'.data, s, CrtAt(st.crt, s), x);
    }
  }

  lemma CompleteLengths(c: Config, st: State, st': State, s: Sched, k: nat, mig: bool)
    requires Lengths(c, st, mig) && DoExecComplete(c, st, st', s, k)
    ensures Lengths(c, st', mig)
  {
    hide ItemsOk, DecisionsOk;
    var y := Item(At(st.q, Core(s, k))[0].id, CoreAt(st.core, Core(s, k)).v.outputSize);
    MoveOk(c, st.zht, st.data, mig, st.q, Core(s, k), [], Complete(s), At(st.q, Complete(s)) + [y]);
    NotChecked(c, st.q, st'.q, st.crt, st.zht, st.data);
  }

  lemma ExecDataGrows(c: Config, st: State, st': State, s: Sched, k: nat, a: ExecAct)
    requires ExecNext(c, st, st', s, k, a) && !a.ExecStart? && !a.ExecComplete?
    ensures DataGrows(st.data, st'.data) && st'.q == st.q && st'.crt == st.crt && st'.zht == st.zht
  {
    hide Find;
  }

  lemma ExecLengths(c: Config, st: State, st': State, s: Sched, k: nat, a: ExecAct, mig: bool)
    requires Lengths(c, st, mig) && ExecNext(c, st, st', s, k, a)
    ensures Lengths(c, st', mig)
  {
    hide Lengths, DoExecStart, DoExecComplete, DoExecLookup, DoExecFetch, DoExecRemote, DoExecCache, DoExecRun,
         DoExecCount;
    match a
    case ExecStart(from, x, rest) => ExecStartLengths(c, st, st', s, k, from, x, rest, mig);
    case ExecComplete => CompleteLengths(c, st, st', s, k, mig);
    case _ =>
      ExecDataGrows(c, st, st', s, k, a);
      LengthsGrow(c, st, st', mig);
  }

  /** The record of a task that has been found ready never changes again. */
  lemma ReadyKeeps(c: Config, st: State, st': State, s: Sched, t: Task)
    requires WellFormed(c) && Inv(c, st) && Inv(c, st') && DoNotifyCas(c, st, st', s) && t < c.n
    requires Ready(c, st.notified, t)
    ensures ZhtAt(st'.zht, t) == ZhtAt(st.zht, t)
  {
    hide WellFormed, Inv, NoteOk, Replay, NotifyChild, InDeg;
    WfChildren(c);
    NoteFacts(c, st', t);
    NotesBound(c, st'.notified, st'.ranAt, t);
  }

  lemma DispatchedReady(c: Config, st: State, p: Place, x: Item)
    requires Inv(c, st) && x in At(st.q, p) && Dispatched(st.crt, p)
    ensures x.id < c.n && Ready(c, st.notified, x.id)
  {
    hide Slots, NotesOk, Records, Notifiers, CompleteOk, Checkers, Stored, Cores, InputsOk, History, NotifiedUpTo,
         Received, Accounted, CountStages, CountedOk, CountingOk, CctDomain, CoreDomain, RecDomain, CrtDomain, Cnt;
    var i :| 0 <= i < |At(st.q, p)| && At(st.q, p)[i] == x;
    CntAt(st.q, p, i);
    assert Placed(c, st.crt, st.core, st.cct, st.ranAt, st.notified, p, x.id);
  }

  lemma CasLengths(c: Config, st: State, st': State, s: Sched, mig: bool)
    requires WellFormed(c) && Inv(c, st) && Inv(c, st') && Lengths(c, st, mig) && DoNotifyCas(c, st, st', s)
    ensures Lengths(c, st', mig)
  {
    hide WellFormed, Inv, HasLength, Held, Heavy, DoNotifyCas, Ready;
    CasFrame(c, st, st', s);
    forall p, x | x in At(st.q, p)
      ensures ItemOk(c, st'.zht, st.data, mig, p, x)
    {
      assert ItemOk(c, st.zht, st.data, mig, p, x);
      if Dispatched(st.crt, p) {
        DispatchedReady(c, st, p, x);
        ReadyKeeps(c, st, st', s, x.id);
      }
    }
    forall s1: nat, x | x in At(st.q, Check(s1))
      ensures DecisionOk(c, st'.zht, st.data, s1, CrtAt(st.crt, s1), x)
    {
      assert DecisionOk(c, st.zht, st.data, s1, CrtAt(st.crt, s1), x);
      if Dispatched(st.crt, Check(s1)) {
        DispatchedReady(c, st, Check(s1), x);
        ReadyKeeps(c, st, st', s, x.id);
      }
    }
  }

  lemma CasFrame(c: Config, st: State, st': State, s: Sched)
    requires DoNotifyCas(c, st, st', s)
    ensures st'.q == st.q && st'.crt == st.crt && st'.data == st.data
  {
  }

  lemma NotifyLengths(c: Config, st: State, st': State, s: Sched, a: NotifyAct, mig: bool)
    requires WellFormed(c) && Inv(c, st) && Inv(c, st') && Lengths(c, st, mig) && NotifyNext(c, st, st', s, a)
    ensures Lengths(c, st', mig)
  {
    hide WellFormed, Inv, ItemsOk, DecisionsOk, DoNotifyCas;
    match a
    case NotifyCas => CasLengths(c, st, st', s, mig);
    case NotifyPop =>
      var w := At(st.q, Complete(s));
      MoveOk(c, st.zht, st.data, mig, st.q, Complete(s), w[1..], Notify(s), [w[0]]);
      NotChecked(c, st.q, st'.q, st.crt, st.zht, st.data);
    case NotifyEnd =>
      MoveOk(c, st.zht, st.data, mig, st.q, Notify(s), [], Finished(s), At(st.q, Finished(s)) + At(st.q, Notify(s)));
      NotChecked(c, st.q, st'.q, st.crt, st.zht, st.data);
    case _ =>
  }

  // ---------- Runs ----------

  ghost predicate Migrates(step: Step) { step.BalanceStep? && step.balance.MigrateOut? }

  lemma StepLengths(c: Config, st: State, st': State, step: Step, mig: bool)
    requires WellFormed(c) && Inv(c, st) && Inv(c, st') && Lengths(c, st, mig) && NextStep(c, st, st', step)
    ensures Lengths(c, st', mig || Migrates(step))
  {
    hide WellFormed, Inv, Lengths, ClientNext, CheckNext, ExecNext, NotifyNext;
    match step
    case ClientStep(s, a) => ClientLengths(c, st, st', s, a, mig);
    case CheckStep(s, a) => CheckLengths(c, st, st', s, a, mig);
    case BalanceStep(s, a) => BalanceStepLengths(c, st, st', s, a, mig);
    case ExecStep(s, k, a) => ExecLengths(c, st, st', s, k, a, mig);
    case NotifyStep(s, a) => NotifyLengths(c, st, st', s, a, mig);
    case RecordStep(s, a) => RecordLengths(c, st, st', s, a, mig);
  }

  lemma BalanceStepLengths(c: Config, st: State, st': State, s: Sched, a: BalanceAct, mig: bool)
    requires Lengths(c, st, mig) && BalanceNext(c, st, st', s, a)
    ensures Lengths(c, st', mig || a.MigrateOut?)
  {
    hide ItemsOk, DecisionsOk, PoppedTops;
    if a.MigrateOut? && !mig { NoMigration(c, st.q, st.zht, st.data); }
    if a.MigrateIn? { MigratingSince(c, st, s, mig); }
    BalanceLengths(c, st, st', s, a, mig || a.MigrateOut?);
  }

  lemma RecordLengths(c: Config, st: State, st': State, s: Sched, a: RecordAct, mig: bool)
    requires Lengths(c, st, mig) && RecordNext(c, st, st', s, a)
    ensures Lengths(c, st', mig)
  {
    hide ItemsOk, DecisionsOk;
  }

  lemma InitLengths(c: Config, st: State)
    requires Init(c, st)
    ensures Lengths(c, st, false)
  {
    forall p, x | x in At(st.q, p)
      ensures ItemOk(c, st.zht, st.data, false, p, x)
    {
      assert p.Client?;
    }
  }

  ghost predicate HasMigrated(steps: seq<Step>) { exists i :: 0 <= i < |steps| && Migrates(steps[i]) }

  lemma MigratedSnoc(steps: seq<Step>, i: nat)
    requires i < |steps|
    ensures HasMigrated(steps[..i + 1]) <==> HasMigrated(steps[..i]) || Migrates(steps[i])
  {
    assert steps[..i + 1] == steps[..i] + [steps[i]];
    if HasMigrated(steps[..i]) {
      var j :| 0 <= j < i && Migrates(steps[..i][j]);
      assert steps[..i + 1][j] == steps[..i][j];
    }
    if Migrates(steps[i]) { assert steps[..i + 1][i] == steps[i]; }
  }

  lemma {:induction false} RunLengths(c: Config, states: seq<State>, steps: seq<Step>, i: nat)
    requires WellFormed(c) && IsRun(c, states, steps) && Init(c, states[0]) && i <= |steps|
    ensures Inv(c, states[i]) && Lengths(c, states[i], HasMigrated(steps[..i]))
  {
    hide WellFormed, Inv, Lengths, NextStep, Init, HasMigrated;
    if i == 0 {
      InitInv(c, states[0]);
      InitLengths(c, states[0]);
      assert !HasMigrated(steps[..0]) by { NothingMigrated(); }
    } else {
      RunLengths(c, states, steps, i - 1);
      StepInv(c, states[i - 1], states[i], steps[i - 1]);
      StepLengths(c, states[i - 1], states[i], steps[i - 1], HasMigrated(steps[..i - 1]));
      MigratedSnoc(steps, i - 1);
    }
  }

  lemma NothingMigrated()
    ensures !HasMigrated([])
  {
  }

  lemma ReachableLengths(c: Config, st: State) returns (mig: bool)
    requires WellFormed(c) && Reachable(c, st)
    ensures Inv(c, st) && Lengths(c, st, mig)
  {
    hide WellFormed, Inv, Lengths, NextStep, Init, HasMigrated;
    var st0 :| Init(c, st0) && CanReach(c, st0, st);
    var states, steps :| IsRun(c, states, steps) && states[0] == st0 && states[|steps|] == st;
    RunLengths(c, states, steps, |steps|);
    mig := HasMigrated(steps[..|steps|]);
  }

  // ---------- Theorems ----------

  /** A task in a ready queue, on its way between queues or on a core carries the length of its data. */
  lemma QueuePriority(c: Config, st: State, p: Place, x: Item)
    requires WellFormed(c) && Reachable(c, st) && x in At(st.q, p)
    ensures p.Ws? || p.Local? || p.Steal? || p.Migr? || p.Core? ==> HasLength(c, ZhtAt(st.zht, x.id), x.size)
    ensures p.Client? || p.Wait? || p.Check? ==> x.size == 0
  {
    hide WellFormed, Reachable, HasLength;
    var mig := ReachableLengths(c, st);
    assert ItemOk(c, st.zht, st.data, mig, p, x);
  }

  lemma OneLength(c: Config, v: Value, m: int, n: int)
    requires HasLength(c, v, m) && HasLength(c, v, n)
    ensures m == n
  {
  }

  /** Whatever is popped from a ready queue has no more data than whatever is left. */
  lemma LeastData(c: Config, st: State, p: Place, taken: seq<Item>, rest: seq<Item>, x: Item, y: Item, m: int, n: int)
    requires WellFormed(c) && Reachable(c, st) && (p.Ws? || p.Local?)
    requires PoppedTops(At(st.q, p), taken, rest) && x in taken && y in rest
    requires HasLength(c, ZhtAt(st.zht, x.id), m) && HasLength(c, ZhtAt(st.zht, y.id), n)
    ensures m <= n
  {
    hide WellFormed, Reachable, HasLength;
    PoppedMembers(At(st.q, p), taken, rest);
    QueuePriority(c, st, p, x);
    QueuePriority(c, st, p, y);
    OneLength(c, ZhtAt(st.zht, x.id), m, x.size);
    OneLength(c, ZhtAt(st.zht, y.id), n, y.size);
  }

  /** The tasks that a step takes out of a ready queue, and those it leaves there. */
  ghost predicate Takes(step: Step, p: Place, taken: seq<Item>, rest: seq<Item>) {
    || (step.BalanceStep? && step.balance.StealSend? && p == Ws(step.balance.victim)
        && taken == step.balance.taken && rest == step.balance.rest)
    || (step.ExecStep? && step.exec.ExecStart? && p == step.exec.from
        && taken == [step.exec.x] && rest == step.exec.rest)
  }

  /** A steal and the start of an execution take tasks with the least data in their queue. */
  lemma SmallestFirst(c: Config, st: State, st': State, step: Step, p: Place, taken: seq<Item>, rest: seq<Item>,
                      x: Item, y: Item, m: int, n: int)
    requires WellFormed(c) && Reachable(c, st) && NextStep(c, st, st', step) && Takes(step, p, taken, rest)
    requires x in taken && y in At(st'.q, p)
    requires HasLength(c, ZhtAt(st.zht, x.id), m) && HasLength(c, ZhtAt(st.zht, y.id), n)
    ensures x in At(st.q, p) && m <= n
  {
    hide WellFormed, Reachable, HasLength, PoppedTops;
    PoppedMembers(At(st.q, p), taken, rest);
    LeastData(c, st, p, taken, rest, x, y, m, n);
  }

  /** Stolen tasks leave with the least data first. */
  lemma StolenInOrder(c: Config, st: State, st': State, thief: Sched, victim: Sched, taken: seq<Item>, rest: seq<Item>,
                      i: nat, j: nat, m: int, n: int)
    requires WellFormed(c) && Reachable(c, st) && DoStealSend(c, st, st', victim, thief, taken, rest)
    requires i < j < |taken|
    requires HasLength(c, ZhtAt(st.zht, taken[i].id), m) && HasLength(c, ZhtAt(st.zht, taken[j].id), n)
    ensures m <= n && At(st'.q, Steal(thief)) == taken && |taken| == |At(st.q, Ws(victim))| / 2
  {
    hide WellFormed, Reachable, HasLength;
    PoppedMembers(At(st.q, Ws(victim)), taken, rest);
    QueuePriority(c, st, Ws(victim), taken[i]);
    QueuePriority(c, st, Ws(victim), taken[j]);
    OneLength(c, ZhtAt(st.zht, taken[i].id), m, taken[i].size);
    OneLength(c, ZhtAt(st.zht, taken[j].id), n, taken[j].size);
  }

  /** The monitor keeps the tasks with the least data. */
  lemma MonitorKeepsSmallest(c: Config, st: State, st': State, s: Sched, taken: seq<Item>, rest: seq<Item>,
                             x: Item, y: Item, m: int, n: int)
    requires WellFormed(c) && Reachable(c, st) && DoMigrateOut(c, st, st', s, taken, rest)
    requires x in At(st'.q, Local(s)) && y in At(st'.q, Migr(s))
    requires HasLength(c, ZhtAt(st.zht, x.id), m) && HasLength(c, ZhtAt(st.zht, y.id), n)
    ensures m <= n
  {
    hide WellFormed, Reachable, HasLength, PoppedTops;
    LeastData(c, st, Local(s), taken, rest, x, y, m, n);
  }

  /** Only tasks with more data than the threshold are in local queues, and a largest piece of them is there. */
  lemma LocalQueueData(c: Config, st: State, s: Sched, x: Item)
    requires WellFormed(c) && Reachable(c, st) && x in At(st.q, Local(s)) + At(st.q, Migr(s))
    ensures Heavy(c, ZhtAt(st.zht, x.id))
    ensures x in At(st.q, Local(s)) ==> Held(st.data, s, ZhtAt(st.zht, x.id))
  {
    hide WellFormed, Reachable, HasLength, Held, Heavy;
    var mig := ReachableLengths(c, st);
    if x in At(st.q, Local(s)) {
      assert ItemOk(c, st.zht, st.data, mig, Local(s), x);
    } else {
      assert ItemOk(c, st.zht, st.data, mig, Migr(s), x);
    }
  }

  /** A ready task with little data is in a stealing queue or stolen until a core takes it. */
  lemma LightTasksCanBeStolen(c: Config, st: State, p: Place, x: Item)
    requires WellFormed(c) && Reachable(c, st) && x in At(st.q, p) && !Heavy(c, ZhtAt(st.zht, x.id))
    requires p.Ws? || p.Local? || p.Steal? || p.Migr?
    ensures p.Ws? || p.Steal?
  {
    hide WellFormed, Reachable, Heavy;
    if p.Local? || p.Migr? { LocalQueueData(c, st, p.s, x); }
  }

  /**
    Data locality: if nothing is ever migrated, a task with more data than the threshold is never in a
    stealing queue, and it is executed where a largest piece of its data lies.
  */
  lemma DataLocality(c: Config, states: seq<State>, steps: seq<Step>, p: Place, x: Item)
    requires WellFormed(c) && IsRun(c, states, steps) && Init(c, states[0]) && !HasMigrated(steps)
    requires var st := states[|steps|]; x in At(st.q, p) && Heavy(c, ZhtAt(st.zht, x.id))
    ensures !p.Ws? && !p.Steal? && !p.Migr?
    ensures p.Local? || p.Core? ==> Held(states[|steps|].data, p.s, ZhtAt(states[|steps|].zht, x.id))
  {
    hide WellFormed, IsRun, Init, HasLength, Held, Heavy, HasMigrated;
    assert |states| == |steps| + 1 by { RunStates(c, states, steps); }
    assert steps[..|steps|] == steps;
    RunLengths(c, states, steps, |steps|);
    assert ItemOk(c, states[|steps|].zht, states[|steps|].data, false, p, x);
  }

  lemma RunStates(c: Config, states: seq<State>, steps: seq<Step>)
    requires IsRun(c, states, steps)
    ensures |states| == |steps| + 1
  {
  }
}
