/**
  How often threads try in vain.  A compare_swap fails only because another scheduler's succeeded, a piece of
  data is requested at most once a core, and a reporting thread stops soon after the last report.
*/
module MatrixContention {
  import opened MatrixModel
  import opened MatrixInvariant
  import opened MatrixBasics
  import opened MatrixRecord
  import opened MatrixTheorems
  import opened MatrixProgress
  import opened MatrixLiveness
  import opened MatrixFairCompletion

  // ---------- Counting along a run ----------

  ghost function TotalTo(g: nat -> nat, k: nat): nat { if k == 0 then 0 else TotalTo(g, k - 1) + g(k - 1) }

  ghost predicate Paid(fail: nat -> nat, other: nat -> nat, stale: nat -> nat, i: nat) {
    fail(i) + stale(i + 1) <= stale(i) + other(i)
  }

  lemma {:induction false} AllPaid(fail: nat -> nat, other: nat -> nat, stale: nat -> nat, k: nat)
    requires stale(0) == 0 && forall i: nat :: i < k ==> Paid(fail, other, stale, i)
    ensures TotalTo(fail, k) + stale(k) <= TotalTo(other, k)
  {
    if k > 0 {
      AllPaid(fail, other, stale, k - 1);
      assert Paid(fail, other, stale, k - 1);
    }
  }

  // ---------- What steps of the other threads leave alone ----------

  ghost predicate SameRecv(st: State, st': State) { st'.recv == st.recv && st'.recvCtr == st.recvCtr }
  ghost predicate SameDone(st: State, st': State) {
    st'.rec == st.rec && st'.doneCtr == st.doneCtr && st'.stopped == st.stopped
  }
  ghost predicate SameRecords(st: State, st': State) { st'.cct == st.cct && st'.zht == st.zht }
  ghost predicate SameData(st: State, st': State) { st'.core == st.core && st'.data == st.data }

  lemma ClientFrame(c: Config, st: State, st': State, s: Sched, a: ClientAct)
    requires ClientNext(c, st, st', s, a)
    ensures SameDone(st, st') && SameRecords(st, st') && SameData(st, st')
  {
  }

  lemma CheckFrame(c: Config, st: State, st': State, s: Sched, a: CheckAct)
    requires CheckNext(c, st, st', s, a)
    ensures SameRecv(st, st') && SameDone(st, st') && SameRecords(st, st') && SameData(st, st')
  {
    hide Decide;
  }

  lemma BalanceFrame(c: Config, st: State, st': State, s: Sched, a: BalanceAct)
    requires BalanceNext(c, st, st', s, a)
    ensures SameRecv(st, st') && SameDone(st, st') && SameRecords(st, st') && SameData(st, st')
  {
    hide PoppedTops;
  }

  lemma ExecFrame(c: Config, st: State, st': State, s: Sched, k: nat, a: ExecAct)
    requires ExecNext(c, st, st', s, k, a)
    ensures SameRecv(st, st') && SameDone(st, st') && SameRecords(st, st')
  {
    hide PoppedTops, InsertNew, Find;
  }

  lemma NotifyFrame(c: Config, st: State, st': State, s: Sched, a: NotifyAct)
    requires NotifyNext(c, st, st', s, a)
    ensures SameRecv(st, st') && SameDone(st, st') && SameData(st, st')
  {
    hide NotifyChild;
  }

  lemma RecordFrame(c: Config, st: State, st': State, s: Sched, a: RecordAct)
    requires RecordNext(c, st, st', s, a)
    ensures SameRecv(st, st') && SameRecords(st, st') && SameData(st, st')
  {
  }

  // ---------- "num tasks recv" ----------

  /** The value that s has seen is out of date. */
  ghost predicate RecvStale(st: State, s: Sched) {
    RecvAt(st.recv, s).RecvSeen? && RecvAt(st.recv, s).seen != st.recvCtr
  }

  ghost predicate RecvTry(step: Step) { step.ClientStep? && step.client.RecvCas? }
  ghost predicate RecvFails(st: State, step: Step, s: Sched) { RecvTry(step) && step.s == s && RecvStale(st, s) }
  ghost predicate RecvOther(st: State, step: Step, s: Sched) {
    RecvTry(step) && step.s != s && !RecvStale(st, step.s)
  }

  lemma ClientRecv(c: Config, st: State, st': State, s1: Sched, a: ClientAct, s: Sched)
    requires ClientNext(c, st, st', s1, a)
    ensures B(RecvFails(st, ClientStep(s1, a), s)) + B(RecvStale(st', s))
            <= B(RecvStale(st, s)) + B(RecvOther(st, ClientStep(s1, a), s))
  {
  }

  lemma StepRecv(c: Config, st: State, st': State, step: Step, s: Sched)
    requires NextStep(c, st, st', step)
    ensures B(RecvFails(st, step, s)) + B(RecvStale(st', s)) <= B(RecvStale(st, s)) + B(RecvOther(st, step, s))
  {
    hide ClientNext, CheckNext, BalanceNext, ExecNext, NotifyNext, RecordNext;
    match step
    case ClientStep(s1, a) => ClientRecv(c, st, st', s1, a, s);
    case CheckStep(s1, a) => CheckFrame(c, st, st', s1, a);
    case BalanceStep(s1, a) => BalanceFrame(c, st, st', s1, a);
    case ExecStep(s1, k, a) => ExecFrame(c, st, st', s1, k, a);
    case NotifyStep(s1, a) => NotifyFrame(c, st, st', s1, a);
    case RecordStep(s1, a) => RecordFrame(c, st, st', s1, a);
  }

  // ---------- "num tasks done" ----------

  ghost predicate DoneStale(st: State, s: Sched) {
    || (RecAt(st.rec, s).RecSeen? && RecAt(st.rec, s).seen != st.doneCtr)
    || (RecAt(st.rec, s).RecLocked? && RecAt(st.rec, s).seen != st.doneCtr)
  }

  ghost predicate DoneTry(step: Step) { step.RecordStep? && step.record.RecCas? }
  ghost predicate DoneFails(st: State, step: Step, s: Sched) { DoneTry(step) && step.s == s && DoneStale(st, s) }
  ghost predicate DoneOther(st: State, step: Step, s: Sched) {
    DoneTry(step) && step.s != s && !DoneStale(st, step.s)
  }

  lemma RecordDoneTry(c: Config, st: State, st': State, s1: Sched, a: RecordAct, s: Sched)
    requires RecordNext(c, st, st', s1, a)
    ensures B(DoneFails(st, RecordStep(s1, a), s)) + B(DoneStale(st', s))
            <= B(DoneStale(st, s)) + B(DoneOther(st, RecordStep(s1, a), s))
  {
  }

  lemma StepDone(c: Config, st: State, st': State, step: Step, s: Sched)
    requires NextStep(c, st, st', step)
    ensures B(DoneFails(st, step, s)) + B(DoneStale(st', s)) <= B(DoneStale(st, s)) + B(DoneOther(st, step, s))
  {
    hide ClientNext, CheckNext, BalanceNext, ExecNext, NotifyNext, RecordNext;
    match step
    case ClientStep(s1, a) => ClientFrame(c, st, st', s1, a);
    case CheckStep(s1, a) => CheckFrame(c, st, st', s1, a);
    case BalanceStep(s1, a) => BalanceFrame(c, st, st', s1, a);
    case ExecStep(s1, k, a) => ExecFrame(c, st, st', s1, k, a);
    case NotifyStep(s1, a) => NotifyFrame(c, st, st', s1, a);
    case RecordStep(s1, a) => RecordDoneTry(c, st, st', s1, a, s);
  }

  // ---------- Task records ----------

  /** s is about to change the record of t. */
  ghost predicate Notifying(st: State, s: Sched, t: Task) {
    var pc := CctAt(st.cct, s);
    pc.CctRead? && pc.i < |pc.kids| && pc.kids[pc.i] == t
  }

  ghost predicate NoteStale(st: State, s: Sched, t: Task) {
    Notifying(st, s, t) && CctAt(st.cct, s).seen != ZhtAt(st.zht, t)
  }

  ghost predicate NoteTry(step: Step) { step.NotifyStep? && step.notify.NotifyCas? }
  ghost predicate NoteFails(st: State, step: Step, s: Sched, t: Task) {
    NoteTry(step) && step.s == s && NoteStale(st, s, t)
  }
  ghost predicate NoteOther(st: State, step: Step, s: Sched, t: Task) {
    NoteTry(step) && step.s != s && Notifying(st, step.s, t) && !NoteStale(st, step.s, t)
  }

  lemma NotifyNoteTry(c: Config, st: State, st': State, s1: Sched, a: NotifyAct, s: Sched, t: Task)
    requires NotifyNext(c, st, st', s1, a)
    ensures B(NoteFails(st, NotifyStep(s1, a), s, t)) + B(NoteStale(st', s, t))
            <= B(NoteStale(st, s, t)) + B(NoteOther(st, NotifyStep(s1, a), s, t))
  {
    hide NotifyChild;
  }

  lemma StepNote(c: Config, st: State, st': State, step: Step, s: Sched, t: Task)
    requires NextStep(c, st, st', step)
    ensures B(NoteFails(st, step, s, t)) + B(NoteStale(st', s, t))
            <= B(NoteStale(st, s, t)) + B(NoteOther(st, step, s, t))
  {
    hide ClientNext, CheckNext, BalanceNext, ExecNext, NotifyNext, RecordNext;
    match step
    case ClientStep(s1, a) => ClientFrame(c, st, st', s1, a);
    case CheckStep(s1, a) => CheckFrame(c, st, st', s1, a);
    case BalanceStep(s1, a) => BalanceFrame(c, st, st', s1, a);
    case ExecStep(s1, k, a) => ExecFrame(c, st, st', s1, k, a);
    case NotifyStep(s1, a) => NotifyNoteTry(c, st, st', s1, a, s, t);
    case RecordStep(s1, a) => RecordFrame(c, st, st', s1, a);
  }

  // ---------- The theorem on contention ----------

  /** How many steps of the run have the property in the state they are taken from. */
  ghost function Number(states: seq<State>, steps: seq<Step>, good: (State, Step) -> bool): nat
    requires |states| == |steps| + 1
  {
    TotalTo((i: nat) => B(i < |steps| && good(states[i], steps[i])), |steps|)
  }

  lemma RunPaid(c: Config, states: seq<State>, steps: seq<Step>, fails: (State, Step) -> bool,
                others: (State, Step) -> bool, stale: State -> bool)
    requires IsRun(c, states, steps) && !stale(states[0])
    requires forall st, st', step :: NextStep(c, st, st', step) ==>
               B(fails(st, step)) + B(stale(st')) <= B(stale(st)) + B(others(st, step))
    ensures Number(states, steps, fails) <= Number(states, steps, others)
  {
    hide NextStep;
    var f := (i: nat) => B(i < |steps| && fails(states[i], steps[i]));
    var g := (i: nat) => B(i < |steps| && others(states[i], steps[i]));
    var h := (i: nat) => B(i <= |steps| && stale(states[i]));
    forall i: nat | i < |steps|
      ensures Paid(f, g, h, i)
    {
      assert NextStep(c, states[i], states[i + 1], steps[i]);
    }
    AllPaid(f, g, h, |steps|);
    SameTotal(f, (i: nat) => B(i < |steps| && fails(states[i], steps[i])), |steps|);
    SameTotal(g, (i: nat) => B(i < |steps| && others(states[i], steps[i])), |steps|);
  }

  lemma {:induction false} SameTotal(f: nat -> nat, g: nat -> nat, k: nat)
    requires forall i: nat :: f(i) == g(i)
    ensures TotalTo(f, k) == TotalTo(g, k)
  {
    if k > 0 { SameTotal(f, g, k - 1); }
  }

  /**
    In any run the compare_swaps of a scheduler on a counter, or on the record of a task, fail at most as often
    as those of the other schedulers on it succeed.
  */
  lemma Contention(c: Config, states: seq<State>, steps: seq<Step>, s: Sched, t: Task)
    requires IsRun(c, states, steps) && Init(c, states[0])
    ensures Number(states, steps, (st, step) => RecvFails(st, step, s))
            <= Number(states, steps, (st, step) => RecvOther(st, step, s))
    ensures Number(states, steps, (st, step) => DoneFails(st, step, s))
            <= Number(states, steps, (st, step) => DoneOther(st, step, s))
    ensures Number(states, steps, (st, step) => NoteFails(st, step, s, t))
            <= Number(states, steps, (st, step) => NoteOther(st, step, s, t))
  {
    hide NextStep, RecvFails, RecvOther, DoneFails, DoneOther, NoteFails, NoteOther, RecvStale, DoneStale, NoteStale,
         Number, Init;
    FreshStart(c, states[0], s, t);
    forall st, st', step | NextStep(c, st, st', step)
      ensures B(RecvFails(st, step, s)) + B(RecvStale(st', s)) <= B(RecvStale(st, s)) + B(RecvOther(st, step, s))
      ensures B(DoneFails(st, step, s)) + B(DoneStale(st', s)) <= B(DoneStale(st, s)) + B(DoneOther(st, step, s))
      ensures B(NoteFails(st, step, s, t)) + B(NoteStale(st', s, t))
              <= B(NoteStale(st, s, t)) + B(NoteOther(st, step, s, t))
    {
      StepRecv(c, st, st', step, s);
      StepDone(c, st, st', step, s);
      StepNote(c, st, st', step, s, t);
    }
    RunPaid(c, states, steps, (st, step) => RecvFails(st, step, s), (st, step) => RecvOther(st, step, s),
            st => RecvStale(st, s));
    RunPaid(c, states, steps, (st, step) => DoneFails(st, step, s), (st, step) => DoneOther(st, step, s),
            st => DoneStale(st, s));
    RunPaid(c, states, steps, (st, step) => NoteFails(st, step, s, t), (st, step) => NoteOther(st, step, s, t),
            st => NoteStale(st, s, t));
  }

  lemma FreshStart(c: Config, st: State, s: Sched, t: Task)
    requires Init(c, st)
    ensures !RecvStale(st, s) && !DoneStale(st, s) && !NoteStale(st, s, t)
  {
  }

  // ---------- Requests for data ----------

  /** Core k of s needs the data of that name, or has just got them. */
  ghost predicate NeedsAt(st: State, s: Sched, k: nat, nm: Name) {
    var pc := CoreAt(st.core, Core(s, k));
    pc.CoreNeed? && NameAt(pc.v, pc.i) == nm
  }

  ghost predicate GotAt(st: State, s: Sched, k: nat, nm: Name) {
    var pc := CoreAt(st.core, Core(s, k));
    pc.CoreGot? && NameAt(pc.v, pc.i) == nm
  }

  ghost function Needing(c: Config, st: State, s: Sched, nm: Name): set<nat> {
    set k: nat | k < c.cores && NeedsAt(st, s, k, nm)
  }

  ghost function Getting(c: Config, st: State, s: Sched, nm: Name): set<nat> {
    set k: nat | k < c.cores && GotAt(st, s, k, nm)
  }

  /** The step is a request of s for the data of that name. */
  ghost predicate Requests(st: State, step: Step, s: Sched, nm: Name) {
    step.ExecStep? && step.exec.ExecRemote? && step.s == s && NeedsAt(st, s, step.k, nm)
  }

  /** r requests so far. */
  ghost predicate Requested(c: Config, st: State, s: Sched, nm: Name, r: nat) {
    && r + |Needing(c, st, s, nm)| <= c.cores
    && (nm !in DataAt(st.data, s) ==> r == |Getting(c, st, s, nm)|)
  }

  lemma BothWithin(c: Config, st: State, s: Sched, nm: Name)
    ensures |Needing(c, st, s, nm)| + |Getting(c, st, s, nm)| <= c.cores
  {
    var a, b := Needing(c, st, s, nm), Getting(c, st, s, nm);
    assert a !! b;
    BelowCard(c.cores);
    SubsetCard(a + b, Below(c.cores));
  }

  /** Only core k changes. */
  lemma OtherCores(c: Config, st: State, st': State, s: Sched, k: nat, nm: Name)
    requires forall p :: p != Core(s, k) ==> CoreAt(st'.core, p) == CoreAt(st.core, p)
    ensures Needing(c, st', s, nm) - {k} == Needing(c, st, s, nm) - {k}
    ensures Getting(c, st', s, nm) - {k} == Getting(c, st, s, nm) - {k}
  {
    forall k1: nat | k1 != k
      ensures NeedsAt(st', s, k1, nm) == NeedsAt(st, s, k1, nm) && GotAt(st', s, k1, nm) == GotAt(st, s, k1, nm)
    {
      assert CoreAt(st'.core, Core(s, k1)) == CoreAt(st.core, Core(s, k1));
    }
  }

  lemma SameSize(a: set<nat>, b: set<nat>, k: nat)
    requires a - {k} == b - {k}
    ensures |a| - B(k in a) == |b| - B(k in b)
  {
    if k in a { assert a == (a - {k}) + {k}; } else { assert a == a - {k}; }
    if k in b { assert b == (b - {k}) + {k}; } else { assert b == b - {k}; }
  }

  lemma OneCore(c: Config, st: State, st': State, s: Sched, k: nat, a: ExecAct)
    requires ExecNext(c, st, st', s, k, a)
    ensures forall p :: p != Core(s, k) ==> CoreAt(st'.core, p) == CoreAt(st.core, p)
  {
    hide PoppedTops, Find, InsertNew, NameAt, ParentAt, SizeAt, Move, DataAt, ZhtAt, At;
  }

  /** When a core begins to need nm, and how it ceases to. */
  lemma CoreNeeds(c: Config, st: State, st': State, s: Sched, k: nat, a: ExecAct, nm: Name)
    requires ExecNext(c, st, st', s, k, a)
    ensures NeedsAt(st', s, k, nm) && !NeedsAt(st, s, k, nm) ==> nm !in DataAt(st.data, s) && !GotAt(st, s, k, nm)
    ensures Requests(st, ExecStep(s, k, a), s, nm) ==> !NeedsAt(st', s, k, nm) && GotAt(st', s, k, nm)
    ensures !Requests(st, ExecStep(s, k, a), s, nm) && NeedsAt(st, s, k, nm) ==> NeedsAt(st', s, k, nm)
  {
    hide PoppedTops, Find, InsertNew, ParentAt, SizeAt;
  }

  /** When a core gets nm, and that it caches it. */
  lemma CoreGets(c: Config, st: State, st': State, s: Sched, k: nat, a: ExecAct, nm: Name)
    requires ExecNext(c, st, st', s, k, a)
    ensures GotAt(st', s, k, nm) && !GotAt(st, s, k, nm) ==> Requests(st, ExecStep(s, k, a), s, nm)
    ensures GotAt(st, s, k, nm) && !GotAt(st', s, k, nm) ==> nm in DataAt(st'.data, s)
    ensures nm in DataAt(st.data, s) ==> nm in DataAt(st'.data, s)
  {
    hide PoppedTops, Find, ParentAt, SizeAt;
  }

  lemma ExecRequests(c: Config, st: State, st': State, s: Sched, k: nat, a: ExecAct, nm: Name, r: nat)
    requires ExecNext(c, st, st', s, k, a) && k < c.cores && Requested(c, st, s, nm, r)
    ensures Requested(c, st', s, nm, r + B(Requests(st, ExecStep(s, k, a), s, nm)))
  {
    hide ExecNext, Needing, Getting;
    var n, n', g, g' := Needing(c, st, s, nm), Needing(c, st', s, nm), Getting(c, st, s, nm), Getting(c, st', s, nm);
    OneCore(c, st, st', s, k, a);
    CoreNeeds(c, st, st', s, k, a, nm);
    CoreGets(c, st, st', s, k, a, nm);
    OtherCores(c, st, st', s, k, nm);
    SameSize(n', n, k);
    SameSize(g', g, k);
    CoreMember(c, st, s, k, nm);
    CoreMember(c, st', s, k, nm);
    BothWithin(c, st', s, nm);
  }

  lemma CoreMember(c: Config, st: State, s: Sched, k: nat, nm: Name)
    requires k < c.cores
    ensures k in Needing(c, st, s, nm) <==> NeedsAt(st, s, k, nm)
    ensures k in Getting(c, st, s, nm) <==> GotAt(st, s, k, nm)
  {
  }

  lemma ElsewhereRequests(c: Config, st: State, st': State, s: Sched, nm: Name, r: nat)
    requires Requested(c, st, s, nm, r) && DataAt(st'.data, s) == DataAt(st.data, s)
    requires forall k: nat :: CoreAt(st'.core, Core(s, k)) == CoreAt(st.core, Core(s, k))
    ensures Requested(c, st', s, nm, r)
  {
    forall k: nat
      ensures NeedsAt(st', s, k, nm) == NeedsAt(st, s, k, nm) && GotAt(st', s, k, nm) == GotAt(st, s, k, nm)
    {
      assert CoreAt(st'.core, Core(s, k)) == CoreAt(st.core, Core(s, k));
    }
    assert Needing(c, st', s, nm) == Needing(c, st, s, nm) && Getting(c, st', s, nm) == Getting(c, st, s, nm);
  }

  lemma OtherSched(c: Config, st: State, st': State, s1: Sched, k: nat, a: ExecAct, s: Sched)
    requires ExecNext(c, st, st', s1, k, a) && s != s1
    ensures DataAt(st'.data, s) == DataAt(st.data, s)
    ensures forall k: nat :: CoreAt(st'.core, Core(s, k)) == CoreAt(st.core, Core(s, k))
  {
    hide PoppedTops, Find, InsertNew, NameAt, ParentAt, SizeAt, Move, ZhtAt, At;
  }

  lemma ExecBelow(c: Config, st: State, st': State, s: Sched, k: nat, a: ExecAct)
    requires Inv(c, st) && ExecNext(c, st, st', s, k, a)
    ensures k < c.cores
  {
    hide Inv, InsertNew, Find, PoppedTops;
    if !a.ExecStart? { CoreValid(c, st, Core(s, k)); }
  }

  lemma StepRequests(c: Config, st: State, st': State, step: Step, s: Sched, nm: Name, r: nat)
    requires Inv(c, st) && NextStep(c, st, st', step) && Requested(c, st, s, nm, r)
    ensures Requested(c, st', s, nm, r + B(Requests(st, step, s, nm)))
  {
    hide Inv, Requested, NeedsAt, ClientNext, CheckNext, BalanceNext, ExecNext, NotifyNext, RecordNext;
    match step {
      case ExecStep(s1, k, a) =>
        ExecBelow(c, st, st', s1, k, a);
        if s1 == s {
          ExecRequests(c, st, st', s, k, a, nm, r);
        } else {
          OtherSched(c, st, st', s1, k, a, s);
          ElsewhereRequests(c, st, st', s, nm, r);
        }
      case ClientStep(s1, a) => ClientFrame(c, st, st', s1, a); ElsewhereRequests(c, st, st', s, nm, r);
      case CheckStep(s1, a) => CheckFrame(c, st, st', s1, a); ElsewhereRequests(c, st, st', s, nm, r);
      case BalanceStep(s1, a) => BalanceFrame(c, st, st', s1, a); ElsewhereRequests(c, st, st', s, nm, r);
      case NotifyStep(s1, a) => NotifyFrame(c, st, st', s1, a); ElsewhereRequests(c, st, st', s, nm, r);
      case RecordStep(s1, a) => RecordFrame(c, st, st', s1, a); ElsewhereRequests(c, st, st', s, nm, r);
    }
  }

  lemma NoneRequested(c: Config, st: State, s: Sched, nm: Name)
    requires Init(c, st)
    ensures Requested(c, st, s, nm, 0)
  {
    assert Needing(c, st, s, nm) == {} && Getting(c, st, s, nm) == {};
  }

  lemma {:induction false} RunRequests(c: Config, states: seq<State>, steps: seq<Step>, s: Sched, nm: Name, i: nat)
    requires WellFormed(c) && IsRun(c, states, steps) && Init(c, states[0]) && i <= |steps|
    ensures Requested(c, states[i], s, nm,
                      TotalTo((j: nat) => B(j < |steps| && Requests(states[j], steps[j], s, nm)), i))
  {
    hide WellFormed, NextStep, Init, Inv, Requested, Requests;
    if i == 0 {
      NoneRequested(c, states[0], s, nm);
    } else {
      RunRequests(c, states, steps, s, nm, i - 1);
      InitInv(c, states[0]);
      RunInv(c, states, steps, i - 1);
      var f := (j: nat) => B(j < |steps| && Requests(states[j], steps[j], s, nm));
      StepRequests(c, states[i - 1], states[i], steps[i - 1], s, nm, TotalTo(f, i - 1));
    }
  }

  /** The cache at work: in any run each scheduler requests each output from elsewhere at most once a core. */
  lemma CacheSaves(c: Config, states: seq<State>, steps: seq<Step>, s: Sched, nm: Name)
    requires WellFormed(c) && IsRun(c, states, steps) && Init(c, states[0])
    ensures Number(states, steps, (st, step) => Requests(st, step, s, nm)) <= c.cores
  {
    hide WellFormed, NextStep, Init, Requests, Needing;
    RunRequests(c, states, steps, s, nm, |steps|);
    SameTotal((j: nat) => B(j < |steps| && Requests(states[j], steps[j], s, nm)),
              (j: nat) => B(j < |steps| && ((st, step) => Requests(st, step, s, nm))(states[j], steps[j])), |steps|);
  }

  // ---------- Stopping ----------

  ghost predicate Reports(step: Step, s: Sched) { step.RecordStep? && step.s == s }

  lemma DoneStays(c: Config, st: State, st': State, s: Sched, a: RecordAct)
    requires Inv(c, st) && Inv(c, st') && RecordNext(c, st, st', s, a) && st.doneCtr == c.n
    ensures st'.doneCtr == c.n
  {
    hide Inv, CountedOk, FinOk, RecordNext;
    CounterFacts(c, st);
    CounterFacts(c, st');
    RecordDone(c, st, st', s, a);
    DoneBound(c, st'.rec, st'.fin, st'.prev, st'.counted, st'.doneCtr, st'.stopped, st'.ranAt);
  }

  lemma StepStop(c: Config, st: State, st': State, step: Step, s: Sched)
    requires Inv(c, st) && Inv(c, st') && NextStep(c, st, st', step) && st.doneCtr == c.n
    ensures st'.doneCtr == c.n && B(Reports(step, s)) + StopStage(st', s) <= StopStage(st, s)
  {
    hide Inv, StopStage, ClientNext, CheckNext, BalanceNext, ExecNext, NotifyNext, RecordNext;
    match step
    case RecordStep(s1, a) =>
      DoneStays(c, st, st', s1, a);
      StoppedMeans(c, st);
      if s1 == s { StopOwn(c, st, st', s, a); } else { RecordOther(c, st, st', s1, a, s); StopOther(st, st', s); }
    case ClientStep(s1, a) => ClientFrame(c, st, st', s1, a); StopOther(st, st', s);
    case CheckStep(s1, a) => CheckFrame(c, st, st', s1, a); StopOther(st, st', s);
    case BalanceStep(s1, a) => BalanceFrame(c, st, st', s1, a); StopOther(st, st', s);
    case ExecStep(s1, k, a) => ExecFrame(c, st, st', s1, k, a); StopOther(st, st', s);
    case NotifyStep(s1, a) => NotifyFrame(c, st, st', s1, a); StopOther(st, st', s);
  }

  lemma {:induction false} StopCount(c: Config, states: seq<State>, steps: seq<Step>, s: Sched, i: nat)
    requires WellFormed(c) && IsRun(c, states, steps) && Inv(c, states[0]) && states[0].doneCtr == c.n && i <= |steps|
    ensures states[i].doneCtr == c.n
    ensures TotalTo((j: nat) => B(j < |steps| && Reports(steps[j], s)), i) + StopStage(states[i], s)
            <= StopStage(states[0], s)
  {
    hide WellFormed, NextStep, Inv, StopStage, Reports;
    if i > 0 {
      StopCount(c, states, steps, s, i - 1);
      RunInv(c, states, steps, i - 1);
      RunInv(c, states, steps, i);
      StepStop(c, states[i - 1], states[i], steps[i - 1], s);
    }
  }

  /**
    Once all tasks are reported, the reporting thread of each scheduler takes at most four more steps: it locks,
    leaves the loop after one compare_swap at the latest, unlocks, and sees that it can stop.
  */
  lemma StopsSoon(c: Config, states: seq<State>, steps: seq<Step>, s: Sched)
    requires WellFormed(c) && IsRun(c, states, steps) && Reachable(c, states[0]) && states[0].doneCtr == c.n
    ensures Number(states, steps, (st, step) => Reports(step, s)) <= 4
  {
    hide WellFormed, NextStep, Reachable, Inv;
    ReachableInv(c, states[0]);
    StopCount(c, states, steps, s, |steps|);
    SameTotal((j: nat) => B(j < |steps| && Reports(steps[j], s)),
              (j: nat) => B(j < |steps| && ((st: State, step: Step) => Reports(step, s))(states[j], steps[j])),
              |steps|);
  }
}
