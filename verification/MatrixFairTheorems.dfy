/** What happens in every fair behaviour, whatever the graph. */
module MatrixFairTheorems {
  import opened MatrixModel
  import opened MatrixInvariant
  import opened MatrixBasics
  import opened MatrixDispatch
  import opened MatrixRecord
  import opened MatrixMeasure
  import opened MatrixTheorems
  import opened MatrixProgress
  import opened MatrixCompletion
  import opened MatrixFairness
  import opened MatrixLiveness
  import opened MatrixFairCompletion

  // ---------- Nobody waits for ever ----------

  /** The mutex of the finish counter is free again and again. */
  lemma MutexFree(c: Config, b: Behaviour, s: Sched, i: nat) returns (j: nat)
    requires WellFormed(c) && IsBehaviour(c, b) && Fair(c, b) && s < c.numSched
    ensures i <= j && !Reporting(b.at(j), s)
  {
    hide WellFormed, IsBehaviour, Fair, Settled, Concluded, IdleAt, Inv;
    if k: nat :| !NoneStopped(b, k) {
      var m := Concludes(c, b, k);
      var n := Stops(c, b, m, s);
      j := if n < i then i else n;
      StoppedStays(c, b, n, j);
      ConcludedLater(c, b, m, j);
      StoppedMeans(c, b.at(j));
    } else {
      var m := UsefulEnds(c, b);
      m := Settling(c, b, m);
      j := MutexReleased(c, b, m, s, if m < i then i else m);
    }
  }

  lemma NotesGrow(c: Config, st: State, st': State, step: Step, t: Task)
    requires NextStep(c, st, st', step)
    ensures |NotesAt(st.notified, t)| <= |NotesAt(st'.notified, t)|
  {
    hide ClientNext, CheckNext, BalanceNext, ExecNext, NotifyNext, RecordNext;
    match step
    case ClientStep(s, a) => ClientNotes(c, st, st', s, a);
    case CheckStep(s, a) => CheckNotes(c, st, st', s, a);
    case BalanceStep(s, a) => BalanceNotes(c, st, st', s, a);
    case ExecStep(s, k, a) => ExecNotes(c, st, st', s, k, a);
    case NotifyStep(s, a) => NotifyNotes(c, st, st', s, a, t);
    case RecordStep(s, a) => RecordFields(c, st, st', s, a);
  }

  lemma ClientNotes(c: Config, st: State, st': State, s: Sched, a: ClientAct)
    requires ClientNext(c, st, st', s, a)
    ensures st'.notified == st.notified
  {
  }

  lemma CheckNotes(c: Config, st: State, st': State, s: Sched, a: CheckAct)
    requires CheckNext(c, st, st', s, a)
    ensures st'.notified == st.notified
  {
    hide Decide;
  }

  lemma BalanceNotes(c: Config, st: State, st': State, s: Sched, a: BalanceAct)
    requires BalanceNext(c, st, st', s, a)
    ensures st'.notified == st.notified
  {
    hide PoppedTops;
  }

  lemma ExecNotes(c: Config, st: State, st': State, s: Sched, k: nat, a: ExecAct)
    requires ExecNext(c, st, st', s, k, a)
    ensures st'.notified == st.notified
  {
    hide PoppedTops, InsertNew, Find;
  }

  lemma NotifyNotes(c: Config, st: State, st': State, s: Sched, a: NotifyAct, t: Task)
    requires NotifyNext(c, st, st', s, a)
    ensures |NotesAt(st.notified, t)| <= |NotesAt(st'.notified, t)|
  {
  }

  lemma {:induction false} NotesKept(c: Config, b: Behaviour, i: nat, j: nat, t: Task)
    requires IsBehaviour(c, b) && i <= j
    ensures |NotesAt(b.at(i).notified, t)| <= |NotesAt(b.at(j).notified, t)|
    decreases j
  {
    hide Init, NextStep;
    if i < j {
      NotesKept(c, b, i, j - 1, t);
      assert StepAt(c, b, j - 1);
      if b.step(j - 1).Some? { NotesGrow(c, b.at(j - 1), b.at(j), b.step(j - 1).value, t); }
    }
  }

  lemma ReadyStays(c: Config, b: Behaviour, i: nat, j: nat, t: Task)
    requires WellFormed(c) && IsBehaviour(c, b) && i <= j && t < c.n && Ready(c, b.at(i).notified, t)
    ensures Ready(c, b.at(j).notified, t)
  {
    hide WellFormed, IsBehaviour, Inv, InDeg, NoteOk;
    WfChildren(c);
    NotesKept(c, b, i, j, t);
    InvAt(c, b, j);
    NoteFacts(c, b.at(j), t);
    NotesBound(c, b.at(j).notified, b.at(j).ranAt, t);
  }

  lemma NotHere(c: Config, st: State, s: Sched, t: Task)
    requires Inv(c, st) && st.doneCtr == c.n
    ensures !Here(st, s, t)
  {
    hide Inv;
    AllDone(c, st);
  }

  /** A ready task does not stay in the wait queue of a scheduler, or with its checking thread, for ever. */
  lemma NoReadyWaits(c: Config, b: Behaviour, s: Sched, t: Task, i: nat) returns (j: nat)
    requires WellFormed(c) && IsBehaviour(c, b) && Fair(c, b) && s < c.numSched && t < c.n
    requires Ready(c, b.at(i).notified, t)
    ensures i <= j && !Here(b.at(j), s, t)
  {
    hide WellFormed, IsBehaviour, Fair, Concluded, IdleAt, Inv, Here, Ready;
    if k: nat :| !NoneStopped(b, k) {
      var m := Concludes(c, b, k);
      j := if m < i then i else m;
      ConcludedLater(c, b, m, j);
      NotHere(c, b.at(j), s, t);
    } else {
      var m := UsefulEnds(c, b);
      j := if m < i then i else m;
      TailLater(c, b, m, j);
      ReadyStays(c, b, i, j, t);
      InvAt(c, b, j);
      ReadyRecord(c, b.at(j), t);
      NoneReadyWaits(c, b, j, s, t);
    }
  }

  // ---------- The tasks that are executed ----------

  /** The set contains each task all of whose parents it contains. */
  ghost predicate ParentClosed(c: Config, ts: set<Task>) {
    forall t: nat :: t < c.n && ParentsWithin(c, t, ts) ==> t in ts
  }

  ghost predicate ParentsWithin(c: Config, t: Task, ts: set<Task>) {
    forall e: Edge :: e.p < c.n && Into(c, e, t) ==> e.p in ts
  }

  /** No chain of parents of t goes on for ever: t is neither on a cycle nor below one. */
  ghost predicate Grounded(c: Config, t: Task) { forall ts: set<Task> :: ParentClosed(c, ts) ==> t in ts }

  ghost predicate AtMostGrounded(c: Config, st: State) { forall t: nat :: t in st.runs ==> t < c.n && Grounded(c, t) }

  /** Whatever is executed is in each closed set, by its place in the order of executions. */
  lemma {:induction false} RunWithin(c: Config, st: State, ts: set<Task>, i: nat)
    requires Inv(c, st) && ParentClosed(c, ts) && i < |st.runs|
    ensures st.runs[i] < c.n && st.runs[i] in ts
    decreases i
  {
    hide Inv, Into;
    HistoryFacts(c, st);
    forall e: Edge | e.p < c.n && Into(c, e, st.runs[i])
      ensures e.p in ts
    {
      var k :| 0 <= k < i && st.runs[k] == e.p;
      RunWithin(c, st, ts, k);
    }
    assert ParentsWithin(c, st.runs[i], ts);
  }

  lemma RunsGrounded(c: Config, st: State)
    requires Inv(c, st)
    ensures AtMostGrounded(c, st)
  {
    hide Inv, ParentClosed;
    HistoryFacts(c, st);
    forall t: nat | t in st.runs
      ensures t < c.n && Grounded(c, t)
    {
      var i :| 0 <= i < |st.runs| && st.runs[i] == t;
      forall ts: set<Task> | ParentClosed(c, ts)
        ensures t in ts
      {
        RunWithin(c, st, ts, i);
      }
    }
  }

  /** At a quiet end the tasks done are closed. */
  lemma DoneClosed(c: Config, b: Behaviour, m: nat) returns (ts: set<Task>)
    requires Settled(c, b, m) && Quiet(c, b.at(m))
    ensures ParentClosed(c, ts) && forall t: nat :: t in ts ==> t < c.n && DoneWith(b.at(m), t)
  {
    hide Settled, Quiet, DoneWith, Into;
    ts := set t: nat | t < c.n && DoneWith(b.at(m), t);
    forall t: nat | t < c.n && ParentsWithin(c, t, ts)
      ensures t in ts
    {
      DoneAfterParents(c, b, m, t);
    }
  }

  lemma DoneRan(c: Config, st: State, t: Task)
    requires Inv(c, st) && DoneWith(st, t)
    ensures t in st.runs
  {
    hide Inv, Cnt;
    HistoryFacts(c, st);
  }

  ghost predicate ExecutedAt(c: Config, b: Behaviour, j: nat) {
    forall t: nat :: t in b.at(j).runs <==> t < c.n && Grounded(c, t)
  }

  /** On any graph a fair behaviour executes exactly the tasks that are neither on a cycle nor below one. */
  lemma FairExecution(c: Config, b: Behaviour) returns (i: nat)
    requires WellFormed(c) && IsBehaviour(c, b) && Fair(c, b)
    ensures forall j: nat :: i <= j ==> ExecutedAt(c, b, j)
  {
    hide WellFormed, IsBehaviour, Fair, Concluded, Settled, Quiet, Inv, IdleAt, Grounded;
    if k: nat :| !NoneStopped(b, k) {
      i := Concludes(c, b, k);
      forall j: nat | i <= j
        ensures ExecutedAt(c, b, j)
      {
        ConcludedLater(c, b, i, j);
        AllDone(c, b.at(j));
        RunsGrounded(c, b.at(j));
      }
    } else {
      i := QuietEnd(c, b);
      forall j: nat | i <= j
        ensures ExecutedAt(c, b, j)
      {
        QuietExecuted(c, b, i, j);
      }
    }
  }

  lemma QuietExecuted(c: Config, b: Behaviour, m: nat, j: nat)
    requires Settled(c, b, m) && Quiet(c, b.at(m)) && m <= j
    ensures ExecutedAt(c, b, j)
  {
    hide Settled, Quiet, Inv, IdleAt, DoneWith, ParentClosed, Frozen;
    SettledLater(c, b, m, m);
    SettledLater(c, b, m, j);
    RunsGrounded(c, b.at(j));
    SameRuns(b.at(m), b.at(j));
    var ts := DoneClosed(c, b, m);
    forall t: nat | t < c.n && Grounded(c, t)
      ensures t in b.at(j).runs
    {
      DoneRan(c, b.at(m), t);
    }
  }

  lemma SameRuns(a: State, d: State)
    requires Frozen(a, d)
    ensures d.runs == a.runs
  {
  }
}
