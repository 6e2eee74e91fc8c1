/** Every run can be continued fairly: the threads that can take a step take turns. */
module MatrixFairRuns {
  import opened MatrixModel
  import opened MatrixInvariant
  import opened MatrixRecord
  import opened MatrixProgress
  import opened MatrixCompletion
  import opened MatrixFairness
  import opened MatrixFairCompletion

  // ---------- The threads that fairness is about ----------

  function ThreadsOf(s: Sched, cores: nat): seq<Thread> {
    [ClientThread(s), MainThread(s), CheckThread(s), StealThread(s), MonitorThread(s), NotifyThread(s), RecordThread(s)]
    + seq(cores, k requires 0 <= k => CoreThread(s, k))
  }

  function Threads(n: nat, cores: nat): seq<Thread> {
    if n == 0 then [] else Threads(n - 1, cores) + ThreadsOf(n - 1, cores)
  }

  lemma OwnThread(th: Thread, cores: nat)
    requires !th.BalanceThread? && (th.CoreThread? ==> th.k < cores)
    ensures th in ThreadsOf(th.s, cores)
  {
    var ths := ThreadsOf(th.s, cores);
    match th
    case ClientThread(_) => assert ths[0] == th;
    case MainThread(_) => assert ths[1] == th;
    case CheckThread(_) => assert ths[2] == th;
    case StealThread(_) => assert ths[3] == th;
    case MonitorThread(_) => assert ths[4] == th;
    case NotifyThread(_) => assert ths[5] == th;
    case RecordThread(_) => assert ths[6] == th;
    case CoreThread(_, k) => assert ths[7 + k] == th;
  }

  lemma {:induction false} Listed(th: Thread, n: nat, cores: nat)
    requires !th.BalanceThread? && (th.CoreThread? ==> th.k < cores) && th.s < n
    ensures th in Threads(n, cores)
  {
    if th.s == n - 1 { OwnThread(th, cores); } else { Listed(th, n - 1, cores); }
  }

  lemma CoreListed(c: Config, st: State, st': State, s: Sched, k: nat, a: ExecAct)
    requires Inv(c, st) && s < c.numSched && ExecNext(c, st, st', s, k, a)
    ensures k < c.cores
  {
    hide Inv, InsertNew, Find, PoppedTops;
    if !a.ExecStart? { CoreValid(c, st, Core(s, k)); }
  }

  lemma EnabledListed(c: Config, st: State, th: Thread)
    requires Inv(c, st) && Enabled(c, st, th) && !th.BalanceThread?
    ensures th in Threads(c.numSched, c.cores)
  {
    hide Inv, ClientNext, CheckNext, BalanceNext, ExecNext, NotifyNext, RecordNext;
    var st', step :| NextStep(c, st, st', step) && ThreadOf(step) == th;
    if step.ExecStep? { CoreListed(c, st, st', step.s, step.k, step.exec); }
    Listed(th, c.numSched, c.cores);
  }

  // ---------- Taking turns ----------

  /** A state and the threads in the order of their turns. */
  datatype Turn = Turn(st: State, ths: seq<Thread>)

  datatype Chosen = Chosen(step: Step, st: State)

  /** The position of the first thread with the property. */
  ghost function FirstWith(ths: seq<Thread>, good: Thread -> bool): (i: nat)
    ensures i <= |ths| && (i < |ths| ==> good(ths[i])) && forall k :: 0 <= k < i ==> !good(ths[k])
  {
    if ths == [] || good(ths[0]) then 0 else 1 + FirstWith(ths[1..], good)
  }

  /** The first thread that can take a step. */
  ghost function First(c: Config, x: Turn): (i: nat)
    ensures i <= |x.ths| && (i < |x.ths| ==> Runnable(c, x.st, x.ths[i]))
  {
    FirstWith(x.ths, th => Runnable(c, x.st, th))
  }

  ghost function Choice(c: Config, st: State, th: Thread): (r: Chosen)
    requires Enabled(c, st, th)
    ensures NextStep(c, st, r.st, r.step) && ThreadOf(r.step) == th
  {
    var st', step :| NextStep(c, st, st', step) && ThreadOf(step) == th;
    Chosen(step, st')
  }

  ghost function TurnStep(c: Config, x: Turn): (o: Option<Step>)
    ensures o.Some? ==> o.value.s !in x.st.stopped
  {
    var i := First(c, x);
    if i < |x.ths| then Some(Choice(c, x.st, x.ths[i]).step) else None
  }

  /** The thread that took its turn goes to the end. */
  ghost function NextTurn(c: Config, x: Turn): (y: Turn) {
    var i := First(c, x);
    if i < |x.ths| then Turn(Choice(c, x.st, x.ths[i]).st, ToEnd(x.ths, i)) else x
  }

  ghost function TurnAt(c: Config, x: Turn, i: nat): Turn { if i == 0 then x else NextTurn(c, TurnAt(c, x, i - 1)) }

  ghost function Index(ths: seq<Thread>, th: Thread): (i: nat) { FirstWith(ths, other => other == th) }

  ghost function ToEnd(ths: seq<Thread>, i: nat): seq<Thread>
    requires i < |ths|
  {
    ths[..i] + ths[i + 1..] + [ths[i]]
  }

  /** When the thread at i goes to the end, one behind it moves up and one before it stays. */
  lemma ToEndIndex(ths: seq<Thread>, i: nat, th: Thread)
    requires i < |ths| && th in ths
    ensures th in ToEnd(ths, i)
    ensures ths[i] != th ==>
              var k := Index(ths, th);
              k != i && Index(ToEnd(ths, i), th) <= (if i < k then k - 1 else k)
  {
    var ys, k := ToEnd(ths, i), Index(ths, th);
    assert ys[|ys| - 1] == ths[i];
    if i < k { assert ys[k - 1] == th; } else if k < i { assert ys[k] == th; }
  }

  ghost predicate Taking(c: Config, x: Turn, th: Thread) {
    TurnStep(c, x).Some? && ThreadOf(TurnStep(c, x).value) == th
  }

  lemma FirstBefore(c: Config, x: Turn, th: Thread)
    requires th in x.ths && Runnable(c, x.st, th)
    ensures First(c, x) <= Index(x.ths, th)
  {
    hide Runnable;
    assert First(c, x) <= |x.ths|;
  }

  /** Others only move behind a thread, and one that could have taken its turn gets nearer to the front. */
  lemma TurnIndex(c: Config, x: Turn, th: Thread)
    requires th in x.ths
    ensures th in NextTurn(c, x).ths
    ensures !Taking(c, x, th) ==>
              && Index(NextTurn(c, x).ths, th) <= Index(x.ths, th)
              && (Runnable(c, x.st, th) ==> Index(NextTurn(c, x).ths, th) < Index(x.ths, th))
  {
    hide Enabled, NextStep, Index, First;
    var i := First(c, x);
    if i < |x.ths| { ToEndIndex(x.ths, i, th); }
    if Runnable(c, x.st, th) {
      FirstBefore(c, x, th);
      IndexBelow(x.ths, th);
    }
  }

  lemma IndexBelow(ths: seq<Thread>, th: Thread)
    requires th in ths
    ensures Index(ths, th) < |ths|
  {
  }

  lemma {:induction false} StaysListed(c: Config, x: Turn, th: Thread, i: nat)
    requires th in x.ths
    ensures th in TurnAt(c, x, i).ths
  {
    hide NextTurn, TurnStep, Runnable;
    if i > 0 {
      StaysListed(c, x, th, i - 1);
      TurnIndex(c, TurnAt(c, x, i - 1), th);
    }
  }

  // ---------- A run and its fair continuation ----------

  ghost predicate OnlyRunning(b: Behaviour, i: nat) { b.step(i).Some? ==> b.step(i).value.s !in b.at(i).stopped }

  /** From n on the threads take turns. */
  ghost predicate TakesTurns(c: Config, b: Behaviour, n: nat, x: Turn) {
    forall i: nat :: n <= i ==> InTurn(c, b, n, x, i)
  }

  ghost predicate InTurn(c: Config, b: Behaviour, n: nat, x: Turn, i: nat)
    requires n <= i
  {
    var y := TurnAt(c, x, i - n);
    b.at(i) == y.st && b.at(i + 1) == NextTurn(c, y).st && b.step(i) == TurnStep(c, y)
  }

  ghost function Continued(c: Config, states: seq<State>, steps: seq<Step>, x: Turn): Behaviour
    requires |states| == |steps| + 1
  {
    Behaviour((i: nat) => if i < |steps| then states[i] else TurnAt(c, x, i - |steps|).st,
              (i: nat) => if i < |steps| then Some(steps[i]) else TurnStep(c, TurnAt(c, x, i - |steps|)))
  }

  lemma ContinuedAt(c: Config, states: seq<State>, steps: seq<Step>, x: Turn, i: nat)
    requires |states| == |steps| + 1 && x.st == states[|steps|] && i <= |steps|
    ensures Continued(c, states, steps, x).at(i) == states[i]
    ensures i < |steps| ==> Continued(c, states, steps, x).step(i) == Some(steps[i])
  {
    assert TurnAt(c, x, 0) == x;
  }

  lemma ContinuedTurns(c: Config, states: seq<State>, steps: seq<Step>, x: Turn)
    requires |states| == |steps| + 1
    ensures TakesTurns(c, Continued(c, states, steps, x), |steps|, x)
  {
    hide NextTurn, TurnStep;
    var b := Continued(c, states, steps, x);
    forall i: nat | |steps| <= i
      ensures InTurn(c, b, |steps|, x, i)
    {
      assert TurnAt(c, x, i + 1 - |steps|) == NextTurn(c, TurnAt(c, x, i - |steps|));
    }
  }

  lemma InTurnStep(c: Config, b: Behaviour, n: nat, x: Turn, i: nat)
    requires n <= i && InTurn(c, b, n, x, i)
    ensures StepAt(c, b, i) && OnlyRunning(b, i)
  {
    hide NextStep, Enabled;
  }

  lemma ContinuedBehaviour(c: Config, states: seq<State>, steps: seq<Step>, x: Turn)
    requires IsRun(c, states, steps) && Init(c, states[0]) && x.st == states[|steps|]
    ensures IsBehaviour(c, Continued(c, states, steps, x))
  {
    hide NextStep, TurnStep, NextTurn, Init;
    var b, n := Continued(c, states, steps, x), |steps|;
    ContinuedTurns(c, states, steps, x);
    forall i: nat
      ensures StepAt(c, b, i)
    {
      if i < n {
        assert NextStep(c, states[i], states[i + 1], steps[i]);
        ContinuedAt(c, states, steps, x, i);
        ContinuedAt(c, states, steps, x, i + 1);
      } else {
        assert InTurn(c, b, n, x, i);
        InTurnStep(c, b, n, x, i);
      }
    }
    ContinuedAt(c, states, steps, x, 0);
  }

  ghost function IndexAt(c: Config, x: Turn, n: nat, th: Thread, j: nat): int {
    Index(TurnAt(c, x, if j < n then 0 else j - n).ths, th)
  }

  /** A thread that never takes its turn advances whenever it could. */
  lemma Advances(c: Config, b: Behaviour, n: nat, x: Turn, th: Thread, j: nat)
    requires TakesTurns(c, b, n, x) && n <= j && th in x.ths && !Takes(b, j, th)
    ensures 0 <= IndexAt(c, x, n, th, j + 1) <= IndexAt(c, x, n, th, j)
    ensures EnabledAt(c, b, j, th) ==> IndexAt(c, x, n, th, j + 1) < IndexAt(c, x, n, th, j)
  {
    hide NextTurn, TurnStep, Runnable;
    StaysListed(c, x, th, j - n);
    TurnIndex(c, TurnAt(c, x, j - n), th);
    assert InTurn(c, b, n, x, j);
    assert TurnAt(c, x, j + 1 - n) == NextTurn(c, TurnAt(c, x, j - n));
  }

  lemma TakesAgain(c: Config, b: Behaviour, n: nat, x: Turn, th: Thread, i: nat)
    requires TakesTurns(c, b, n, x) && th in x.ths && forall j: nat :: LaterEnabled(c, b, j, th)
    ensures LaterTakes(b, i, th)
  {
    hide TakesTurns, Takes, EnabledAt, IndexAt;
    if !LaterTakes(b, i, th) {
      var m := if i < n then n else i;
      var f := (j: nat) => IndexAt(c, x, n, th, j);
      forall j: nat | m <= j
        ensures Descends(f, j)
      {
        assert !Takes(b, j, th);
        Advances(c, b, n, x, th, j);
      }
      var t := Settle(f, m);
      assert LaterEnabled(c, b, t, th);
      var j: nat :| t <= j && EnabledAt(c, b, j, th);
      assert f(j) == f(t) && f(j + 1) == f(t) && !Takes(b, j, th);
      Advances(c, b, n, x, th, j);
    }
  }

  lemma TurnsFair(c: Config, b: Behaviour, n: nat, x: Turn)
    requires WellFormed(c) && IsBehaviour(c, b) && TakesTurns(c, b, n, x) && x.ths == Threads(c.numSched, c.cores)
    ensures Fair(c, b)
  {
    hide WellFormed, IsBehaviour, TakesTurns, Enabled, Inv;
    forall th: Thread | !th.BalanceThread?
      ensures FairTo(c, b, th)
    {
      if forall j: nat :: LaterEnabled(c, b, j, th) {
        assert LaterEnabled(c, b, 0, th);
        var j: nat :| EnabledAt(c, b, j, th);
        InvAt(c, b, j);
        EnabledListed(c, b.at(j), th);
        forall i: nat
          ensures LaterTakes(b, i, th)
        {
          TakesAgain(c, b, n, x, th, i);
        }
      }
    }
  }

  /** The behaviour starts with the run, and after it only running schedulers take steps. */
  ghost predicate Extends(b: Behaviour, states: seq<State>, steps: seq<Step>) {
    && |states| == |steps| + 1
    && (forall i: nat :: i <= |steps| ==> b.at(i) == states[i])
    && (forall i: nat :: i < |steps| ==> b.step(i) == Some(steps[i]))
    && (forall i: nat :: |steps| <= i ==> OnlyRunning(b, i))
  }

  /** Fairness rules out no run: each is the beginning of a fair behaviour. */
  lemma FairExtension(c: Config, states: seq<State>, steps: seq<Step>) returns (b: Behaviour)
    requires WellFormed(c) && IsRun(c, states, steps) && Init(c, states[0])
    ensures IsBehaviour(c, b) && Fair(c, b) && Extends(b, states, steps)
  {
    hide WellFormed, IsRun, Init, TakesTurns, IsBehaviour, Fair, InTurn, OnlyRunning, NextTurn, TurnStep;
    assert |states| == |steps| + 1 by { RunLength(c, states, steps); }
    var x := Turn(states[|steps|], Threads(c.numSched, c.cores));
    b := Continued(c, states, steps, x);
    ContinuedBehaviour(c, states, steps, x);
    ContinuedTurns(c, states, steps, x);
    TurnsFair(c, b, |steps|, x);
    forall i: nat | i <= |steps|
      ensures b.at(i) == states[i] && (i < |steps| ==> b.step(i) == Some(steps[i]))
    {
      ContinuedAt(c, states, steps, x, i);
    }
    forall i: nat | |steps| <= i
      ensures OnlyRunning(b, i)
    {
      TurnRunning(c, b, |steps|, x, i);
    }
  }

  lemma RunLength(c: Config, states: seq<State>, steps: seq<Step>)
    requires IsRun(c, states, steps)
    ensures |states| == |steps| + 1
  {
  }

  lemma TurnRunning(c: Config, b: Behaviour, n: nat, x: Turn, i: nat)
    requires TakesTurns(c, b, n, x) && n <= i
    ensures OnlyRunning(b, i)
  {
    hide InTurn, OnlyRunning;
    InTurnStep(c, b, n, x, i);
  }

  /** There are fair behaviours. */
  lemma FairExists(c: Config)
    requires WellFormed(c)
    ensures exists b: Behaviour :: IsBehaviour(c, b) && Fair(c, b)
  {
    hide WellFormed, Init, IsBehaviour, Fair, NextStep, Extends;
    InitExists(c);
    var b := FairExtension(c, [Start0(c)], []);
  }

  // ---------- Completion without the threads of stopped schedulers ----------

  /** Each step is one of a scheduler that has not stopped. */
  ghost predicate RunningRun(c: Config, states: seq<State>, steps: seq<Step>) {
    IsRun(c, states, steps) && forall i :: 0 <= i < |steps| ==> steps[i].s !in states[i].stopped
  }

  /** The steps of a behaviour between two points, without its pauses. */
  lemma {:induction false} Segment(c: Config, b: Behaviour, i: nat, j: nat)
    returns (states: seq<State>, steps: seq<Step>)
    requires IsBehaviour(c, b) && i <= j && forall k: nat :: i <= k ==> OnlyRunning(b, k)
    ensures RunningRun(c, states, steps) && states[0] == b.at(i) && states[|steps|] == b.at(j)
    decreases j
  {
    hide Init, NextStep;
    if i == j {
      states, steps := [b.at(i)], [];
    } else {
      var xs, ys := Segment(c, b, i, j - 1);
      assert StepAt(c, b, j - 1) && OnlyRunning(b, j - 1);
      if b.step(j - 1).Some? {
        states, steps := xs + [b.at(j)], ys + [b.step(j - 1).value];
        RunSnoc(c, xs, ys, b.at(j), b.step(j - 1).value);
      } else {
        states, steps := xs, ys;
      }
    }
  }

  lemma RunSnoc(c: Config, states: seq<State>, steps: seq<Step>, st: State, step: Step)
    requires RunningRun(c, states, steps) && NextStep(c, states[|steps|], st, step)
             && step.s !in states[|steps|].stopped
    ensures RunningRun(c, states + [st], steps + [step])
  {
    hide NextStep;
    var states', steps' := states + [st], steps + [step];
    forall i | 0 <= i < |steps'|
      ensures NextStep(c, states'[i], states'[i + 1], steps'[i]) && steps'[i].s !in states'[i].stopped
    {
      if i < |steps| { assert NextStep(c, states[i], states[i + 1], steps[i]); }
    }
  }

  /**
    From every reachable state of an acyclic graph the schedulers that have not stopped, and they alone, can
    bring everything to its end.
  */
  lemma RunningProgress(c: Config, st: State) returns (states: seq<State>, steps: seq<Step>)
    requires WellFormed(c) && Acyclic(c) && Reachable(c, st)
    ensures RunningRun(c, states, steps) && states[0] == st && Accomplished(c, states[|steps|])
  {
    hide WellFormed, Acyclic, Init, IsBehaviour, Fair, RunningRun, NextStep, OnlyRunning, Accomplished;
    var st0 :| Init(c, st0) && CanReach(c, st0, st);
    var xs, ys :| IsRun(c, xs, ys) && xs[0] == st0 && xs[|ys|] == st;
    var b := FairExtension(c, xs, ys);
    var i := FairCompletion(c, b);
    var j := if i < |ys| then |ys| else i;
    assert AccomplishedAt(c, b, j);
    states, steps := Segment(c, b, |ys|, j);
  }
}
