/** From a generated graph to the initial state of the protocol: in-degrees, task records, batches. */
module DagWorkload {
  import opened MatrixModel
  import opened MatrixInvariant
  import opened MatrixBasics
  import opened MatrixBound
  import opened MatrixCompletion
  import opened DagGenerators
  import opened Arith

  // ---------- Submission ----------

  /** Tasks below n that go to scheduler s of m. */
  function RoundRobin(m: nat, s: nat, n: nat): seq<nat>
    requires m >= 1
  {
    if n == 0 then [] else RoundRobin(m, s, n - 1) + (if (n - 1) % m == s then [n - 1] else [])
  }

  function RoundRobins(m: nat, n: nat): seq<seq<nat>>
    requires m >= 1
  {
    seq(m, s requires 0 <= s => RoundRobin(m, s, n))
  }

  method SubmitBestCase(n: nat, m: nat) returns (batches: seq<seq<nat>>)
    requires m >= 1
    ensures batches == RoundRobins(m, n)
  {
    batches := [];
    for i := 0 to m
      invariant |batches| == i && forall s :: 0 <= s < i ==> batches[s] == []
    {
      batches := batches + [[]];
    }
    for i := 0 to n
      invariant |batches| == m && forall s :: 0 <= s < m ==> batches[s] == RoundRobin(m, s, i)
    {
      var to := i % m;
      batches := batches[to := batches[to] + [i]];
    }
  }

  function AllTasks(n: nat): seq<nat> { if n == 0 then [] else AllTasks(n - 1) + [n - 1] }

  /** All tasks go to one scheduler. */
  function ToOne(m: nat, target: nat, n: nat): seq<seq<nat>> {
    seq(m, s => if s == target then AllTasks(n) else [])
  }

  ghost predicate InSome(batches: seq<seq<nat>>, t: nat) { exists s: nat :: s < |batches| && t in batches[s] }

  /** Every task below n is in exactly one batch, once. */
  ghost predicate Partition(batches: seq<seq<nat>>, n: nat) {
    && (forall s: nat, t: nat :: s < |batches| ==> multiset(batches[s])[t] <= 1)
    && (forall s: nat, s': nat, t: nat ::
          s < |batches| && s' < |batches| && t in batches[s] && t in batches[s'] ==> s == s')
    && (forall s: nat, t: nat :: s < |batches| && t in batches[s] ==> t < n)
    && (forall t: nat :: t < n ==> InSome(batches, t))
    && Sum(Lengths(batches)) == n
  }

  function Lengths(batches: seq<seq<nat>>): seq<int> { seq(|batches|, s requires 0 <= s < |batches| => |batches[s]|) }

  lemma {:induction false} RoundRobinHas(m: nat, s: nat, n: nat, t: nat)
    requires m >= 1
    ensures t in RoundRobin(m, s, n) <==> t < n && t % m == s
    ensures multiset(RoundRobin(m, s, n))[t] <= 1
  {
    if n > 0 { RoundRobinHas(m, s, n - 1, t); }
  }

  /** The i-th task that goes to scheduler s. */
  lemma {:induction false} RoundRobinAt(m: nat, s: nat, n: nat, i: nat)
    requires m >= 1 && s < m && i < |RoundRobin(m, s, n)|
    ensures RoundRobin(m, s, n)[i] == s + i * m
    ensures |RoundRobin(m, s, n)| == (n + m - 1 - s) / m
  {
    RoundRobinSize(m, s, n);
    if i == |RoundRobin(m, s, n)| - 1 && (n - 1) % m == s {
      RoundRobinSize(m, s, n - 1);
      Multiples(m, s, n - 1);
    } else {
      RoundRobinAt(m, s, n - 1, i);
    }
  }

  /** n is s plus as many multiples of m as there are tasks of s below it. */
  lemma Multiples(m: nat, s: nat, n: nat)
    requires m >= 1 && s < m && n % m == s
    ensures n == s + (n + m - 1 - s) / m * m
  {
    DivMod(n, m);
    DivUnique(n + m - 1 - s, m, n / m);
  }

  lemma {:induction false} RoundRobinSize(m: nat, s: nat, n: nat)
    requires m >= 1 && s < m
    ensures |RoundRobin(m, s, n)| == (n + m - 1 - s) / m
  {
    if n == 0 {
      DivUnique(m - 1 - s, m, 0);
    } else {
      RoundRobinSize(m, s, n - 1);
      SizeStep(m, s, n - 1);
    }
  }

  lemma SizeStep(m: nat, s: nat, n: nat)
    requires m >= 1 && s < m
    ensures (n + 1 + m - 1 - s) / m == (n + m - 1 - s) / m + (if n % m == s then 1 else 0)
  {
    DivMod(n, m);
    var q := n / m;
    Next(q, m);
    Next(q - 1, m);
    var r := n % m;
    assert n == q * m + r;
    if r < s {
      DivUnique(n + m - 1 - s, m, q);
      DivUnique(n + m - s, m, q);
    } else if r == s {
      DivUnique(n + m - 1 - s, m, q);
      DivUnique(n + m - s, m, q + 1);
    } else {
      DivUnique(n + m - 1 - s, m, q + 1);
      DivUnique(n + m - s, m, q + 1);
    }
  }

  lemma {:induction false} AllTasksAt(n: nat, i: nat)
    requires i < n
    ensures |AllTasks(n)| == n && AllTasks(n)[i] == i
  {
    AllTasksOnce(n, i);
    if i < n - 1 {
      AllTasksAt(n - 1, i);
    } else {
      AllTasksOnce(n - 1, i);
    }
  }

  lemma {:induction false} RoundRobinSum(m: nat, n: nat)
    requires m >= 1
    ensures Sum(Lengths(RoundRobins(m, n))) == n
  {
    if n == 0 {
      SumZero(Lengths(RoundRobins(m, 0)));
    } else {
      RoundRobinSum(m, n - 1);
      SumSame(Lengths(RoundRobins(m, n - 1)), Lengths(RoundRobins(m, n)), (n - 1) % m);
    }
  }

  /** The best-case submission loses and duplicates no task. */
  lemma BestCasePartition(m: nat, n: nat)
    requires m >= 1
    ensures Partition(RoundRobins(m, n), n)
  {
    var b := RoundRobins(m, n);
    RoundRobinSum(m, n);
    forall s: nat, t: nat | s < m
      ensures (t in b[s] <==> t < n && t % m == s) && multiset(b[s])[t] <= 1
    {
      RoundRobinHas(m, s, n, t);
    }
    forall t: nat | t < n
      ensures InSome(b, t)
    {
      assert t in b[t % m];
    }
  }

  lemma SnocCount(s: seq<nat>, x: nat, t: nat)
    ensures multiset(s + [x])[t] == multiset(s)[t] + (if x == t then 1 else 0)
    ensures t !in s ==> multiset(s)[t] == 0
  {
  }

  lemma {:induction false} AllTasksOnce(n: nat, t: nat)
    ensures t in AllTasks(n) <==> t < n
    ensures multiset(AllTasks(n))[t] <= 1
    ensures |AllTasks(n)| == n
  {
    if n > 0 {
      AllTasksOnce(n - 1, t);
      SnocCount(AllTasks(n - 1), n - 1, t);
    }
  }

  /** So does the worst-case submission. */
  lemma WorstCasePartition(m: nat, target: nat, n: nat)
    requires target < m
    ensures Partition(ToOne(m, target, n), n)
  {
    var b := ToOne(m, target, n);
    forall t: nat
      ensures (t in AllTasks(n) <==> t < n) && multiset(AllTasks(n))[t] <= 1
    {
      AllTasksOnce(n, t);
    }
    AllTasksOnce(n, 0);
    forall t: nat | t < n
      ensures InSome(b, t)
    {
      assert t in b[target];
    }
    var z := Lengths(ToOne(m, target, 0));
    SumZero(z);
    SumSame(z, Lengths(b), target);
  }

  // ---------- Task records ----------

  ghost function ConfigOf(adj: AdjList, n: nat, m: nat, cores: nat, threshold: int, batches: seq<seq<nat>>): Config
    requires forall v: nat :: v < n ==> v in adj
  {
    Config(n, seq(n, v requires 0 <= v < n => adj[v]), seq(n, v => 0), m, cores, threshold, batches)
  }

  ghost predicate Generated(c: Config, adj: AdjList, n: nat) {
    && Ascending(adj, n) && c.n == n && |c.children| == n
    && forall v: nat :: v < n ==> c.children[v] == adj[v]
  }

  ghost function EdgesAmong(adj: AdjList, k: nat, v: nat): set<Edge>
    requires forall u: nat :: u < k ==> u in adj
  {
    set p: nat, i: nat | 0 <= p < k && 0 <= i < |adj[p]| && adj[p][i] == v :: Edge(p, i)
  }

  ghost function EdgesAt(s: seq<nat>, p: nat, k: nat, v: nat): set<Edge>
    requires k <= |s|
  {
    set i: nat | 0 <= i < k && s[i] == v :: Edge(p, i)
  }

  lemma {:induction false} EdgesAtCount(s: seq<nat>, p: nat, k: nat, v: nat)
    requires k <= |s|
    ensures |EdgesAt(s, p, k, v)| == Occurs(s[..k], v)
  {
    if k == 0 {
      assert EdgesAt(s, p, k, v) == {};
    } else {
      EdgesAtCount(s, p, k - 1, v);
      OccursStep(s, k - 1, v);
      EdgesAtStep(s, p, k, v);
    }
  }

  lemma EdgesAtStep(s: seq<nat>, p: nat, k: nat, v: nat)
    requires 0 < k <= |s|
    ensures |EdgesAt(s, p, k, v)| == |EdgesAt(s, p, k - 1, v)| + (if s[k - 1] == v then 1 else 0)
  {
    var a := EdgesAt(s, p, k - 1, v);
    if s[k - 1] == v {
      assert EdgesAt(s, p, k, v) == a + {Edge(p, k - 1)};
      assert Edge(p, k - 1) !in a;
    } else {
      assert EdgesAt(s, p, k, v) == a;
    }
  }

  lemma EdgesAmongStep(adj: AdjList, k: nat, v: nat)
    requires k > 0 && forall u: nat :: u < k ==> u in adj
    ensures |EdgesAmong(adj, k, v)| == |EdgesAmong(adj, k - 1, v)| + |EdgesAt(adj[k - 1], k - 1, |adj[k - 1]|, v)|
  {
    var a, b := EdgesAmong(adj, k - 1, v), EdgesAt(adj[k - 1], k - 1, |adj[k - 1]|, v);
    assert a !! b;
    assert EdgesAmong(adj, k, v) == a + b;
  }

  lemma {:induction false} EdgesAmongCount(adj: AdjList, k: nat, v: nat)
    requires forall u: nat :: u < k ==> u in adj
    ensures |EdgesAmong(adj, k, v)| == EdgesTo(adj, k, v)
  {
    if k == 0 {
      assert EdgesAmong(adj, k, v) == {};
    } else {
      var s := adj[k - 1];
      EdgesAmongCount(adj, k - 1, v);
      EdgesAtCount(s, k - 1, |s|, v);
      assert s[..|s|] == s;
      EdgesAmongStep(adj, k, v);
    }
  }

  /** The computed in-degrees are the in-degrees of the protocol's task graph. */
  lemma IndegreeIsInDeg(c: Config, adj: AdjList, n: nat, v: nat)
    requires Generated(c, adj, n)
    ensures EdgesTo(adj, n, v) == InDeg(c, v)
  {
    EdgesAmongCount(adj, n, v);
    assert EdgesAmong(adj, n, v) == EdgesInto(c, v);
  }

  /** In-degrees sum to the number of edges. */
  lemma IndegreeSum(c: Config, adj: AdjList, n: nat)
    requires Generated(c, adj, n)
    ensures Sum(seq(n, v requires 0 <= v < n => EdgesTo(adj, n, v))) == EdgeCount(c)
  {
    forall v: nat | v < n
      ensures EdgesTo(adj, n, v) == InDegs(c)[v]
    {
      IndegreeIsInDeg(c, adj, n, v);
    }
    assert seq(n, v requires 0 <= v < n => EdgesTo(adj, n, v)) == InDegs(c);
    Handshake(c);
  }

  /** The records the client stores before it submits anything. */
  method InsertTaskInfo(adj: AdjList, deg: map<nat, nat>) returns (zht: map<Task, Value>)
    requires Closed(adj, |adj|) && forall v: nat :: v < |adj| ==> v in deg
    ensures forall v: nat :: v in zht <==> v < |adj|
    ensures forall v: nat :: v < |adj| ==> zht[v] == Value(deg[v], adj[v], [], [], [], 0, 0)
  {
    zht := map[];
    for i := 0 to |adj|
      invariant forall v: nat :: v in zht <==> v < i
      invariant forall v: nat :: v < i ==> zht[v] == Value(deg[v], adj[v], [], [], [], 0, 0)
    {
      zht := zht[i := Value(deg[i], adj[i], [], [], [], 0, 0)];
    }
  }

  // ---------- Generated workloads meet the protocol's requirements ----------

  lemma WorkloadBatches(c: Config, batches: seq<seq<nat>>, t: Task)
    requires c.batch == batches && |batches| == c.numSched && Partition(batches, c.n)
    ensures Sum(BatchSizes(c)) == c.n && (t < c.n ==> Submitted(c, t))
    ensures forall s: nat :: multiset(Batch(c, s))[t] <= 1 && (t in Batch(c, s) ==> t < c.n)
    ensures forall s: nat, s': nat :: t in Batch(c, s) && t in Batch(c, s') ==> s == s'
  {
    assert BatchSizes(c) == Lengths(batches);
    if t < c.n {
      assert InSome(batches, t);
      var s: nat :| s < |batches| && t in batches[s];
      assert t in Batch(c, s);
    }
  }

  lemma WorkloadWellFormed(adj: AdjList, n: nat, m: nat, cores: nat, threshold: int, batches: seq<seq<nat>>)
    requires Ascending(adj, n) && m >= 1 && cores >= 1 && threshold >= 0 && |batches| == m && Partition(batches, n)
    ensures WellFormed(ConfigOf(adj, n, m, cores, threshold, batches))
  {
    hide Partition, Submitted, Batch, BatchSizes;
    var c := ConfigOf(adj, n, m, cores, threshold, batches);
    WorkloadBatches(c, batches, 0);
    forall t: nat | t < c.n
      ensures Submitted(c, t)
    {
      WorkloadBatches(c, batches, t);
    }
    forall s: nat, t: nat
      ensures multiset(Batch(c, s))[t] <= 1 && (t in Batch(c, s) ==> t < c.n)
    {
      WorkloadBatches(c, batches, t);
    }
    forall s: nat, s': nat, t: nat | t in Batch(c, s) && t in Batch(c, s')
      ensures s == s'
    {
      WorkloadBatches(c, batches, t);
    }
    forall p: nat, i: nat | p < c.n && i < |Kids(c, p)|
      ensures Kids(c, p)[i] < c.n
    {
      assert adj[p][i] < n;
    }
  }

  lemma WorkloadAcyclic(adj: AdjList, n: nat, m: nat, cores: nat, threshold: int, batches: seq<seq<nat>>)
    requires Ascending(adj, n)
    ensures Acyclic(ConfigOf(adj, n, m, cores, threshold, batches))
  {
    var c := ConfigOf(adj, n, m, cores, threshold, batches);
    var order: seq<int> := seq(n, v => v);
    forall p: nat, i: nat | p < c.n && i < |Kids(c, p)| && Kids(c, p)[i] < c.n
      ensures order[p] < order[Kids(c, p)[i]]
    {
      assert p < adj[p][i] < n;
    }
    assert Topological(c, order);
  }

  /** Whatever graph is generated, however it is submitted, the protocol can finish it from any state. */
  lemma GeneratedComplete(adj: AdjList, n: nat, m: nat, cores: nat, threshold: int, batches: seq<seq<nat>>, st: State)
    requires Ascending(adj, n) && m >= 1 && cores >= 1 && threshold >= 0 && |batches| == m && Partition(batches, n)
    requires Reachable(ConfigOf(adj, n, m, cores, threshold, batches), st)
    ensures CanComplete(ConfigOf(adj, n, m, cores, threshold, batches), st)
  {
    hide Reachable, CanComplete, WellFormed, Acyclic, Partition;
    WorkloadWellFormed(adj, n, m, cores, threshold, batches);
    WorkloadAcyclic(adj, n, m, cores, threshold, batches);
    Progress(ConfigOf(adj, n, m, cores, threshold, batches), st);
  }

  /** The client's preparation: generate, count, store, distribute.  It yields an initial state of the protocol. */
  method Prepare(kind: DagType, d: nat, n: nat, m: nat, cores: nat, threshold: int)
      returns (zht: map<Task, Value>, batches: seq<seq<nat>>, ghost c: Config)
    requires d >= 1 && n >= 1 && m >= 1 && cores >= 1 && threshold >= 0
    ensures WellFormed(c) && Acyclic(c) && c.n == n && c.batch == batches == RoundRobins(m, n)
    ensures forall v: nat :: v < n ==> Kids(c, v) == KidsOf(kind, d, n, v)
    ensures forall v: nat :: v < n ==> ZhtAt(zht, v) == Value(InDeg(c, v), Kids(c, v), [], [], [], 0, OutSize(c, v))
  {
    hide WellFormed, Acyclic, EdgesTo, InDeg, KidsOf;
    var adj := GenDag(kind, d, n);
    SizeOf(adj, n);
    var deg := GenIndegree(adj);
    zht := InsertTaskInfo(adj, deg);
    batches := SubmitBestCase(n, m);
    c := ConfigOf(adj, n, m, cores, threshold, batches);
    Prepared(adj, n, m, cores, threshold, deg, zht);
  }

  lemma Prepared(adj: AdjList, n: nat, m: nat, cores: nat, threshold: int, deg: map<nat, nat>, zht: map<Task, Value>)
    requires Ascending(adj, n) && m >= 1 && cores >= 1 && threshold >= 0
    requires forall v: nat :: v < n ==> v in deg && deg[v] == EdgesTo(adj, n, v)
    requires forall v: nat :: v < n ==> v in zht && zht[v] == Value(deg[v], adj[v], [], [], [], 0, 0)
    ensures var c := ConfigOf(adj, n, m, cores, threshold, RoundRobins(m, n));
            && WellFormed(c) && Acyclic(c)
            && forall v: nat :: v < n ==>
                 Kids(c, v) == adj[v] && ZhtAt(zht, v) == Value(InDeg(c, v), adj[v], [], [], [], 0, OutSize(c, v))
  {
    hide WellFormed, Acyclic, Partition, EdgesTo, InDeg;
    var c := ConfigOf(adj, n, m, cores, threshold, RoundRobins(m, n));
    BestCasePartition(m, n);
    WorkloadWellFormed(adj, n, m, cores, threshold, RoundRobins(m, n));
    WorkloadAcyclic(adj, n, m, cores, threshold, RoundRobins(m, n));
    forall v: nat | v < n
      ensures ZhtAt(zht, v) == Value(InDeg(c, v), adj[v], [], [], [], 0, OutSize(c, v))
    {
      IndegreeIsInDeg(c, adj, n, v);
    }
  }

  lemma SizeOf(adj: AdjList, n: nat)
    requires Ascending(adj, n)
    ensures |adj| == n && Closed(adj, n)
  {
    BelowCard(n);
    assert adj.Keys == Below(n);
    assert |adj.Keys| == |adj|;
  }
}
