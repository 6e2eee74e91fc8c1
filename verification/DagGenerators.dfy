/** The generators of task graphs: bag of tasks, fan-out, fan-in and pipeline. */
module DagGenerators {
  import opened Arith

  type AdjList = map<nat, seq<nat>>

  datatype DagType = BOT | FanOut | FanIn | Pipeline

  /** std::map::insert: an existing entry wins. */
  function Insert(m: AdjList, k: nat, v: seq<nat>): AdjList { if k in m then m else m[k := v] }

  /** lo, lo + 1, ..., hi - 1 */
  function Range(lo: nat, hi: nat): (r: seq<nat>)
    ensures |r| == if lo <= hi then hi - lo else 0
    ensures forall i :: 0 <= i < |r| ==> r[i] == lo + i
  {
    if lo >= hi then [] else Range(lo, hi - 1) + [hi - 1]
  }

  function Min(a: nat, b: nat): nat { if a < b then a else b }

  function Quot(w: nat, d: nat): (q: nat)
    requires d >= 1
    ensures q * d <= w < q * d + d
  {
    w / d
  }

  // ---------- What each kind of graph is ----------

  function FanoutKids(d: nat, n: nat, v: nat): seq<nat> { Range(v * d + 1, Min(v * d + d + 1, n)) }

  /** The task that is v's parent in the fan-out graph once v is renamed n-1-v; n if there is none. */
  function FlippedParent(d: nat, n: nat, v: nat): (p: nat)
    requires d >= 1
    ensures v + 1 < n ==> p < n - 1 - v
    ensures v + 1 >= n ==> p == n
  {
    if v + 1 < n then (QuotBounds(n - 2 - v, d, 0); Quot(n - 2 - v, d)) else n
  }

  function FaninKids(d: nat, n: nat, v: nat): seq<nat>
    requires d >= 1 && v < n
  {
    if v == n - 1 then [] else [n - 1 - FlippedParent(d, n, v)]
  }

  /** Pipelines are blocks of d consecutive tasks. */
  function PipelineKids(d: nat, n: nat, v: nat): seq<nat>
    requires d >= 1
  {
    if v + 1 < n && Quot(v + 1, d) == Quot(v, d) then [v + 1] else []
  }

  function KidsOf(kind: DagType, d: nat, n: nat, v: nat): seq<nat>
    requires d >= 1 && v < n
  {
    match kind
    case BOT => []
    case FanOut => FanoutKids(d, n, v)
    case FanIn => FaninKids(d, n, v)
    case Pipeline => PipelineKids(d, n, v)
  }

  /** Task ids are exactly 0..n-1 and every edge goes to a larger one. */
  ghost predicate Ascending(adj: AdjList, n: nat) {
    && (forall v: nat :: v in adj <==> v < n)
    && forall v: nat, j: nat :: v < n && j < |adj[v]| ==> v < adj[v][j] < n
  }

  lemma QuotBounds(w: nat, d: nat, i: nat)
    requires d >= 1
    ensures Quot(w, d) == i <==> i * d <= w < i * d + d
    ensures Quot(w, d) <= w
  {
    if i * d <= w < i * d + d { DivUnique(w, d, i); }
    MulMono(1, d, Quot(w, d));
  }

  /** In a fan-out graph task v > 0 has the sole parent (v-1)/d, and exactly one edge from it. */
  lemma FanoutSoleParent(d: nat, n: nat, p: nat, v: nat)
    requires d >= 1 && 0 < v < n
    ensures v in FanoutKids(d, n, p) <==> p == Quot(v - 1, d)
    ensures Quot(v - 1, d) < v
    ensures forall i, j :: 0 <= i < j < |FanoutKids(d, n, p)| ==> FanoutKids(d, n, p)[i] < FanoutKids(d, n, p)[j]
  {
    QuotBounds(v - 1, d, p);
    if p == Quot(v - 1, d) { assert FanoutKids(d, n, p)[v - (p * d + 1)] == v; }
  }

  /** The root of a fan-out graph has no parent. */
  lemma FanoutRoot(d: nat, n: nat, p: nat)
    ensures 0 !in FanoutKids(d, n, p)
  {
  }

  /** Fan-in is the transpose of fan-out under v -> n-1-v. */
  lemma FaninTranspose(d: nat, n: nat, u: nat, v: nat)
    requires d >= 1 && u < n && v < n
    ensures v in FaninKids(d, n, u) <==> n - 1 - u in FanoutKids(d, n, n - 1 - v)
    ensures |FaninKids(d, n, u)| <= 1
  {
    if u == n - 1 {
      FanoutRoot(d, n, n - 1 - v);
    } else {
      FanoutSoleParent(d, n, n - 1 - v, n - 1 - u);
      QuotBounds(n - 2 - u, d, 0);
    }
  }

  /** In a pipeline v leads to v + 1 and to nothing else, unless v + 1 starts a new block of d tasks. */
  lemma PipelineEdges(d: nat, n: nat, v: nat, w: nat)
    requires d >= 1
    ensures w in PipelineKids(d, n, v) <==> w == v + 1 && w < n && w % d != 0
    ensures |PipelineKids(d, n, v)| <= 1
  {
    SameBlock(v, d);
  }

  /** Is w a child of v?  In terms of the numbers alone. */
  ghost predicate HasEdge(kind: DagType, d: nat, n: nat, v: nat, w: nat)
    requires d >= 1 && v < n
  {
    match kind
    case BOT => false
    case FanOut => v * d < w <= v * d + d && w < n
    case FanIn => w < n && (n - 1 - w) * d < n - 1 - v <= (n - 1 - w) * d + d
    case Pipeline => w == v + 1 && w < n && w % d != 0
  }

  /** The edges of each kind of graph, none of them twice. */
  lemma GraphEdges(kind: DagType, d: nat, n: nat, v: nat, w: nat)
    requires d >= 1 && v < n
    ensures w in KidsOf(kind, d, n, v) <==> HasEdge(kind, d, n, v, w)
    ensures multiset(KidsOf(kind, d, n, v))[w] <= 1
  {
    match kind
    case BOT =>
    case FanOut =>
      FanoutEdges(d, n, v, w);
      OnceIfDistinct(FanoutKids(d, n, v), w);
    case FanIn =>
      FaninEdges(d, n, v, w);
      OnceIfDistinct(FaninKids(d, n, v), w);
    case Pipeline =>
      PipelineEdges(d, n, v, w);
      OnceIfDistinct(PipelineKids(d, n, v), w);
  }

  lemma FanoutEdges(d: nat, n: nat, v: nat, w: nat)
    ensures w in FanoutKids(d, n, v) <==> v * d < w <= v * d + d && w < n
    ensures forall i, j :: 0 <= i < j < |FanoutKids(d, n, v)| ==> FanoutKids(d, n, v)[i] < FanoutKids(d, n, v)[j]
  {
    if v * d < w <= v * d + d && w < n { assert FanoutKids(d, n, v)[w - (v * d + 1)] == w; }
  }

  lemma FaninEdges(d: nat, n: nat, v: nat, w: nat)
    requires d >= 1 && v < n
    ensures w in FaninKids(d, n, v) <==> w < n && (n - 1 - w) * d < n - 1 - v <= (n - 1 - w) * d + d
    ensures |FaninKids(d, n, v)| <= 1
  {
    hide FaninKids, FanoutKids;
    FaninRange(d, n, v, w);
    if w < n {
      FaninTranspose(d, n, v, w);
      FanoutEdges(d, n, n - 1 - w, n - 1 - v);
    }
  }

  lemma FaninRange(d: nat, n: nat, v: nat, w: nat)
    requires d >= 1 && v < n
    ensures w in FaninKids(d, n, v) ==> w < n
    ensures |FaninKids(d, n, v)| <= 1
  {
    hide FlippedParent;
  }

  lemma OnceIfDistinct(s: seq<nat>, x: nat)
    requires forall i, j :: 0 <= i < j < |s| ==> s[i] != s[j]
    ensures multiset(s)[x] <= 1
  {
    if x in s {
      var i :| 0 <= i < |s| && s[i] == x;
      assert s == s[..i] + [x] + s[i + 1..];
      assert x !in s[..i] && x !in s[i + 1..];
    }
  }

  /** Whatever the kind, the edges ascend. */
  lemma KidsAscend(kind: DagType, d: nat, n: nat, v: nat, j: nat)
    requires d >= 1 && v < n && j < |KidsOf(kind, d, n, v)|
    ensures v < KidsOf(kind, d, n, v)[j] < n
  {
    match kind
    case FanOut => MulMono(1, d, v);
    case FanIn => QuotBounds(n - 2 - v, d, 0);
    case _ =>
  }

  // ---------- The generators ----------

  method GenBot(n: nat) returns (adj: AdjList)
    ensures forall v: nat :: v in adj <==> v < n
    ensures forall v: nat :: v < n ==> adj[v] == []
  {
    adj := map[];
    for i := 0 to n
      invariant forall v: nat :: v in adj <==> v < i
      invariant forall v: nat :: v < i ==> adj[v] == []
    {
      adj := Insert(adj, i, []);
    }
  }

  method GenFanout(d: nat, n: nat) returns (adj: AdjList)
    ensures forall v: nat :: v in adj <==> v < n
    ensures forall v: nat :: v < n ==> adj[v] == FanoutKids(d, n, v)
  {
    adj := map[];
    for i := 0 to n
      invariant forall v: nat :: v in adj <==> v < i
      invariant forall v: nat :: v < i ==> adj[v] == FanoutKids(d, n, v)
    {
      var newList: seq<nat> := [];
      var j := 1;
      while j <= d
        invariant 1 <= j <= d + 1
        invariant newList == Range(i * d + 1, i * d + j)
        invariant j > 1 ==> i * d + j <= n
      {
        var next := i * d + j;
        if next >= n {
          break;
        }
        newList := newList + [next];
        j := j + 1;
      }
      assert newList == FanoutKids(d, n, i);
      adj := Insert(adj, i, newList);
    }
  }

  /** Tasks lo..hi-1 are the children of i in the fan-out graph. */
  ghost predicate Brood(d: nat, n: nat, i: nat, lo: nat, hi: nat)
    requires d >= 1
  {
    forall v: nat :: FlippedParent(d, n, v) == i <==> v + 1 < n && lo <= n - 1 - v < hi
  }

  lemma FanoutBrood(d: nat, n: nat, i: nat) returns (lo: nat, hi: nat)
    requires d >= 1 && i < n
    ensures FanoutKids(d, n, i) == Range(lo, hi) && Brood(d, n, i, lo, hi) && hi <= n && 0 < lo
  {
    lo, hi := i * d + 1, Min(i * d + d + 1, n);
    forall v: nat
      ensures FlippedParent(d, n, v) == i <==> v + 1 < n && lo <= n - 1 - v < hi
    {
      if v + 1 < n { QuotBounds(n - 2 - v, d, i); }
    }
  }

  /** The inner loop of GenFanin: the children of i, last first, become parents of n-1-i. */
  method Flip(adj: AdjList, d: nat, n: nat, i: nat, kids: seq<nat>, ghost lo: nat, ghost hi: nat)
      returns (adj': AdjList)
    requires d >= 1 && i < n && kids == Range(lo, hi) && Brood(d, n, i, lo, hi) && hi <= n && 0 < lo
    requires forall v: nat :: v in adj <==> FlippedParent(d, n, v) < i
    requires forall v: nat :: v in adj ==> adj[v] == FaninKids(d, n, v)
    ensures forall v: nat :: v in adj' <==> FlippedParent(d, n, v) < i + 1
    ensures forall v: nat :: v in adj' ==> adj'[v] == FaninKids(d, n, v)
  {
    hide FlippedParent, Range;
    adj' := adj;
    for j := 0 to |kids|
      invariant forall v: nat ::
                  v in adj' <==> FlippedParent(d, n, v) < i || (v + 1 < n && lo + |kids| - j <= n - 1 - v < lo + |kids|)
      invariant forall v: nat :: v in adj' ==> v < n && adj'[v] == FaninKids(d, n, v)
    {
      var child := kids[|kids| - 1 - j];
      assert FlippedParent(d, n, n - 1 - child) == i;
      adj' := Insert(adj', n - 1 - child, [n - 1 - i]);
    }
  }

  method GenFanin(d: nat, n: nat) returns (adj: AdjList)
    requires d >= 1 && n >= 1
    ensures forall v: nat :: v in adj <==> v < n
    ensures forall v: nat :: v < n ==> adj[v] == FaninKids(d, n, v)
  {
    hide FlippedParent, Range;
    var tmp := GenFanout(d, n);
    adj := map[];
    for i := 0 to n
      invariant forall v: nat :: v in adj <==> FlippedParent(d, n, v) < i
      invariant forall v: nat :: v in adj ==> v < n && adj[v] == FaninKids(d, n, v)
    {
      ghost var lo, hi := FanoutBrood(d, n, i);
      adj := Flip(adj, d, n, i, tmp[i], lo, hi);
    }
    adj := Insert(adj, n - 1, []);
  }

  method GenPipeline(d: nat, n: nat) returns (adj: AdjList)
    requires d >= 1
    ensures forall v: nat :: v in adj <==> v < n
    ensures forall v: nat :: v < n ==> adj[v] == PipelineKids(d, n, v)
  {
    hide Quot, PipelineKids;
    var numPipe := Quot(n, d);
    adj := map[];
    for i := 0 to numPipe
      invariant i * d <= numPipe * d
      invariant forall v: nat :: v in adj <==> v < i * d
      invariant forall v: nat :: v in adj ==> adj[v] == PipelineKids(d, n, v)
    {
      MulMono(i + 1, numPipe, d);
      adj := PipelineLinks(adj, d, n, i * d, i * d + d);
      assert (i + 1) * d == i * d + d;
    }
    adj := PipelineLinks(adj, d, n, numPipe * d, n);
  }

  /** The loops over j and over the remaining tasks: tasks lo..hi-1. */
  method PipelineLinks(adj: AdjList, d: nat, n: nat, lo: nat, hi: nat) returns (adj': AdjList)
    requires d >= 1 && lo <= hi
    requires forall v: nat :: v in adj <==> v < lo
    requires forall v: nat :: v in adj ==> adj[v] == PipelineKids(d, n, v)
    ensures forall v: nat :: v in adj' <==> v < hi
    ensures forall v: nat :: v in adj' ==> adj'[v] == PipelineKids(d, n, v)
  {
    hide Quot;
    adj' := adj;
    for index := lo to hi
      invariant forall v: nat :: v in adj' <==> v < index
      invariant forall v: nat :: v in adj' ==> adj'[v] == PipelineKids(d, n, v)
    {
      var next := index + 1;
      SameBlock(index, d);
      adj' := Insert(adj', index, if next % d != 0 && next < n then [next] else []);
    }
  }

  /** Consecutive tasks share a block unless the second one starts a new block. */
  lemma SameBlock(v: nat, d: nat)
    requires d >= 1
    ensures Quot(v + 1, d) == Quot(v, d) <==> (v + 1) % d != 0
  {
    var q := Quot(v, d);
    QuotBounds(v + 1, d, q);
    assert v + 1 == Quot(v + 1, d) * d + (v + 1) % d;
    if v + 1 == q * d + d { QuotBounds(v + 1, d, q + 1); assert (q + 1) * d == q * d + d; }
  }

  /** Every kind of graph has the task ids 0..n-1 and ascending edges. */
  method GenDag(kind: DagType, d: nat, n: nat) returns (adj: AdjList)
    requires d >= 1 && n >= 1
    ensures Ascending(adj, n)
    ensures forall v: nat :: v < n ==> adj[v] == KidsOf(kind, d, n, v)
  {
    match kind {
      case BOT => adj := GenBot(n);
      case FanOut => adj := GenFanout(d, n);
      case FanIn => adj := GenFanin(d, n);
      case Pipeline => adj := GenPipeline(d, n);
    }
    forall v: nat, j: nat | v < n && j < |adj[v]|
      ensures v < adj[v][j] < n
    {
      KidsAscend(kind, d, n, v, j);
    }
  }

  // ---------- In-degrees and parent lists ----------

  /** Task ids are 0..n-1 and so are all children. */
  ghost predicate Closed(adj: AdjList, n: nat) {
    && (forall v: nat :: v in adj <==> v < n)
    && forall v: nat, j: nat :: v < n && j < |adj[v]| ==> adj[v][j] < n
  }

  ghost function Occurs(s: seq<nat>, v: nat): nat { multiset(s)[v] }

  /** Number of edges into v from tasks below k. */
  ghost function EdgesTo(adj: AdjList, k: nat, v: nat): nat
    requires forall u: nat :: u < k ==> u in adj
  {
    if k == 0 then 0 else EdgesTo(adj, k - 1, v) + Occurs(adj[k - 1], v)
  }

  function Repeat(u: nat, count: nat): (r: seq<nat>)
    ensures |r| == count && forall i :: 0 <= i < count ==> r[i] == u
  {
    seq(count, i => u)
  }

  /** The parents of v below k in increasing order, one entry an edge. */
  ghost function ParentsTo(adj: AdjList, k: nat, v: nat): seq<nat>
    requires forall u: nat :: u < k ==> u in adj
  {
    if k == 0 then [] else ParentsTo(adj, k - 1, v) + Repeat(k - 1, Occurs(adj[k - 1], v))
  }

  lemma OccursStep(s: seq<nat>, j: nat, v: nat)
    requires j < |s|
    ensures Occurs(s[..j + 1], v) == Occurs(s[..j], v) + (if s[j] == v then 1 else 0)
  {
    assert s[..j + 1] == s[..j] + [s[j]];
  }

  method GenIndegree(adj: AdjList) returns (deg: map<nat, nat>)
    requires Closed(adj, |adj|)
    ensures forall v: nat :: v in deg <==> v < |adj|
    ensures forall v: nat :: v < |adj| ==> deg[v] == EdgesTo(adj, |adj|, v)
  {
    deg := map[];
    for i := 0 to |adj|
      invariant forall v: nat :: v in deg <==> v < i
      invariant forall v: nat :: v < i ==> deg[v] == 0
    {
      deg := deg[i := 0];
    }
    for i := 0 to |adj|
      invariant forall v: nat :: v in deg <==> v < |adj|
      invariant forall v: nat :: v < |adj| ==> deg[v] == EdgesTo(adj, i, v)
    {
      deg := CountChildren(deg, adj[i]);
    }
  }

  /** The inner loop of GenIndegree: one more edge into each task of `list`. */
  method CountChildren(deg: map<nat, nat>, list: seq<nat>) returns (deg': map<nat, nat>)
    requires forall j :: 0 <= j < |list| ==> list[j] in deg
    ensures deg'.Keys == deg.Keys
    ensures forall v: nat :: v in deg ==> deg'[v] == deg[v] + Occurs(list, v)
  {
    hide Occurs;
    deg' := deg;
    assert list[..0] == [];
    assert forall v: nat :: Occurs([], v) == 0 by { OccursNone(); }
    for j := 0 to |list|
      invariant deg'.Keys == deg.Keys
      invariant forall v: nat :: v in deg ==> deg'[v] == deg[v] + Occurs(list[..j], v)
    {
      forall v: nat
        ensures Occurs(list[..j + 1], v) == Occurs(list[..j], v) + (if list[j] == v then 1 else 0)
      {
        OccursStep(list, j, v);
      }
      deg' := deg'[list[j] := deg'[list[j]] + 1];
    }
    assert list[..|list|] == list;
  }

  lemma OccursNone()
    ensures forall v: nat :: Occurs([], v) == 0
  {
  }

  method GenParents(adj: AdjList) returns (parents: AdjList)
    requires Closed(adj, |adj|)
    ensures forall v: nat :: v in parents <==> v < |adj|
    ensures forall v: nat :: v < |adj| ==> parents[v] == ParentsTo(adj, |adj|, v)
  {
    parents := map[];
    for i := 0 to |adj|
      invariant forall v: nat :: v in parents <==> v < i
      invariant forall v: nat :: v < i ==> parents[v] == []
    {
      parents := Insert(parents, i, []);
    }
    for i := 0 to |adj|
      invariant forall v: nat :: v in parents <==> v < |adj|
      invariant forall v: nat :: v < |adj| ==> parents[v] == ParentsTo(adj, i, v)
    {
      parents := AddParent(parents, i, adj[i]);
    }
  }

  /** The inner loop of GenParents: i becomes a parent of each task in `list`. */
  method AddParent(parents: AdjList, i: nat, list: seq<nat>) returns (parents': AdjList)
    requires forall j :: 0 <= j < |list| ==> list[j] in parents
    ensures parents'.Keys == parents.Keys
    ensures forall v: nat :: v in parents ==> parents'[v] == parents[v] + Repeat(i, Occurs(list, v))
  {
    hide Repeat, Occurs;
    parents' := parents;
    assert list[..0] == [];
    assert forall v: nat :: Repeat(i, Occurs([], v)) == [] by { NoOccurs(i); }
    for j := 0 to |list|
      invariant parents'.Keys == parents.Keys
      invariant forall v: nat :: v in parents ==> parents'[v] == parents[v] + Repeat(i, Occurs(list[..j], v))
    {
      forall v: nat
        ensures Repeat(i, Occurs(list[..j + 1], v))
                == Repeat(i, Occurs(list[..j], v)) + (if list[j] == v then [i] else [])
      {
        RepeatStep(list, j, v, i);
      }
      parents' := parents'[list[j] := parents'[list[j]] + [i]];
    }
    assert list[..|list|] == list;
  }

  lemma NoOccurs(i: nat)
    ensures forall v: nat :: Repeat(i, Occurs([], v)) == []
  {
  }

  lemma RepeatStep(list: seq<nat>, j: nat, v: nat, i: nat)
    requires j < |list|
    ensures Repeat(i, Occurs(list[..j + 1], v))
            == Repeat(i, Occurs(list[..j], v)) + (if list[j] == v then [i] else [])
  {
    OccursStep(list, j, v);
  }

  /** The in-degree of a task is the length of its parent list. */
  lemma {:induction false} IndegreeIsParentCount(adj: AdjList, k: nat, v: nat)
    requires forall u: nat :: u < k ==> u in adj
    ensures EdgesTo(adj, k, v) == |ParentsTo(adj, k, v)|
  {
    if k > 0 { IndegreeIsParentCount(adj, k - 1, v); }
  }

  /** Parents are listed in ascending order, each as often as it has v as a child. */
  lemma {:induction false} ParentsOrder(adj: AdjList, k: nat, v: nat, u: nat)
    requires forall w: nat :: w < k ==> w in adj
    ensures var ps := ParentsTo(adj, k, v);
            && SortedBelow(ps, k)
            && multiset(ps)[u] == if u < k then multiset(adj[u])[v] else 0
  {
    hide SortedBelow, Repeat;
    if k > 0 {
      ParentsOrder(adj, k - 1, v, u);
      RepeatCount(k - 1, Occurs(adj[k - 1], v), u);
      assert Occurs(adj[k - 1], v) == multiset(adj[k - 1])[v];
      SortedConcat(ParentsTo(adj, k - 1, v), Repeat(k - 1, Occurs(adj[k - 1], v)), k - 1);
    } else {
      assert SortedBelow([], 0) by { NothingSorted(); }
    }
  }

  ghost predicate SortedBelow(s: seq<nat>, k: nat) {
    && (forall i, j :: 0 <= i < j < |s| ==> s[i] <= s[j])
    && (forall i :: 0 <= i < |s| ==> s[i] < k)
  }

  lemma NothingSorted()
    ensures SortedBelow([], 0)
  {
  }

  lemma SortedConcat(s: seq<nat>, t: seq<nat>, x: nat)
    requires SortedBelow(s, x) && forall i :: 0 <= i < |t| ==> t[i] == x
    ensures SortedBelow(s + t, x + 1)
  {
  }

  lemma {:induction false} RepeatCount(x: nat, count: nat, u: nat)
    ensures multiset(Repeat(x, count))[u] == if u == x then count else 0
  {
    if count > 0 {
      RepeatCount(x, count - 1, u);
      assert Repeat(x, count) == Repeat(x, count - 1) + [x];
    }
  }

  /** The parent list of v holds exactly the tasks that have v as a child. */
  lemma {:induction false} ParentsAreParents(adj: AdjList, k: nat, v: nat, u: nat)
    requires forall w: nat :: w < k ==> w in adj
    ensures u in ParentsTo(adj, k, v) <==> u < k && v in adj[u]
  {
    if k > 0 {
      ParentsAreParents(adj, k - 1, v, u);
      var r := Repeat(k - 1, Occurs(adj[k - 1], v));
      assert u in ParentsTo(adj, k, v) <==> u in ParentsTo(adj, k - 1, v) || u in r;
      if v in adj[k - 1] { assert r[0] == k - 1; }
    }
  }
}
