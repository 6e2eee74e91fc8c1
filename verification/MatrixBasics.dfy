/** Facts about sequences, sums and the movement of tasks between places. */
module MatrixBasics {
  import opened MatrixModel
  import opened MatrixInvariant

  // ---------- Sums ----------

  lemma {:induction false} SumSame(a: seq<int>, b: seq<int>, i: nat)
    requires |a| == |b| && i < |a|
    requires forall j :: 0 <= j < |a| && j != i ==> a[j] == b[j]
    ensures Sum(b) == Sum(a) + b[i] - a[i]
  {
    if i == |a| - 1 {
      assert a[..|a| - 1] == b[..|a| - 1];
    } else {
      SumSame(a[..|a| - 1], b[..|a| - 1], i);
    }
  }

  lemma {:induction false} SumMono(a: seq<int>, b: seq<int>)
    requires |a| == |b|
    requires forall j :: 0 <= j < |a| ==> a[j] <= b[j]
    ensures Sum(a) <= Sum(b)
    ensures Sum(a) == Sum(b) ==> a == b
  {
    if |a| > 0 {
      SumMono(a[..|a| - 1], b[..|a| - 1]);
      assert a == a[..|a| - 1] + [a[|a| - 1]] && b == b[..|b| - 1] + [b[|b| - 1]];
    }
  }

  lemma {:induction false} SumNonNeg(a: seq<int>)
    requires forall j :: 0 <= j < |a| ==> a[j] >= 0
    ensures Sum(a) >= 0
  {
    if |a| > 0 { SumNonNeg(a[..|a| - 1]); }
  }

  lemma {:induction false} SumZero(a: seq<int>)
    requires forall i :: 0 <= i < |a| ==> a[i] == 0
    ensures Sum(a) == 0
  {
    if |a| > 0 { SumZero(a[..|a| - 1]); }
  }

  lemma WfChildren(c: Config)
    requires WellFormed(c)
    ensures |c.children| == c.n && c.threshold >= 0
  {
  }

  // ---------- Sequences without duplicates ----------

  ghost function Elems<T(!new)>(s: seq<T>): set<T> { set x | x in s }

  lemma {:induction false} NoDupCard<T(!new)>(s: seq<T>)
    requires NoDup(s)
    ensures |Elems(s)| == |s|
  {
    if |s| > 0 {
      NoDupCard(s[..|s| - 1]);
      assert Elems(s) == Elems(s[..|s| - 1]) + {s[|s| - 1]};
    }
  }

  lemma SameCard<T>(a: set<T>, b: set<T>)
    requires a <= b && |a| == |b|
    ensures a == b
  {
    assert |b - a| == |b| - |a|;
  }

  lemma SubsetCard<T>(a: set<T>, b: set<T>)
    requires a <= b
    ensures |a| <= |b|
  {
    assert |b - a| == |b| - |a|;
  }

  /** Tasks counted by the first k schedulers. */
  ghost function UnionTo(counted: map<Sched, set<Task>>, k: nat): set<Task> {
    if k == 0 then {} else UnionTo(counted, k - 1) + SetAt(counted, k - 1)
  }

  lemma {:induction false} UnionMember(counted: map<Sched, set<Task>>, k: nat, t: Task)
    ensures t in UnionTo(counted, k) <==> exists s: nat :: s < k && t in SetAt(counted, s)
  {
    if k > 0 { UnionMember(counted, k - 1, t); }
  }

  ghost function Below(n: nat): set<Task> { if n == 0 then {} else Below(n - 1) + {n - 1} }

  lemma {:induction false} BelowCard(n: nat)
    ensures |Below(n)| == n
    ensures forall t: nat :: t in Below(n) <==> t < n
  {
    if n > 0 { BelowCard(n - 1); }
  }

  // ---------- Ids ----------

  lemma IdsConcat(a: seq<Item>, b: seq<Item>)
    ensures Ids(a + b) == Ids(a) + Ids(b)
  {
  }

  lemma IdsSplit(a: seq<Item>, k: nat)
    requires k <= |a|
    ensures multiset(Ids(a[..k])) + multiset(Ids(a[k..])) == multiset(Ids(a))
  {
    assert a[..k] + a[k..] == a;
    IdsConcat(a[..k], a[k..]);
  }

  lemma IdsRemove(b: seq<Item>, j: nat)
    requires j < |b|
    ensures multiset(b[..j] + b[j + 1..]) == multiset(b) - multiset{b[j]}
    ensures multiset(Ids(b)) == multiset(Ids(b[..j] + b[j + 1..])) + multiset{b[j].id}
  {
    assert b == b[..j] + [b[j]] + b[j + 1..];
    var ids := Ids(b);
    assert ids == ids[..j] + [ids[j]] + ids[j + 1..];
    assert Ids(b[..j] + b[j + 1..]) == ids[..j] + ids[j + 1..];
  }

  lemma IdsHead(a: seq<Item>)
    requires |a| > 0
    ensures multiset(a[1..]) == multiset(a) - multiset{a[0]}
    ensures multiset(Ids(a)) == multiset(Ids(a[1..])) + multiset{a[0].id}
  {
    assert a == [a[0]] + a[1..];
    assert Ids(a) == [a[0].id] + Ids(a[1..]);
  }

  /** Permuted items have permuted ids. */
  lemma {:induction false} IdsPermute(a: seq<Item>, b: seq<Item>)
    requires multiset(a) == multiset(b)
    ensures multiset(Ids(a)) == multiset(Ids(b))
    decreases |a|
  {
    if |a| == 0 {
      assert |multiset(b)| == 0;
      assert b == [];
    } else {
      assert a[0] in multiset(b);
      var j :| 0 <= j < |b| && b[j] == a[0];
      IdsHead(a);
      IdsRemove(b, j);
      IdsPermute(a[1..], b[..j] + b[j + 1..]);
    }
  }

  lemma IdsPopped(a: seq<Item>, taken: seq<Item>, rest: seq<Item>)
    requires PoppedTops(a, taken, rest)
    ensures multiset(Ids(a)) == multiset(Ids(taken)) + multiset(Ids(rest))
    ensures |a| == |taken| + |rest|
  {
    IdsPermute(a, taken + rest);
    IdsConcat(taken, rest);
    assert |multiset(a)| == |multiset(taken + rest)|;
  }

  // ---------- Tops of a priority queue ----------

  lemma {:induction false} Smallest(a: seq<Item>) returns (i: nat)
    requires |a| > 0
    ensures i < |a| && forall j :: 0 <= j < |a| ==> a[i].size <= a[j].size
    decreases |a|
  {
    i := 0;
    if |a| > 1 {
      var b := a[..|a| - 1];
      i := Smallest(b);
      assert forall j :: 0 <= j < |b| ==> b[j] == a[j];
      if a[|a| - 1].size < a[i].size { i := |a| - 1; }
    }
  }

  predicate IsSmallest(a: seq<Item>, i: int) { 0 <= i < |a| && forall j :: 0 <= j < |a| ==> a[i].size <= a[j].size }

  lemma RemoveTop(a: seq<Item>, i: nat)
    requires IsSmallest(a, i)
    ensures PoppedTops(a, [a[i]], a[..i] + a[i + 1..])
  {
    IdsRemove(a, i);
    var rest := a[..i] + a[i + 1..];
    forall j | 0 <= j < |rest|
      ensures a[i].size <= rest[j].size
    {
      assert rest[j] == a[if j < i then j else j + 1];
    }
  }

  lemma PopTop(a: seq<Item>) returns (x: Item, rest: seq<Item>)
    requires |a| > 0
    ensures PoppedTops(a, [x], rest)
  {
    var i := Smallest(a);
    x, rest := a[i], a[..i] + a[i + 1..];
    RemoveTop(a, i);
  }

  /** Popping once more. */
  lemma PopMore(a: seq<Item>, taken: seq<Item>, rest: seq<Item>, x: Item, rest': seq<Item>)
    requires PoppedTops(a, taken, rest) && PoppedTops(rest, [x], rest')
    ensures PoppedTops(a, taken + [x], rest')
  {
    assert x in multiset(rest);
    forall j | 0 <= j < |rest'|
      ensures rest'[j] in rest
    {
      assert rest'[j] in multiset(rest');
      assert rest'[j] in multiset(rest);
    }
    assert multiset(taken + [x]) == multiset(taken) + multiset{x};
  }

  // ---------- Occurrences ----------

  lemma CntAt(q: Queues, p: Place, i: nat)
    requires i < |At(q, p)|
    ensures Cnt(q, p, At(q, p)[i].id) > 0
  {
    assert Ids(At(q, p))[i] in multiset(Ids(At(q, p)));
  }

  lemma CntIndex(q: Queues, p: Place, t: Task) returns (i: nat)
    requires Cnt(q, p, t) > 0
    ensures i < |At(q, p)| && At(q, p)[i].id == t
  {
    assert t in Ids(At(q, p));
    i :| 0 <= i < |Ids(At(q, p))| && Ids(At(q, p))[i] == t;
  }

  // ---------- Transfers ----------

  /** Tasks move from src to dst and nowhere else. */
  ghost predicate Transfer(q: Queues, q': Queues, src: Place, dst: Place) {
    && src != dst
    && (forall p :: p != src && p != dst ==> At(q', p) == At(q, p))
    && (forall t: nat :: Cnt(q', src, t) + Cnt(q', dst, t) == Cnt(q, src, t) + Cnt(q, dst, t))
    && (forall t: nat :: Cnt(q', src, t) <= Cnt(q, src, t))
  }

  lemma TransferBy(q: Queues, src: Place, a: seq<Item>, dst: Place, b: seq<Item>)
    requires src != dst
    requires multiset(Ids(a)) + multiset(Ids(b)) == multiset(Ids(At(q, src))) + multiset(Ids(At(q, dst)))
    requires multiset(Ids(a)) <= multiset(Ids(At(q, src)))
    ensures Transfer(q, Move(q, src, a, dst, b), src, dst)
  {
    var q' := Move(q, src, a, dst, b);
    assert At(q', src) == a && At(q', dst) == b;
    forall t: nat
      ensures Cnt(q', src, t) + Cnt(q', dst, t) == Cnt(q, src, t) + Cnt(q, dst, t)
    {
      assert (multiset(Ids(a)) + multiset(Ids(b)))[t] == multiset(Ids(a))[t] + multiset(Ids(b))[t];
      assert (multiset(Ids(At(q, src))) + multiset(Ids(At(q, dst))))[t]
          == multiset(Ids(At(q, src)))[t] + multiset(Ids(At(q, dst)))[t];
    }
  }

  lemma TransferPrefix(q: Queues, src: Place, dst: Place, k: nat)
    requires src != dst && k <= |At(q, src)|
    ensures Transfer(q, Move(q, src, At(q, src)[k..], dst, At(q, dst) + At(q, src)[..k]), src, dst)
  {
    IdsSplit(At(q, src), k);
    IdsConcat(At(q, dst), At(q, src)[..k]);
    TransferBy(q, src, At(q, src)[k..], dst, At(q, dst) + At(q, src)[..k]);
  }

  lemma TransferOne(q: Queues, src: Place, dst: Place, x: Item)
    requires src != dst && |At(q, src)| == 1 && x.id == At(q, src)[0].id
    ensures Transfer(q, Move(q, src, [], dst, At(q, dst) + [x]), src, dst)
  {
    IdsConcat(At(q, dst), [x]);
    assert Ids([x]) == Ids(At(q, src));
    assert Ids([]) == [];
    TransferBy(q, src, [], dst, At(q, dst) + [x]);
  }

  lemma TransferPopped(q: Queues, src: Place, dst: Place, a: seq<Item>, b: seq<Item>)
    requires src != dst && At(q, dst) == [] && (PoppedTops(At(q, src), a, b) || PoppedTops(At(q, src), b, a))
    ensures Transfer(q, Move(q, src, a, dst, b), src, dst)
  {
    if PoppedTops(At(q, src), a, b) { IdsPopped(At(q, src), a, b); } else { IdsPopped(At(q, src), b, a); }
    assert Ids(At(q, dst)) == [];
    TransferBy(q, src, a, dst, b);
  }

  lemma TransferFront(q: Queues, src: Place, dst: Place)
    requires src != dst && |At(q, src)| > 0 && At(q, dst) == []
    ensures Transfer(q, Move(q, src, At(q, src)[1..], dst, [At(q, src)[0]]), src, dst)
  {
    TransferPrefix(q, src, dst, 1);
    assert At(q, dst) + At(q, src)[..1] == [At(q, src)[0]];
  }

  lemma TransferAll(q: Queues, src: Place, dst: Place)
    requires src != dst
    ensures Transfer(q, Move(q, src, [], dst, At(q, dst) + At(q, src)), src, dst)
  {
    TransferPrefix(q, src, dst, |At(q, src)|);
    assert At(q, src)[|At(q, src)|..] == [] && At(q, src)[..|At(q, src)|] == At(q, src);
  }

  // ---------- What transfers preserve ----------

  ghost function Occ(q: Queues): (Place, Task) -> nat { (p: Place, t: Task) => Cnt(q, p, t) }

  /** Conservation, stated over an arbitrary occurrence count. */
  ghost predicate Unique(c: Config, f: (Place, Task) -> nat) {
    && (forall p, t: nat :: f(p, t) <= 1)
    && (forall p1, p2, t: nat :: f(p1, t) > 0 && f(p2, t) > 0 ==> p1 == p2)
    && (forall p, t: nat :: f(p, t) > 0 ==> t < c.n && ValidPlace(c, p))
  }

  ghost predicate Moves(f: (Place, Task) -> nat, f': (Place, Task) -> nat, src: Place, dst: Place) {
    && src != dst
    && (forall p, t: nat :: p != src && p != dst ==> f'(p, t) == f(p, t))
    && (forall t: nat :: f'(src, t) + f'(dst, t) == f(src, t) + f(dst, t))
    && (forall t: nat :: f'(src, t) <= f(src, t))
  }

  lemma UniqueByMove(c: Config, f: (Place, Task) -> nat, f': (Place, Task) -> nat, src: Place, dst: Place)
    requires Unique(c, f) && Moves(f, f', src, dst) && ValidPlace(c, dst)
    ensures Unique(c, f')
    ensures forall p, t: nat :: f(p, t) == 1 ==> f'(p, t) == 1 || f'(dst, t) == 1
  {
  }

  lemma TransferMoves(q: Queues, q': Queues, src: Place, dst: Place)
    requires Transfer(q, q', src, dst)
    ensures Moves(Occ(q), Occ(q'), src, dst)
  {
    forall p, t: nat | p != src && p != dst
      ensures Occ(q')(p, t) == Occ(q)(p, t)
    {
      assert At(q', p) == At(q, p);
    }
  }

  lemma ConservedOcc(c: Config, q: Queues)
    ensures Conserved(c, q) <==> Unique(c, Occ(q)) && forall t: nat :: t < c.n ==> Somewhere(q, t)
  {
    hide Cnt;
    assert forall p, t: nat :: Occ(q)(p, t) == Cnt(q, p, t);
  }

  lemma ConservedByTransfer(c: Config, q: Queues, q': Queues, src: Place, dst: Place)
    requires Conserved(c, q) && Transfer(q, q', src, dst) && ValidPlace(c, dst)
    ensures Conserved(c, q')
  {
    hide Cnt, Conserved, Unique, Transfer, Moves;
    ConservedOcc(c, q);
    TransferMoves(q, q', src, dst);
    UniqueByMove(c, Occ(q), Occ(q'), src, dst);
    forall t: nat | t < c.n
      ensures Somewhere(q', t)
    {
      assert Somewhere(q, t);
      var p :| Cnt(q, p, t) == 1;
      assert Occ(q)(p, t) == 1;
    }
    ConservedOcc(c, q');
  }

  /** After a transfer a task is where it was, or it is at the destination and came from the source. */
  lemma Whereabouts(q: Queues, q': Queues, src: Place, dst: Place, p: Place, t: Task)
    requires Transfer(q, q', src, dst) && Cnt(q', p, t) > 0
    ensures Cnt(q, p, t) > 0 || (p == dst && Cnt(q, src, t) > 0)
  {
    if p != src && p != dst {
      assert At(q', p) == At(q, p);
    }
  }

  /** Being at p says, under the new program counters, no more than under the old ones. */
  ghost predicate SameView(c: Config, crt: map<Sched, CrtPc>, core: map<Place, CorePc>, cct: map<Sched, CctPc>,
                           crt': map<Sched, CrtPc>, core': map<Place, CorePc>, cct': map<Sched, CctPc>, p: Place) {
    && PreRun(core', p) == PreRun(core, p)
    && (Dispatched(crt', p) ==> Dispatched(crt, p))
    && (p.Notify? ==> CctAt(cct', p.s) == CctAt(cct, p.s))
  }

  /** Arriving at dst says no more than having been at src. */
  ghost predicate Promotes(c: Config, q: Queues, crt: map<Sched, CrtPc>, core: map<Place, CorePc>,
                           cct: map<Sched, CctPc>,
                           crt': map<Sched, CrtPc>, core': map<Place, CorePc>, cct': map<Sched, CctPc>, src: Place,
                           dst: Place) {
    && PreRun(core', dst) == PreRun(core, src)
    && (!PreRun(core, src) ==> dst.s == src.s)
    && (Dispatched(crt', dst) ==> Dispatched(crt, src))
    && (forall t: nat :: Cnt(q, src, t) > 0 ==> SentTo(c, cct', dst, t) == SentTo(c, cct, src, t))
  }

  lemma PlacedView(c: Config, crt: map<Sched, CrtPc>, core: map<Place, CorePc>, cct: map<Sched, CctPc>,
                   crt': map<Sched, CrtPc>, core': map<Place, CorePc>, cct': map<Sched, CctPc>,
                   ranAt: Sites, notified: Notes, p: Place, t: Task)
    requires Placed(c, crt, core, cct, ranAt, notified, p, t) && SameView(c, crt, core, cct, crt', core', cct', p)
    ensures Placed(c, crt', core', cct', ranAt, notified, p, t)
  {
  }

  lemma StagesByTransfer(c: Config, q: Queues, q': Queues, src: Place, dst: Place,
                         crt: map<Sched, CrtPc>, core: map<Place, CorePc>, cct: map<Sched, CctPc>,
                         crt': map<Sched, CrtPc>, core': map<Place, CorePc>, cct': map<Sched, CctPc>,
                         ranAt: Sites, notified: Notes)
    requires Transfer(q, q', src, dst) && Stages(c, q, crt, core, cct, ranAt, notified)
    requires forall p :: p != dst && p != src ==> SameView(c, crt, core, cct, crt', core', cct', p)
    requires At(q', src) == [] || SameView(c, crt, core, cct, crt', core', cct', src)
    requires At(q, dst) == [] || SameView(c, crt, core, cct, crt', core', cct', dst)
    requires Promotes(c, q, crt, core, cct, crt', core', cct', src, dst)
    ensures Stages(c, q', crt', core', cct', ranAt, notified)
  {
    forall p, t: nat | Cnt(q', p, t) > 0
      ensures Placed(c, crt', core', cct', ranAt, notified, p, t)
    {
      Whereabouts(q, q', src, dst, p, t);
      if Cnt(q, p, t) > 0 {
        assert Placed(c, crt, core, cct, ranAt, notified, p, t);
        PlacedView(c, crt, core, cct, crt', core', cct', ranAt, notified, p, t);
      } else {
        assert Placed(c, crt, core, cct, ranAt, notified, src, t);
      }
    }
  }

  /** Moves that stay on one side of the completion queue keep the accounting. */
  lemma CountsByTransfer(q: Queues, q': Queues, src: Place, dst: Place, core: map<Place, CorePc>,
                         counted: map<Sched, set<Task>>)
    requires CountStages(q, core, counted) && Transfer(q, q', src, dst)
    requires AfterExec(src) == AfterExec(dst) && (AfterExec(src) ==> src.s == dst.s)
    ensures CountStages(q', core, counted)
  {
    forall p, t: nat | Cnt(q', p, t) > 0
      ensures CountStage(core, counted, p, t)
    {
      Whereabouts(q, q', src, dst, p, t);
      if Cnt(q, p, t) > 0 {
        assert CountStage(core, counted, p, t);
      } else {
        assert CountStage(core, counted, src, t);
      }
    }
  }

  // ---------- What moves elsewhere preserve ----------

  ghost predicate SameElsewhere(q: Queues, q': Queues, src: Place, dst: Place) {
    forall p :: p != src && p != dst ==> At(q', p) == At(q, p)
  }

  ghost predicate IsSlot(p: Place) { p.Check? || p.Core? || p.Notify? }

  lemma SlotsFrame(q: Queues, q': Queues, src: Place, dst: Place,
                   crt: map<Sched, CrtPc>, core: map<Place, CorePc>, cct: map<Sched, CctPc>)
    requires Slots(q, crt, core, cct) && SameElsewhere(q, q', src, dst) && !IsSlot(src) && !IsSlot(dst)
    ensures Slots(q', crt, core, cct)
  {
  }

  lemma NotifiersFrame(c: Config, q: Queues, q': Queues, src: Place, dst: Place, cct: map<Sched, CctPc>,
                       notified: Notes, ranAt: Sites)
    requires Notifiers(c, q, cct, notified, ranAt) && SameElsewhere(q, q', src, dst) && !src.Notify? && !dst.Notify?
    ensures Notifiers(c, q', cct, notified, ranAt)
  {
    forall s: nat | |At(q', Notify(s))| == 1
      ensures NotifierOk(c, notified, ranAt, CctAt(cct, s), At(q', Notify(s))[0])
    {
      assert At(q', Notify(s)) == At(q, Notify(s));
    }
  }

  lemma CompleteFrame(c: Config, q: Queues, q': Queues, src: Place, dst: Place)
    requires CompleteOk(c, q) && SameElsewhere(q, q', src, dst) && !src.Complete? && !dst.Complete?
    ensures CompleteOk(c, q')
  {
  }

  lemma CheckersFrame(c: Config, q: Queues, q': Queues, src: Place, dst: Place, crt: map<Sched, CrtPc>,
                      notified: Notes, ranAt: Sites)
    requires Checkers(c, q, crt, notified, ranAt) && SameElsewhere(q, q', src, dst) && !src.Check? && !dst.Check?
    ensures Checkers(c, q', crt, notified, ranAt)
  {
    forall s: nat | |At(q', Check(s))| == 1
      ensures CheckerOk(c, notified, ranAt, CrtAt(crt, s), At(q', Check(s))[0])
    {
      assert At(q', Check(s)) == At(q, Check(s));
    }
  }

  lemma CoresFrame(c: Config, q: Queues, q': Queues, src: Place, dst: Place, core: map<Place, CorePc>,
                   notified: Notes, ranAt: Sites, result: map<Task, Piece>)
    requires Cores(c, q, core, notified, ranAt, result) && SameElsewhere(q, q', src, dst) && !src.Core? && !dst.Core?
    ensures Cores(c, q', core, notified, ranAt, result)
  {
    forall s: nat, k: nat | |At(q', Core(s, k))| == 1
      ensures CoreOk(c, NotesAt(notified, At(q', Core(s, k))[0].id), ranAt, result, CoreAt(core, Core(s, k)),
                     At(q', Core(s, k))[0].id)
    {
      assert At(q', Core(s, k)) == At(q, Core(s, k));
    }
  }

  lemma ReceivedFrame(c: Config, q: Queues, q': Queues, src: Place, dst: Place, recv: map<Sched, RecvPc>, recvCtr: int,
                      started: set<Sched>)
    requires Received(c, q, recv, recvCtr, started) && SameElsewhere(q, q', src, dst) && !src.Client? && !dst.Client?
    ensures Received(c, q', recv, recvCtr, started)
  {
  }
}
