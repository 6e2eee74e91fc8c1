/** The LRU cache as a recency list, most recent entry first, and the inclusion property. */
module LruSpec {

  datatype Option<+T> = None | Some(value: T)

  datatype Entry<K, D> = Entry(key: K, data: D)

  ghost predicate DistinctKeys<K(!new), D(!new)>(l: seq<Entry<K, D>>) {
    forall i, j :: 0 <= i < j < |l| ==> l[i].key != l[j].key
  }

  function Lookup<K(==), D>(l: seq<Entry<K, D>>, k: K): (r: Option<D>) {
    if l == [] then None else if l[0].key == k then Some(l[0].data) else Lookup(l[1..], k)
  }

  function Without<K(==), D>(l: seq<Entry<K, D>>, k: K): (r: seq<Entry<K, D>>) {
    if l == [] then [] else if l[0].key == k then Without(l[1..], k) else [l[0]] + Without(l[1..], k)
  }

  /** The entry of k moves to the front. */
  function Touched<K(==), D>(l: seq<Entry<K, D>>, k: K): (r: seq<Entry<K, D>>) {
    match Lookup(l, k)
    case None => l
    case Some(d) => [Entry(k, d)] + Without(l, k)
  }

  function Total<K, D>(l: seq<Entry<K, D>>, size: D -> nat): nat {
    if l == [] then 0 else Total(l[..|l| - 1], size) + size(l[|l| - 1].data)
  }

  /** The longest prefix within the budget. */
  function Evicted<K, D>(l: seq<Entry<K, D>>, size: D -> nat, max: nat): (r: seq<Entry<K, D>>)
    ensures r <= l && Total(r, size) <= max
    ensures forall n :: |r| < n <= |l| ==> Total(l[..n], size) > max
  {
    if Total(l, size) <= max then l
    else
      assert forall n :: 0 <= n < |l| ==> l[..n] == l[..|l| - 1][..n];
      assert l[..|l|] == l;
      Evicted(l[..|l| - 1], size, max)
  }

  function Inserted<K(==), D>(l: seq<Entry<K, D>>, k: K, d: D, size: D -> nat, max: nat): (r: seq<Entry<K, D>>) {
    Evicted([Entry(k, d)] + Without(l, k), size, max)
  }

  // ---------- Facts about the list operations ----------

  lemma {:induction false} LookupSome<K, D>(l: seq<Entry<K, D>>, k: K)
    ensures Lookup(l, k).Some? <==> exists i :: 0 <= i < |l| && l[i].key == k
    ensures Lookup(l, k).Some? ==> Entry(k, Lookup(l, k).value) in l
  {
    if l != [] && l[0].key != k {
      LookupSome(l[1..], k);
      assert forall i :: 1 <= i < |l| ==> l[i] == l[1..][i - 1];
    }
  }

  /** In a list without duplicate keys, removing the i-th entry is removing its key. */
  lemma {:induction false} WithoutAt<K(!new), D(!new)>(l: seq<Entry<K, D>>, i: nat)
    requires DistinctKeys(l) && i < |l|
    ensures Without(l, l[i].key) == l[..i] + l[i + 1..]
    ensures Lookup(l, l[i].key) == Some(l[i].data)
  {
    if i == 0 {
      WithoutAbsent(l[1..], l[0].key);
    } else {
      WithoutAt(l[1..], i - 1);
      assert l[..i] + l[i + 1..] == [l[0]] + (l[1..][..i - 1] + l[1..][i..]);
    }
  }

  lemma {:induction false} WithoutAbsent<K, D>(l: seq<Entry<K, D>>, k: K)
    requires forall i :: 0 <= i < |l| ==> l[i].key != k
    ensures Without(l, k) == l && Lookup(l, k) == None
  {
    if l != [] { WithoutAbsent(l[1..], k); }
  }

  lemma {:induction false} WithoutMember<K, D>(l: seq<Entry<K, D>>, k: K, e: Entry<K, D>)
    ensures e in Without(l, k) <==> e in l && e.key != k
  {
    if l != [] {
      WithoutMember(l[1..], k, e);
      assert l == [l[0]] + l[1..];
    }
  }

  lemma {:induction false} WithoutDistinct<K(!new), D(!new)>(l: seq<Entry<K, D>>, k: K)
    requires DistinctKeys(l)
    ensures DistinctKeys(Without(l, k))
  {
    if l != [] {
      WithoutDistinct(l[1..], k);
      forall j | 0 <= j < |Without(l[1..], k)|
        ensures Without(l[1..], k)[j].key != l[0].key
      {
        WithoutMember(l[1..], k, Without(l[1..], k)[j]);
      }
    }
  }

  lemma ConsDistinct<K(!new), D(!new)>(l: seq<Entry<K, D>>, e: Entry<K, D>)
    requires DistinctKeys(l)
    ensures DistinctKeys([e] + Without(l, e.key))
  {
    WithoutDistinct(l, e.key);
    var w := Without(l, e.key);
    forall j | 0 <= j < |w|
      ensures w[j].key != e.key
    {
      WithoutMember(l, e.key, w[j]);
    }
  }

  // ---------- Runs of operations ----------

  datatype Op<K, D> = Insert(k: K, d: D) | Touch(k: K) | Fetch(k: K, touch: bool) | Remove(k: K)

  function Apply<K(==), D>(l: seq<Entry<K, D>>, op: Op<K, D>, size: D -> nat, max: nat): seq<Entry<K, D>> {
    match op
    case Insert(k, d) => Inserted(l, k, d, size, max)
    case Touch(k) => Touched(l, k)
    case Fetch(k, t) => if t then Touched(l, k) else l
    case Remove(k) => Without(l, k)
  }

  /** Contents of a cache, empty at first, after `ops`. */
  function Contents<K(==), D>(ops: seq<Op<K, D>>, size: D -> nat, max: nat): seq<Entry<K, D>> {
    if ops == [] then [] else Apply(Contents(ops[..|ops| - 1], size, max), ops[|ops| - 1], size, max)
  }

  /** The default size function. */
  function Unit<D>(d: D): nat { 1 }

  // ---------- Inclusion ----------

  /** `a` is `b` with some entries left out, in the same order. */
  ghost predicate Subsequence<T(!new)>(a: seq<T>, b: seq<T>) {
    if a == [] then true
    else if b == [] then false
    else (a[0] == b[0] && Subsequence(a[1..], b[1..])) || Subsequence(a, b[1..])
  }

  lemma {:induction false} SubsequenceMember<T(!new)>(a: seq<T>, b: seq<T>, x: T)
    requires Subsequence(a, b) && x in a
    ensures x in b
  {
    if a[0] == b[0] && Subsequence(a[1..], b[1..]) {
      if x != a[0] { SubsequenceMember(a[1..], b[1..], x); }
    } else {
      SubsequenceMember(a, b[1..], x);
    }
  }

  lemma {:induction false} SubsequenceTail<T(!new)>(a: seq<T>, b: seq<T>)
    requires Subsequence(a, b) && a != []
    ensures Subsequence(a[1..], b)
  {
    if Subsequence(a, b[1..]) { SubsequenceTail(a, b[1..]); }
    else if a[1..] != [] { assert Subsequence(a[1..], b[1..]); }
  }

  lemma {:induction false} SubsequenceLength<T(!new)>(a: seq<T>, b: seq<T>)
    requires Subsequence(a, b)
    ensures |a| <= |b|
  {
    if a != [] {
      if Subsequence(a, b[1..]) { SubsequenceLength(a, b[1..]); } else { SubsequenceLength(a[1..], b[1..]); }
    }
  }

  lemma {:induction false} SubsequenceWithout<K(!new), D(!new)>(a: seq<Entry<K, D>>, b: seq<Entry<K, D>>, k: K)
    requires Subsequence(a, b)
    ensures Subsequence(Without(a, k), Without(b, k))
  {
    if a != [] {
      if Subsequence(a, b[1..]) {
        SubsequenceWithout(a, b[1..], k);
        if b[0].key != k { SubsequenceSkip(Without(a, k), b[0], Without(b[1..], k)); }
      } else {
        SubsequenceWithout(a[1..], b[1..], k);
        if b[0].key != k { SubsequenceCons(b[0], Without(a[1..], k), Without(b[1..], k)); }
      }
    }
  }

  lemma SubsequenceSkip<T(!new)>(a: seq<T>, x: T, b: seq<T>)
    requires Subsequence(a, b)
    ensures Subsequence(a, [x] + b)
  {
    assert ([x] + b)[1..] == b;
  }

  lemma SubsequenceCons<T(!new)>(x: T, a: seq<T>, b: seq<T>)
    requires Subsequence(a, b)
    ensures Subsequence([x] + a, [x] + b)
  {
    assert ([x] + a)[1..] == a && ([x] + b)[1..] == b;
  }

  lemma {:induction false} SubsequenceInit<T(!new)>(a: seq<T>, b: seq<T>)
    requires Subsequence(a, b) && a != []
    ensures Subsequence(a[..|a| - 1], b[..|b| - 1])
  {
    SubsequenceLength(a, b);
    if Subsequence(a, b[1..]) {
      SubsequenceInit(a, b[1..]);
      assert b[..|b| - 1] == [b[0]] + b[1..][..|b| - 2];
      SubsequenceSkip(a[..|a| - 1], b[0], b[1..][..|b| - 2]);
    } else if |a| > 1 {
      SubsequenceInit(a[1..], b[1..]);
      assert a[..|a| - 1] == [a[0]] + a[1..][..|a| - 2] && b[..|b| - 1] == [b[0]] + b[1..][..|b| - 2];
      SubsequenceCons(a[0], a[1..][..|a| - 2], b[1..][..|b| - 2]);
    }
  }

  lemma {:induction false} SubsequenceShorter<T(!new)>(a: seq<T>, b: seq<T>)
    requires Subsequence(a, b) && a != []
    ensures Subsequence(a[..|a| - 1], b)
  {
    if Subsequence(a, b[1..]) {
      SubsequenceShorter(a, b[1..]);
    } else if |a| > 1 {
      SubsequenceShorter(a[1..], b[1..]);
      assert a[..|a| - 1][1..] == a[1..][..|a| - 2];
    }
  }

  lemma {:induction false} UnitTotal<K, D>(l: seq<Entry<K, D>>)
    ensures Total(l, Unit) == |l|
  {
    if l != [] { UnitTotal(l[..|l| - 1]); }
  }

  /** Unit sizes: at most one entry over budget loses its last entry. */
  lemma UnitEvicted<K, D>(l: seq<Entry<K, D>>, max: nat)
    requires |l| <= max + 1
    ensures Evicted(l, Unit, max) == if |l| <= max then l else l[..|l| - 1]
  {
    UnitTotal(l);
    if |l| > max { UnitTotal(l[..|l| - 1]); }
  }

  /** The relation between caches of capacity m <= n that have seen the same operations. */
  ghost predicate Included<K(!new), D(!new)>(a: seq<Entry<K, D>>, b: seq<Entry<K, D>>, m: nat, n: nat) {
    && DistinctKeys(a) && DistinctKeys(b) && Subsequence(a, b)
    && |a| <= m && |b| <= n && |b| - |a| <= n - m
  }

  lemma IncludedLookup<K(!new), D(!new)>(a: seq<Entry<K, D>>, b: seq<Entry<K, D>>, k: K)
    requires Subsequence(a, b) && DistinctKeys(b) && Lookup(a, k).Some?
    ensures Lookup(b, k) == Lookup(a, k)
  {
    LookupSome(a, k);
    var e := Entry(k, Lookup(a, k).value);
    SubsequenceMember(a, b, e);
    var i :| 0 <= i < |b| && b[i] == e;
    WithoutAt(b, i);
  }

  lemma WithoutLength<K(!new), D(!new)>(l: seq<Entry<K, D>>, k: K)
    requires DistinctKeys(l)
    ensures |Without(l, k)| == |l| - (if Lookup(l, k).Some? then 1 else 0)
  {
    LookupSome(l, k);
    if Lookup(l, k).Some? {
      var i :| 0 <= i < |l| && l[i].key == k;
      WithoutAt(l, i);
    } else {
      WithoutAbsent(l, k);
    }
  }

  lemma IncludedWithout<K(!new), D(!new)>(a: seq<Entry<K, D>>, b: seq<Entry<K, D>>, k: K, m: nat, n: nat)
    requires Included(a, b, m, n)
    ensures Included(Without(a, k), Without(b, k), m, n)
  {
    WithoutDistinct(a, k);
    WithoutDistinct(b, k);
    WithoutLength(a, k);
    WithoutLength(b, k);
    SubsequenceWithout(a, b, k);
    if Lookup(a, k).Some? { IncludedLookup(a, b, k); }
  }

  lemma IncludedTouched<K(!new), D(!new)>(a: seq<Entry<K, D>>, b: seq<Entry<K, D>>, k: K, m: nat, n: nat)
    requires Included(a, b, m, n)
    ensures Included(Touched(a, k), Touched(b, k), m, n)
  {
    IncludedWithout(a, b, k, m, n);
    WithoutLength(a, k);
    WithoutLength(b, k);
    if Lookup(b, k).Some? {
      var e := Entry(k, Lookup(b, k).value);
      ConsDistinct(b, e);
      if Lookup(a, k).Some? {
        IncludedLookup(a, b, k);
        ConsDistinct(a, e);
        SubsequenceCons(e, Without(a, k), Without(b, k));
      } else {
        LookupSome(a, k);
        WithoutAbsent(a, k);
        SubsequenceSkip(a, e, Without(b, k));
      }
    } else if Lookup(a, k).Some? {
      IncludedLookup(a, b, k);
    }
  }

  lemma PrefixDistinct<K(!new), D(!new)>(l: seq<Entry<K, D>>)
    requires DistinctKeys(l) && l != []
    ensures DistinctKeys(l[..|l| - 1])
  {
  }

  lemma IncludedInserted<K(!new), D(!new)>(a: seq<Entry<K, D>>, b: seq<Entry<K, D>>, k: K, d: D, m: nat, n: nat)
    requires m <= n && Included(a, b, m, n)
    ensures Included(Inserted(a, k, d, Unit, m), Inserted(b, k, d, Unit, n), m, n)
  {
    hide Subsequence, DistinctKeys, Without, Evicted;
    var e := Entry(k, d);
    var a1, b1 := [e] + Without(a, k), [e] + Without(b, k);
    IncludedWithout(a, b, k, m, n);
    WithoutLength(a, k);
    WithoutLength(b, k);
    ConsDistinct(a, e);
    ConsDistinct(b, e);
    SubsequenceCons(e, Without(a, k), Without(b, k));
    PrefixDistinct(a1);
    PrefixDistinct(b1);
    UnitEvicted(a1, m);
    UnitEvicted(b1, n);
    if |b1| > n {
      SubsequenceInit(a1, b1);
    } else if |a1| > m {
      SubsequenceShorter(a1, b1);
    }
  }

  lemma IncludedApply<K(!new), D(!new)>(a: seq<Entry<K, D>>, b: seq<Entry<K, D>>, op: Op<K, D>, m: nat, n: nat)
    requires m <= n && Included(a, b, m, n)
    ensures Included(Apply(a, op, Unit, m), Apply(b, op, Unit, n), m, n)
  {
    match op
    case Insert(k, d) => IncludedInserted(a, b, k, d, m, n);
    case Touch(k) => IncludedTouched(a, b, k, m, n);
    case Fetch(k, t) => IncludedTouched(a, b, k, m, n);
    case Remove(k) => IncludedWithout(a, b, k, m, n);
  }

  lemma {:induction false} Inclusion<K(!new), D(!new)>(ops: seq<Op<K, D>>, m: nat, n: nat)
    requires m <= n
    ensures Included(Contents(ops, Unit, m), Contents(ops, Unit, n), m, n)
  {
    if ops != [] {
      Inclusion(ops[..|ops| - 1], m, n);
      IncludedApply(Contents(ops[..|ops| - 1], Unit, m), Contents(ops[..|ops| - 1], Unit, n), ops[|ops| - 1], m, n);
    }
  }

  /** A larger cache keeps everything a smaller one keeps, in the same order, and answers every hit alike. */
  lemma LruInclusion<K(!new), D(!new)>(ops: seq<Op<K, D>>, m: nat, n: nat, k: K)
    requires m <= n
    ensures Subsequence(Contents(ops, Unit, m), Contents(ops, Unit, n))
    ensures Lookup(Contents(ops, Unit, m), k).Some? ==>
              Lookup(Contents(ops, Unit, n), k) == Lookup(Contents(ops, Unit, m), k)
  {
    Inclusion(ops, m, n);
    if Lookup(Contents(ops, Unit, m), k).Some? {
      IncludedLookup(Contents(ops, Unit, m), Contents(ops, Unit, n), k);
    }
  }
}
