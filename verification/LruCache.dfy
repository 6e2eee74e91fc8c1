/** The LRU cache: a recency list of nodes and an index from keys to nodes of that list. */
module LruCache {
  import opened LruSpec

  /** A list node; the index refers to it, and moving it in the list does not invalidate that. */
  class Node<K, D> {
    const key: K
    const data: D
    constructor (key: K, data: D)
      ensures this.key == key && this.data == data
    {
      this.key := key;
      this.data := data;
    }
  }

  ghost function Entries<K, D>(list: seq<Node<K, D>>): (l: seq<Entry<K, D>>)
    ensures |l| == |list| && forall i :: 0 <= i < |l| ==> l[i] == Entry(list[i].key, list[i].data)
  {
    seq(|list|, i requires 0 <= i < |list| => Entry(list[i].key, list[i].data))
  }

  /** List and index describe the same set of keys, each once. */
  ghost predicate Coherent<K(!new), D(!new)>(list: seq<Node<K, D>>, index: map<K, Node<K, D>>) {
    && DistinctKeys(Entries(list))
    && (forall node :: node in list ==> node.key in index && index[node.key] == node)
    && (forall k :: k in index ==> index[k] in list && index[k].key == k)
  }

  function Position<T(==)>(list: seq<T>, x: T): (i: nat)
    requires x in list
    ensures i < |list| && list[i] == x
  {
    if list[0] == x then 0 else 1 + Position(list[1..], x)
  }

  lemma IndexedLookup<K(!new), D(!new)>(list: seq<Node<K, D>>, index: map<K, Node<K, D>>, k: K)
    requires Coherent(list, index)
    ensures k in index <==> Lookup(Entries(list), k).Some?
    ensures k in index ==> Lookup(Entries(list), k) == Some(index[k].data)
  {
    LookupSome(Entries(list), k);
    if k in index {
      var i := Position(list, index[k]);
      WithoutAt(Entries(list), i);
    }
  }

  /** Distinct keys make distinct nodes. */
  lemma ErasedMember<K(!new), D(!new)>(list: seq<Node<K, D>>, i: nat, node: Node<K, D>)
    requires DistinctKeys(Entries(list)) && i < |list|
    ensures node in list[..i] + list[i + 1..] <==> node in list && node != list[i]
  {
    var list' := list[..i] + list[i + 1..];
    assert forall j :: 0 <= j < |list| && j != i ==> Entries(list)[j].key != Entries(list)[i].key;
    if node in list && node != list[i] {
      var j := Position(list, node);
      assert list'[if j < i then j else j - 1] == node;
    }
  }

  lemma EraseEntries<K(!new), D(!new)>(list: seq<Node<K, D>>, i: nat)
    requires DistinctKeys(Entries(list)) && i < |list|
    ensures Entries(list[..i] + list[i + 1..]) == Without(Entries(list), list[i].key)
    ensures DistinctKeys(Entries(list[..i] + list[i + 1..]))
  {
    var l := Entries(list);
    WithoutAt(l, i);
    assert Entries(list[..i] + list[i + 1..]) == l[..i] + l[i + 1..];
    WithoutDistinct(l, list[i].key);
  }

  /** Without node x the list matches the index without its key. */
  lemma EraseCoherent<K(!new), D(!new)>(list: seq<Node<K, D>>, list': seq<Node<K, D>>, index: map<K, Node<K, D>>,
                                        x: Node<K, D>)
    requires Coherent(list, index) && x in list && DistinctKeys(Entries(list'))
    requires forall node :: node in list' <==> node in list && node != x
    ensures Coherent(list', index - {x.key})
  {
    hide DistinctKeys, Entries;
    assert index[x.key] == x;
  }

  lemma Erase<K(!new), D(!new)>(list: seq<Node<K, D>>, index: map<K, Node<K, D>>, k: K)
    requires Coherent(list, index) && k in index
    ensures var i := Position(list, index[k]);
            && Coherent(list[..i] + list[i + 1..], index - {k})
            && Entries(list[..i] + list[i + 1..]) == Without(Entries(list), k)
  {
    hide DistinctKeys, Entries, Without;
    var i := Position(list, index[k]);
    EraseEntries(list, i);
    var list' := list[..i] + list[i + 1..];
    forall node
      ensures node in list' <==> node in list && node != list[i]
    {
      ErasedMember(list, i, node);
    }
    EraseCoherent(list, list', index, list[i]);
  }

  lemma Push<K(!new), D(!new)>(list: seq<Node<K, D>>, index: map<K, Node<K, D>>, node: Node<K, D>)
    requires Coherent(list, index) && node.key !in index
    ensures Coherent([node] + list, index[node.key := node])
    ensures Entries([node] + list) == [Entry(node.key, node.data)] + Entries(list)
  {
    hide DistinctKeys;
    var list', index' := [node] + list, index[node.key := node];
    PushDistinct(list, index, node);
    assert forall x :: x in list' <==> x in list || x == node;
    assert Coherent(list', index');
  }

  lemma PushDistinct<K(!new), D(!new)>(list: seq<Node<K, D>>, index: map<K, Node<K, D>>, node: Node<K, D>)
    requires Coherent(list, index) && node.key !in index
    ensures Entries([node] + list) == [Entry(node.key, node.data)] + Entries(list)
    ensures DistinctKeys(Entries([node] + list))
  {
    var l := [Entry(node.key, node.data)] + Entries(list);
    assert Entries([node] + list) == l;
    forall j | 1 <= j < |l|
      ensures l[j].key != node.key
    {
      assert list[j - 1] in list;
    }
    assert forall i, j :: 1 <= i < j < |l| ==> Entries(list)[i - 1] == l[i] && Entries(list)[j - 1] == l[j];
  }

  lemma Splice<K(!new), D(!new)>(list: seq<Node<K, D>>, index: map<K, Node<K, D>>, k: K)
    requires Coherent(list, index) && k in index
    ensures var i := Position(list, index[k]);
            && Coherent([list[i]] + (list[..i] + list[i + 1..]), index)
            && Entries([list[i]] + (list[..i] + list[i + 1..])) == Touched(Entries(list), k)
  {
    hide DistinctKeys;
    var i := Position(list, index[k]);
    var rest := list[..i] + list[i + 1..];
    Erase(list, index, k);
    IndexedLookup(list, index, k);
    Push(rest, index - {k}, list[i]);
    assert (index - {k})[k := list[i]] == index;
  }

  lemma {:induction false} TotalSplit<K, D>(l: seq<Entry<K, D>>, i: nat, size: D -> nat)
    requires i < |l|
    ensures Total(l, size) == Total(l[..i] + l[i + 1..], size) + size(l[i].data)
  {
    if i == |l| - 1 {
      assert l[..i] + l[i + 1..] == l[..|l| - 1];
    } else {
      TotalSplit(l[..|l| - 1], i, size);
      var r := l[..i] + l[i + 1..];
      assert r[..|r| - 1] == l[..|l| - 1][..i] + l[..|l| - 1][i + 1..];
    }
  }

  lemma TotalCons<K, D>(e: Entry<K, D>, l: seq<Entry<K, D>>, size: D -> nat)
    ensures Total([e] + l, size) == size(e.data) + Total(l, size)
  {
    TotalSplit([e] + l, 0, size);
    assert ([e] + l)[..0] + ([e] + l)[1..] == l;
  }

  lemma TotalWithout<K(!new), D(!new)>(l: seq<Entry<K, D>>, k: K, size: D -> nat)
    requires DistinctKeys(l)
    ensures Total(l, size) == Total(Without(l, k), size) + match Lookup(l, k) case None => 0 case Some(d) => size(d)
  {
    LookupSome(l, k);
    if Lookup(l, k).Some? {
      var i :| 0 <= i < |l| && l[i].key == k;
      WithoutAt(l, i);
      TotalSplit(l, i, size);
    } else {
      WithoutAbsent(l, k);
    }
  }

  lemma TotalTouched<K(!new), D(!new)>(l: seq<Entry<K, D>>, k: K, size: D -> nat)
    requires DistinctKeys(l)
    ensures Total(Touched(l, k), size) == Total(l, size)
  {
    TotalWithout(l, k, size);
    if Lookup(l, k).Some? { TotalCons(Entry(k, Lookup(l, k).value), Without(l, k), size); }
  }

  /** A touched entry comes first; the others keep their order. */
  lemma TouchedOrder<K(!new), D(!new)>(l: seq<Entry<K, D>>, i: nat)
    requires DistinctKeys(l) && i < |l|
    ensures Touched(l, l[i].key) == [l[i]] + (l[..i] + l[i + 1..])
  {
    WithoutAt(l, i);
  }

  /**
    An inserted entry comes first and the others keep their order, unless it does not fit by itself.
    Of the others as many stay as fit: one more would be over the budget.
  */
  lemma InsertedOrder<K(!new), D(!new)>(l: seq<Entry<K, D>>, k: K, d: D, size: D -> nat, max: nat)
    ensures size(d) <= max ==> |Inserted(l, k, d, size, max)| > 0 && Inserted(l, k, d, size, max)[0] == Entry(k, d)
                               && Inserted(l, k, d, size, max)[1..] <= Without(l, k)
    ensures size(d) > max ==> Inserted(l, k, d, size, max) == []
    ensures forall n :: |Inserted(l, k, d, size, max)| <= n <= |Without(l, k)| ==>
              size(d) + Total(Without(l, k)[..n], size) > max
  {
    var e := Entry(k, d);
    var all, r := [e] + Without(l, k), Inserted(l, k, d, size, max);
    assert all[..1] == [e] + [];
    TotalCons(e, [], size);
    if r != [] {
      assert r == [e] + r[1..];
      TotalCons(e, r[1..], size);
    }
    forall n | |r| <= n <= |Without(l, k)|
      ensures size(d) + Total(Without(l, k)[..n], size) > max
    {
      assert all[..n + 1] == [e] + Without(l, k)[..n];
      TotalCons(e, Without(l, k)[..n], size);
    }
  }

  lemma LastEvicted<K(!new), D(!new)>(l: seq<Entry<K, D>>, size: D -> nat, max: nat)
    requires DistinctKeys(l) && Total(l, size) > max
    ensures |l| > 0 && Without(l, l[|l| - 1].key) == l[..|l| - 1]
    ensures Evicted(l, size, max) == Evicted(l[..|l| - 1], size, max)
  {
    WithoutAt(l, |l| - 1);
    assert l[..|l| - 1] + l[|l|..] == l[..|l| - 1];
  }

  class Cache<K(!new, ==), D(!new)> {
    const size: D -> nat
    const maxSize: nat
    var list: seq<Node<K, D>>
    var index: map<K, Node<K, D>>
    var currSize: nat

    ghost predicate Consistent()
      reads this
    {
      Coherent(list, index) && currSize == Total(View(), size)
    }

    ghost predicate Valid()
      reads this
    {
      Consistent() && currSize <= maxSize
    }

    ghost function View(): (l: seq<Entry<K, D>>)
      reads this
    {
      Entries(list)
    }

    constructor (maxSize: nat, size: D -> nat)
      ensures Valid() && View() == [] && this.maxSize == maxSize && this.size == size
    {
      this.size := size;
      this.maxSize := maxSize;
      list, index, currSize := [], map[], 0;
    }

    method Exists(k: K) returns (found: bool)
      requires Valid()
      ensures found <==> Lookup(View(), k).Some?
    {
      IndexedLookup(list, index, k);
      found := k in index;
    }

    method TouchNode(k: K)
      requires Consistent()
      modifies this
      ensures Consistent() && View() == Touched(old(View()), k) && currSize == old(currSize)
    {
      hide Coherent, Touched, Without, Lookup, Total;
      IndexedLookup(list, index, k);
      NotFound(View(), k);
      if k in index {
        InList(list, index, k);
        Splice(list, index, k);
        CoherentKeys(list, index);
        TotalTouched(View(), k, size);
        var i := Position(list, index[k]);
        list := [list[i]] + (list[..i] + list[i + 1..]);
      }
    }

    method RemoveNode(k: K)
      requires Consistent() && k in index
      modifies this
      ensures Consistent() && View() == Without(old(View()), k) && index == old(index) - {k}
              && currSize <= old(currSize)
    {
      hide Coherent, Lookup, Without, Total;
      InList(list, index, k);
      Erase(list, index, k);
      IndexedLookup(list, index, k);
      CoherentKeys(list, index);
      TotalWithout(View(), k, size);
      var i := Position(list, index[k]);
      currSize := currSize - size(index[k].data);
      list := list[..i] + list[i + 1..];
      index := index - {k};
    }

    method Remove(k: K)
      requires Valid()
      modifies this
      ensures Valid() && View() == Without(old(View()), k)
    {
      IndexedLookup(list, index, k);
      if k in index {
        RemoveNode(k);
      } else {
        LookupSome(View(), k);
        WithoutAbsent(View(), k);
      }
    }

    method Touch(k: K)
      requires Valid()
      modifies this
      ensures Valid() && View() == Touched(old(View()), k)
    {
      TouchNode(k);
    }

    method Fetch(k: K, touchData: bool) returns (r: Option<D>)
      requires Valid()
      modifies this
      ensures Valid() && r == Lookup(old(View()), k)
      ensures View() == if touchData then Touched(old(View()), k) else old(View())
    {
      IndexedLookup(list, index, k);
      if k !in index {
        return None;
      }
      r := Some(index[k].data);
      if touchData {
        TouchNode(k);
      }
    }

    method PushFront(k: K, d: D)
      requires Consistent() && k !in index
      modifies this
      ensures Consistent() && View() == [Entry(k, d)] + old(View())
    {
      var node := new Node(k, d);
      Push(list, index, node);
      TotalCons(Entry(k, d), View(), size);
      list := [node] + list;
      index := index[k := node];
      currSize := currSize + size(d);
    }

    method EvictLast()
      requires Consistent() && currSize > maxSize
      modifies this
      ensures Consistent() && |list| < old(|list|)
      ensures Evicted(View(), size, maxSize) == Evicted(old(View()), size, maxSize)
    {
      LastEvicted(View(), size, maxSize);
      assert list[|list| - 1] in list;
      RemoveNode(list[|list| - 1].key);
    }

    method Evict()
      requires Consistent()
      modifies this
      ensures Valid() && View() == Evicted(old(View()), size, maxSize)
    {
      while currSize > maxSize
        invariant Consistent()
        invariant Evicted(View(), size, maxSize) == Evicted(old(View()), size, maxSize)
        decreases |list|
      {
        EvictLast();
      }
    }

    method Insert(k: K, d: D)
      requires Valid()
      modifies this
      ensures Valid() && View() == Inserted(old(View()), k, d, size, maxSize)
    {
      ghost var l := View();
      IndexedLookup(list, index, k);
      if k in index {
        TouchNode(k);
        TouchedWithout(l, k);
        IndexedLookup(list, index, k);
        RemoveNode(k);
      } else {
        LookupSome(l, k);
        WithoutAbsent(l, k);
      }
      PushFront(k, d);
      Evict();
    }

    /** What an operation of the inclusion theorem stands for. */
    method Perform(op: Op<K, D>)
      requires Valid()
      modifies this
      ensures Valid() && View() == Apply(old(View()), op, size, maxSize)
    {
      match op {
        case Insert(k, d) => Insert(k, d);
        case Touch(k) => Touch(k);
        case Fetch(k, touchData) => var _ := Fetch(k, touchData);
        case Remove(k) => Remove(k);
      }
    }

    /** Any operations on an empty cache lead to the contents of which the inclusion theorem speaks. */
    method PerformAll(ops: seq<Op<K, D>>)
      requires Valid() && View() == []
      modifies this
      ensures Valid() && View() == Contents(ops, size, maxSize)
    {
      for i := 0 to |ops|
        invariant Valid() && View() == Contents(ops[..i], size, maxSize)
      {
        assert ops[..i + 1][..i] == ops[..i];
        Perform(ops[i]);
      }
      assert ops[..|ops|] == ops;
    }
  }

  lemma NotFound<K(!new), D(!new)>(l: seq<Entry<K, D>>, k: K)
    ensures Lookup(l, k).None? ==> Touched(l, k) == l
  {
  }

  lemma InList<K(!new), D(!new)>(list: seq<Node<K, D>>, index: map<K, Node<K, D>>, k: K)
    requires Coherent(list, index) && k in index
    ensures index[k] in list
  {
  }

  lemma CoherentKeys<K(!new), D(!new)>(list: seq<Node<K, D>>, index: map<K, Node<K, D>>)
    requires Coherent(list, index)
    ensures DistinctKeys(Entries(list))
  {
  }

  lemma TouchedWithout<K(!new), D(!new)>(l: seq<Entry<K, D>>, k: K)
    requires DistinctKeys(l)
    ensures Without(Touched(l, k), k) == Without(l, k)
    ensures Lookup(Touched(l, k), k).Some? <==> Lookup(l, k).Some?
  {
    if Lookup(l, k).Some? {
      var w := Without(l, k);
      forall i | 0 <= i < |w|
        ensures w[i].key != k
      {
        WithoutMember(l, k, w[i]);
      }
      WithoutAbsent(w, k);
      assert Touched(l, k)[1..] == w;
    }
  }
}
