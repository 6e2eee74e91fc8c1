/** The chained hash table behind a ZHT server, kept in memory. */
module NoVoHTable {

  datatype Option<+T> = None | Some(value: T)

  class Kvpair {
    const key: string
    var val: string
    var next: Kvpair?

    constructor (key: string, val: string, next: Kvpair?)
      ensures this.key == key && this.val == val && this.next == next
    {
      this.key := key;
      this.val := val;
      this.next := next;
    }
  }

  // ---------- Chains ----------

  /** Following `next` from head visits exactly the nodes of ch. */
  ghost predicate Chain(head: Kvpair?, ch: seq<Kvpair>)
    reads ch`next
  {
    head == Nth(ch, 0) && Links(ch, |ch|)
  }

  /** The first k links of ch are in place. */
  ghost predicate Links(ch: seq<Kvpair>, k: nat)
    reads ch`next
  {
    forall j :: 0 <= j < k && j < |ch| ==> ch[j].next == Nth(ch, j + 1)
  }

  function Nth(ch: seq<Kvpair>, j: nat): Kvpair? { if j < |ch| then ch[j] else null }

  function Slot(hash: string -> nat, k: string, size: nat): nat
    requires size >= 1
  {
    hash(k) % size
  }

  ghost predicate DistinctKeys(ch: seq<Kvpair>) { forall i, j :: 0 <= i < j < |ch| ==> ch[i].key != ch[j].key }

  /** Every node is in the slot of its key, and no key occurs twice in a chain. */
  ghost predicate Placed(hash: string -> nat, chains: seq<seq<Kvpair>>) {
    && (forall s :: 0 <= s < |chains| ==> DistinctKeys(chains[s]))
    && forall s, node :: 0 <= s < |chains| && node in chains[s] ==> Slot(hash, node.key, |chains|) == s
  }

  ghost predicate HasKey(ch: seq<Kvpair>, k: string) { exists j :: 0 <= j < |ch| && ch[j].key == k }

  ghost predicate InSome(chains: seq<seq<Kvpair>>, node: Kvpair) { exists s :: 0 <= s < |chains| && node in chains[s] }

  /** `contents` is the map that the nodes spell out. */
  ghost predicate Spells(nodes: set<Kvpair>, contents: map<string, string>)
    reads nodes`val
  {
    && (forall node :: node in nodes ==> node.key in contents && contents[node.key] == node.val)
    && (forall k :: k in contents ==> exists node :: node in nodes && node.key == k)
  }

  ghost predicate UniqueKeys(nodes: set<Kvpair>) {
    forall a, b :: a in nodes && b in nodes && a.key == b.key ==> a == b
  }

  ghost predicate SameNodes(chains: seq<seq<Kvpair>>, nodes: set<Kvpair>) {
    && (forall s, node :: 0 <= s < |chains| && node in chains[s] ==> node in nodes)
    && (forall node :: node in nodes ==> InSome(chains, node))
  }

  /** In a placed table, a key can only be found in its own slot. */
  lemma KeySlot(hash: string -> nat, chains: seq<seq<Kvpair>>, nodes: set<Kvpair>, node: Kvpair)
    requires |chains| >= 1 && Placed(hash, chains) && SameNodes(chains, nodes) && node in nodes
    ensures node in chains[hash(node.key) % |chains|]
  {
    assert InSome(chains, node);
  }

  /** So keys are unique in the whole table. */
  lemma PlacedUnique(hash: string -> nat, chains: seq<seq<Kvpair>>, nodes: set<Kvpair>)
    requires |chains| >= 1 && Placed(hash, chains) && SameNodes(chains, nodes)
    ensures UniqueKeys(nodes)
  {
    forall a, b | a in nodes && b in nodes && a.key == b.key
      ensures a == b
    {
      KeySlot(hash, chains, nodes, a);
      KeySlot(hash, chains, nodes, b);
      var s := Slot(hash, a.key, |chains|);
      var i :| 0 <= i < |chains[s]| && chains[s][i] == a;
      var j :| 0 <= j < |chains[s]| && chains[s][j] == b;
    }
  }

  /** A new node may be linked at either end of the chain of its slot. */
  lemma AddNode(hash: string -> nat, chains: seq<seq<Kvpair>>, nodes: set<Kvpair>, s: nat, ch: seq<Kvpair>, add: Kvpair)
    requires s < |chains| && Placed(hash, chains) && SameNodes(chains, nodes)
    requires Slot(hash, add.key, |chains|) == s && !HasKey(chains[s], add.key)
    requires ch == [add] + chains[s] || ch == chains[s] + [add]
    ensures Placed(hash, chains[s := ch]) && SameNodes(chains[s := ch], nodes + {add})
  {
    var chains', nodes' := chains[s := ch], nodes + {add};
    assert forall x :: x in ch <==> x in chains[s] || x == add;
    forall node | node in nodes'
      ensures InSome(chains', node)
    {
      if node in nodes {
        var t :| 0 <= t < |chains| && node in chains[t];
        assert node in chains'[t];
      } else {
        assert node in chains'[s];
      }
    }
  }

  lemma SpellAdd(nodes: set<Kvpair>, contents: map<string, string>, add: Kvpair)
    requires Spells(nodes, contents) && add.key !in contents
    ensures Spells(nodes + {add}, contents[add.key := add.val])
  {
    var nodes', contents' := nodes + {add}, contents[add.key := add.val];
    forall k | k in contents'
      ensures exists node :: node in nodes' && node.key == k
    {
      if k in contents {
        var node :| node in nodes && node.key == k;
        assert node in nodes';
      } else {
        assert add in nodes' && add.key == k;
      }
    }
  }

  lemma FrontChain(add: Kvpair, ch: seq<Kvpair>)
    requires Chain(add.next, ch)
    ensures Chain(add, [add] + ch)
  {
    var ch' := [add] + ch;
    forall j | 0 <= j < |ch'|
      ensures ch'[j].next == Nth(ch', j + 1)
    {
      if j > 0 { assert ch'[j] == ch[j - 1]; }
    }
  }

  /** A node of one chain is in no other. */
  lemma OtherChains(hash: string -> nat, chains: seq<seq<Kvpair>>, loc: nat, node: Kvpair)
    requires |chains| >= 1 && Placed(hash, chains) && loc < |chains| && node in chains[loc]
    ensures forall s :: 0 <= s < |chains| && s != loc ==> node !in chains[s]
    ensures DistinctKeys(chains[loc])
  {
    forall s | 0 <= s < |chains| && node in chains[s]
      ensures s == loc
    {
      assert Slot(hash, node.key, |chains|) == s;
    }
  }

  lemma BackChain(head: Kvpair?, ch: seq<Kvpair>, add: Kvpair)
    requires |ch| > 0 && head == ch[0] && Links(ch, |ch| - 1) && ch[|ch| - 1].next == add && add.next == null
    ensures Chain(head, ch + [add])
  {
    var ch' := ch + [add];
    forall j | 0 <= j < |ch'|
      ensures ch'[j].next == Nth(ch', j + 1)
    {
      if j < |ch| - 1 { assert ch[j].next == ch[j + 1]; }
    }
  }

  lemma DropChain(head: Kvpair?, ch: seq<Kvpair>, j: nat)
    requires j + 1 < |ch| && head == ch[0] && Links(ch, j) && ch[j].next == Nth(ch, j + 2)
    requires forall i :: j < i < |ch| ==> ch[i].next == Nth(ch, i + 1)
    ensures Chain(head, ch[..j + 1] + ch[j + 2..])
  {
    var ch' := ch[..j + 1] + ch[j + 2..];
    forall i | 0 <= i < |ch'|
      ensures ch'[i].next == Nth(ch', i + 1)
    {
      if i < j { assert ch[i].next == ch[i + 1]; }
      else if i > j { assert ch[i + 1].next == Nth(ch, i + 2); }
    }
  }

  /** node->next = next, where node is the j-th of chain ch. */
  method SetNext(node: Kvpair, next: Kvpair?, ghost ch: seq<Kvpair>, ghost j: nat)
    requires j < |ch| && ch[j] == node && Links(ch, |ch|) && DistinctKeys(ch)
    modifies node`next
    ensures node.next == next && Links(ch, j)
    ensures forall i :: j < i < |ch| ==> ch[i].next == Nth(ch, i + 1)
  {
    node.next := next;
    forall i | 0 <= i < |ch| && i != j
      ensures ch[i].next == Nth(ch, i + 1)
    {
      if i < j { assert ch[i].key != ch[j].key; } else { assert ch[j].key != ch[i].key; }
    }
  }

  lemma TailChain(ch: seq<Kvpair>)
    requires |ch| > 0 && Chain(ch[0], ch)
    ensures Chain(ch[0].next, ch[1..])
  {
  }

  lemma HeadFirst(head: Kvpair?, ch: seq<Kvpair>)
    requires Chain(head, ch) && |ch| > 0
    ensures head == ch[0]
  {
  }

  lemma ChainLinks(head: Kvpair?, ch: seq<Kvpair>)
    requires Chain(head, ch)
    ensures Links(ch, |ch|) && head == Nth(ch, 0)
    ensures forall j :: 0 <= j < |ch| ==> ch[j].next == Nth(ch, j + 1)
  {
  }

  lemma ChainEmpty(head: Kvpair?, ch: seq<Kvpair>)
    requires Chain(head, ch)
    ensures head == null <==> ch == []
  {
  }

  /** Unlinking the j-th node of a chain. */
  lemma DropNode(hash: string -> nat, chains: seq<seq<Kvpair>>, nodes: set<Kvpair>, s: nat, j: nat)
    requires s < |chains| && Placed(hash, chains) && SameNodes(chains, nodes) && j < |chains[s]|
    ensures var chains' := chains[s := chains[s][..j] + chains[s][j + 1..]];
            Placed(hash, chains') && SameNodes(chains', nodes - {chains[s][j]})
  {
    var ch, r := chains[s], chains[s][j];
    var ch' := ch[..j] + ch[j + 1..];
    var chains', nodes' := chains[s := ch'], nodes - {r};
    forall node
      ensures node in ch' <==> node in ch && node != r
    {
      if node in ch && node != r {
        var i :| 0 <= i < |ch| && ch[i] == node;
        assert ch'[if i < j then i else i - 1] == node;
      }
      if node in ch' {
        var i :| 0 <= i < |ch'| && ch'[i] == node;
        var i0 := if i < j then i else i + 1;
        assert ch[i0] == node && ch[i0].key != r.key;
      }
    }
    forall node | node in nodes'
      ensures InSome(chains', node)
    {
      var t :| 0 <= t < |chains| && node in chains[t];
      assert node in chains'[t];
    }
    OtherChains(hash, chains, s, r);
  }

  lemma SpellDrop(nodes: set<Kvpair>, contents: map<string, string>, r: Kvpair)
    requires Spells(nodes, contents) && UniqueKeys(nodes) && r in nodes
    ensures Spells(nodes - {r}, contents - {r.key})
  {
    var nodes', contents' := nodes - {r}, contents - {r.key};
    forall k | k in contents'
      ensures exists node :: node in nodes' && node.key == k
    {
      var node :| node in nodes && node.key == k;
      assert node in nodes';
    }
  }

  // ---------- Rehashing ----------

  ghost function NodeSet(ch: seq<Kvpair>): set<Kvpair> { set node | node in ch }

  /** The node is at the front of the chain of its slot; the other chains are unchanged. */
  ghost function PushedFront(hash: string -> nat, chains: seq<seq<Kvpair>>, node: Kvpair): seq<seq<Kvpair>> {
    if |chains| == 0 then chains
    else
      var s := Slot(hash, node.key, |chains|);
      chains[s := [node] + chains[s]]
  }

  /** The nodes of ch, in order, have been pushed to the fronts of the chains of their slots. */
  ghost function Rehashed(hash: string -> nat, chains: seq<seq<Kvpair>>, ch: seq<Kvpair>): seq<seq<Kvpair>> {
    if ch == [] then chains else PushedFront(hash, Rehashed(hash, chains, ch[..|ch| - 1]), ch[|ch| - 1])
  }

  /** The nodes of ch whose keys hash to slot s of n, in order. */
  ghost function InSlot(hash: string -> nat, ch: seq<Kvpair>, s: nat, n: nat): seq<Kvpair>
    requires n >= 1
  {
    if ch == [] then [] else (if hash(ch[0].key) % n == s then [ch[0]] else []) + InSlot(hash, ch[1..], s, n)
  }

  ghost function Reversed(ch: seq<Kvpair>): seq<Kvpair> { if ch == [] then [] else Reversed(ch[1..]) + [ch[0]] }

  lemma {:induction false} InSlotSnoc(hash: string -> nat, ch: seq<Kvpair>, x: Kvpair, s: nat, n: nat)
    requires n >= 1
    ensures InSlot(hash, ch + [x], s, n) == InSlot(hash, ch, s, n) + if hash(x.key) % n == s then [x] else []
  {
    if ch == [] {
      assert [x][1..] == [];
    } else {
      InSlotSnoc(hash, ch[1..], x, s, n);
      assert (ch + [x])[1..] == ch[1..] + [x];
    }
  }

  lemma {:induction false} ReversedSnoc(ch: seq<Kvpair>, x: Kvpair)
    ensures Reversed(ch + [x]) == [x] + Reversed(ch)
  {
    if ch == [] {
      assert [x][1..] == [];
    } else {
      ReversedSnoc(ch[1..], x);
      assert (ch + [x])[1..] == ch[1..] + [x];
    }
  }

  /** After rehashing each chain has the nodes that belong there, the last one first, before those it had. */
  lemma {:induction false} RehashedChain(hash: string -> nat, chains: seq<seq<Kvpair>>, ch: seq<Kvpair>, s: nat)
    requires s < |chains|
    ensures |Rehashed(hash, chains, ch)| == |chains|
    ensures Rehashed(hash, chains, ch)[s] == Reversed(InSlot(hash, ch, s, |chains|)) + chains[s]
  {
    if ch != [] {
      var init, x := ch[..|ch| - 1], ch[|ch| - 1];
      RehashedChain(hash, chains, init, s);
      InSlotSnoc(hash, init, x, s, |chains|);
      var mine := InSlot(hash, init, s, |chains|);
      ReversedSnoc(mine, x);
      assert init + [x] == ch && mine + [] == mine;
      assert [x] + (Reversed(mine) + chains[s]) == [x] + Reversed(mine) + chains[s];
    }
  }

  lemma RehashedNone(hash: string -> nat, chains: seq<seq<Kvpair>>)
    ensures Rehashed(hash, chains, []) == chains
  {
  }

  lemma RehashedSnoc(hash: string -> nat, chains: seq<seq<Kvpair>>, ch: seq<Kvpair>, node: Kvpair)
    ensures Rehashed(hash, chains, ch + [node]) == PushedFront(hash, Rehashed(hash, chains, ch), node)
  {
    assert (ch + [node])[..|ch|] == ch;
  }

  ghost predicate Apart(ch: seq<Kvpair>, nodes: set<Kvpair>) {
    forall a, b :: a in ch && b in nodes ==> a.key != b.key
  }

  lemma NewKey(ch: seq<Kvpair>, nodes: set<Kvpair>, j: nat)
    requires DistinctKeys(ch) && Apart(ch, nodes) && j < |ch|
    ensures forall other :: other in nodes + NodeSet(ch[..j]) ==> other.key != ch[j].key
  {
  }

  /** The links from the j-th node on are in place. */
  ghost predicate Tail(ch: seq<Kvpair>, j: nat)
    requires j <= |ch|
    reads ch[j..]`next
  {
    forall i :: j <= i < |ch| ==> ch[i].next == Nth(ch, i + 1)
  }

  lemma TailStep(ch: seq<Kvpair>, j: nat)
    requires DistinctKeys(ch) && j < |ch| && Tail(ch, j)
    ensures Tail(ch, j + 1) && ch[j].next == Nth(ch, j + 1) && ch[j] !in ch[j + 1..]
  {
    forall i | j < i < |ch|
      ensures ch[i] != ch[j]
    {
      assert ch[j].key != ch[i].key;
    }
  }

  lemma WholeTail(head: Kvpair?, ch: seq<Kvpair>)
    requires Chain(head, ch)
    ensures Tail(ch, 0) && head == Nth(ch, 0)
  {
  }

  lemma NotIn(chains: seq<seq<Kvpair>>, nodes: set<Kvpair>, node: Kvpair)
    requires SameNodes(chains, nodes) && forall other :: other in nodes ==> other.key != node.key
    ensures forall s :: 0 <= s < |chains| ==> node !in chains[s] && !HasKey(chains[s], node.key)
  {
    forall s | 0 <= s < |chains|
      ensures node !in chains[s] && !HasKey(chains[s], node.key)
    {
      forall j | 0 <= j < |chains[s]|
        ensures chains[s][j].key != node.key
      {
        assert chains[s][j] in nodes;
      }
    }
  }

  /** Chains not yet moved share no key with those already moved. */
  lemma OnlyLater(hash: string -> nat, chains: seq<seq<Kvpair>>, i: nat, moved: set<Kvpair>)
    requires i < |chains| && Placed(hash, chains) && SameNodes(chains[..i], moved)
    ensures Apart(chains[i], moved) && DistinctKeys(chains[i])
    ensures forall s, node :: i < s < |chains| && node in chains[i] ==> node !in chains[s]
  {
    forall a, b | a in chains[i] && b in moved
      ensures a.key != b.key
    {
      assert InSome(chains[..i], b);
    }
    forall s, node | i < s < |chains| && node in chains[i]
      ensures node !in chains[s]
    {
      OtherChains(hash, chains, i, node);
    }
  }

  lemma NoChains(chains: seq<seq<Kvpair>>)
    ensures SameNodes(chains[..0], {})
  {
  }

  lemma Members(chains: seq<seq<Kvpair>>, nodes: set<Kvpair>, i: nat)
    requires i < |chains| && SameNodes(chains, nodes)
    ensures forall node :: node in chains[i] ==> node in nodes
  {
  }

  lemma SameSet(chains: seq<seq<Kvpair>>, a: set<Kvpair>, b: set<Kvpair>)
    requires SameNodes(chains, a) && SameNodes(chains, b)
    ensures a == b
  {
    forall node
      ensures node in a <==> node in b
    {
      if node in a { assert InSome(chains, node); }
      if node in b { assert InSome(chains, node); }
    }
  }

  lemma MovedTo(chains: seq<seq<Kvpair>>, i: nat, moved: set<Kvpair>, moved': set<Kvpair>)
    requires i < |chains| && SameNodes(chains[..i], moved) && moved' == moved + NodeSet(chains[i])
    ensures SameNodes(chains[..i + 1], moved')
  {
    forall node | node in moved'
      ensures InSome(chains[..i + 1], node)
    {
      if node in moved {
        var s :| 0 <= s < i && node in chains[..i][s];
        assert node in chains[..i + 1][s];
      } else {
        assert node in chains[..i + 1][i];
      }
    }
  }

  class NoVoHT {
    const hash: string -> nat
    const resizeNum: real
    const magicNumber: int
    var kvpairs: array<Kvpair?>
    var size: int
    var numEl: int
    var nRem: int
    ghost var chains: seq<seq<Kvpair>>
    ghost var nodes: set<Kvpair>
    ghost var contents: map<string, string>

    ghost predicate Valid()
      reads this, kvpairs, nodes
    {
      Structured() && Spells(nodes, contents)
    }

    ghost predicate Structured()
      reads this`size, this`kvpairs, this`chains, this`nodes, kvpairs, nodes`next
    {
      && size >= 1 && kvpairs.Length == size == |chains|
      && Placed(hash, chains) && SameNodes(chains, nodes)
      && Linked()
    }

    ghost predicate Linked()
      requires kvpairs.Length == |chains| && SameNodes(chains, nodes)
      reads this`kvpairs, this`chains, this`nodes, kvpairs, nodes`next
    {
      forall s :: 0 <= s < |chains| ==> Chain(kvpairs[s], chains[s])
    }

    constructor (hash: string -> nat, initSize: int, magicNumber: int, resizeNum: real)
      requires initSize >= 1
      ensures Valid() && contents == map[] && fresh(kvpairs) && nodes == {} && this.hash == hash
    {
      this.hash := hash;
      this.resizeNum := resizeNum;
      this.magicNumber := magicNumber;
      kvpairs := new Kvpair?[initSize](_ => null);
      size, numEl, nRem := initSize, 0, 0;
      chains, nodes, contents := seq(initSize, s => []), {}, map[];
    }

    /** What the slot of k says about k. */
    lemma SlotLookup(k: string)
      requires Valid()
      ensures var ch := chains[hash(k) % size];
              && (HasKey(ch, k) <==> k in contents)
              && forall j :: 0 <= j < |ch| && ch[j].key == k ==> contents[k] == ch[j].val
    {
      if k in contents {
        var node :| node in nodes && node.key == k;
        KeySlot(hash, chains, nodes, node);
      }
    }

    lemma ChainAt(s: nat)
      requires Valid() && s < |chains|
      ensures Chain(kvpairs[s], chains[s])
    {
    }

    method Get(k: string) returns (r: Option<string>)
      requires Valid()
      ensures k != "" ==> r == if k in contents then Some(contents[k]) else None
      ensures k == "" ==> r == None
    {
      hide Placed, SameNodes, Spells, Chain, Linked;
      var loc := Slot(hash, k, size);
      SlotLookup(k);
      ChainAt(loc);
      if k == "" {
        return None;
      }
      var cur := Find(kvpairs[loc], chains[loc], k);
      return if cur == null then None else Some(cur.val);
    }

    method Append(k: string, aval: string) returns (ret: int)
      requires Valid()
      modifies this, kvpairs, nodes
      ensures Valid() && ret == 0 && fresh(nodes - old(nodes)) && kvpairs == old(kvpairs)
      ensures contents == old(contents)[k := if k in old(contents) then old(contents)[k] + ":" + aval else aval]
    {
      hide Placed, SameNodes, Spells, Chain, Linked;
      var loc := Slot(hash, k, size);
      SlotLookup(k);
      ChainAt(loc);
      var cur := Find(kvpairs[loc], chains[loc], k);
      if cur != null {
        InTable(loc, cur);
        SetVal(cur, cur.val + ":" + aval);
      } else {
        PushFront(loc, k, aval);
      }
      ret := 0;
    }

    lemma InTable(s: nat, node: Kvpair)
      requires Valid() && s < |chains| && node in chains[s]
      ensures node in nodes
    {
    }

    method PushFront(loc: int, k: string, v: string)
      requires Valid() && k !in contents && loc == Slot(hash, k, size)
      modifies this, kvpairs
      ensures Valid() && fresh(nodes - old(nodes)) && kvpairs == old(kvpairs)
      ensures contents == old(contents)[k := v] && numEl == old(numEl) + 1 && size == old(size)
    {
      hide Placed, SameNodes, Spells, Chain;
      SlotLookup(k);
      var add := new Kvpair(k, v, kvpairs[loc]);
      AddNode(hash, chains, nodes, loc, [add] + chains[loc], add);
      kvpairs[loc] := add;
      numEl := numEl + 1;
      chains, nodes, contents := chains[loc := [add] + chains[loc]], nodes + {add}, contents[k := v];
      SpellAdd(old(nodes), old(contents), add);
      FrontChain(add, old(chains)[loc]);
    }

    /** cur->val = v */
    method SetVal(cur: Kvpair, v: string)
      requires Valid() && cur in nodes
      modifies this`contents, cur`val
      ensures Valid() && contents == old(contents)[cur.key := v]
    {
      PlacedUnique(hash, chains, nodes);
      cur.val := v;
      contents := contents[cur.key := v];
    }

    // ---------- put ----------

    method Put(k: string, v: string) returns (ret: int)
      requires Valid()
      modifies this, kvpairs, nodes
      ensures Valid() && ret == 0 && contents == old(contents)[k := v]
      ensures fresh(nodes - old(nodes)) && (kvpairs == old(kvpairs) || fresh(kvpairs))
      // resize forgets the number of elements
      ensures var grow := old(numEl) as real >= old(size) as real * resizeNum && resizeNum != 0.0;
              && size == (if grow then 2 * old(size) else old(size))
              && numEl == (if grow then 0 else old(numEl)) + (if k in old(contents) then 0 else 1)
    {
      hide Placed, SameNodes, Spells, Chain, Linked, Structured;
      if numEl as real >= size as real * resizeNum {
        if resizeNum != 0.0 {
          SizePositive();
          Resize(size * 2);
        }
      }
      SizePositive();
      PutNode(Slot(hash, k, size), k, v);
      ret := 0;
    }

    lemma SizePositive()
      requires Valid()
      ensures size >= 1
    {
    }

    method PutNode(slot: int, k: string, v: string)
      requires Valid() && slot == Slot(hash, k, size)
      modifies this, kvpairs, nodes
      ensures Valid() && contents == old(contents)[k := v] && kvpairs == old(kvpairs) && size == old(size)
      ensures fresh(nodes - old(nodes)) && numEl == old(numEl) + (if k in old(contents) then 0 else 1)
    {
      hide Placed, SameNodes, Spells, Chain, Linked;
      SlotLookup(k);
      ChainAt(slot);
      if kvpairs[slot] == null {
        ChainEmpty(kvpairs[slot], chains[slot]);
        PushFront(slot, k, v);
      } else {
        var cur := FindOrLast(kvpairs[slot], chains[slot], k);
        InTable(slot, cur);
        if k == cur.key {
          SetVal(cur, v);
        } else {
          PushBack(slot, cur, k, v);
        }
      }
    }

    method PushBack(loc: int, last: Kvpair, k: string, v: string)
      requires Valid() && k !in contents && loc == Slot(hash, k, size)
      requires |chains[loc]| > 0 && last == chains[loc][|chains[loc]| - 1]
      modifies this, last`next
      ensures Valid() && fresh(nodes - old(nodes)) && kvpairs == old(kvpairs) && size == old(size)
      ensures contents == old(contents)[k := v] && numEl == old(numEl) + 1
    {
      hide Placed, SameNodes, Spells, Links, Linked, DistinctKeys;
      SlotLookup(k);
      var add := new Kvpair(k, v, null);
      AddNode(hash, chains, nodes, loc, chains[loc] + [add], add);
      SpellAdd(nodes, contents, add);
      LinkBack(loc, last, add);
      numEl := numEl + 1;
      contents := contents[k := v];
    }

    /** cur->next = add, at the end of the chain of slot loc. */
    method LinkBack(loc: nat, last: Kvpair, add: Kvpair)
      requires Structured() && loc < |chains| && |chains[loc]| > 0 && last == chains[loc][|chains[loc]| - 1]
               && add.next == null && add !in nodes
      requires Placed(hash, chains[loc := chains[loc] + [add]])
               && SameNodes(chains[loc := chains[loc] + [add]], nodes + {add})
      modifies this`chains, this`nodes, last`next
      ensures Structured() && nodes == old(nodes) + {add} && chains == old(chains)[loc := old(chains)[loc] + [add]]
    {
      hide Placed, SameNodes, Links, DistinctKeys;
      ghost var ch := chains[loc];
      OtherChains(hash, chains, loc, last);
      ChainLinks(kvpairs[loc], ch);
      InChain(loc, last);
      SetNext(last, add, ch, |ch| - 1);
      BackChain(kvpairs[loc], ch, add);
      chains, nodes := chains[loc := ch + [add]], nodes + {add};
    }

    lemma InChain(s: nat, node: Kvpair)
      requires Structured() && s < |chains| && node in chains[s]
      ensures node in nodes
    {
    }

    // ---------- remove ----------

    method Remove(k: string) returns (ret: int)
      requires Valid()
      modifies this, kvpairs, nodes
      ensures Valid() && contents == old(contents) - {k}
      ensures ret == if k in old(contents) then 0 else -1
      ensures kvpairs == old(kvpairs) && nodes <= old(nodes)
      ensures numEl == old(numEl) - (if k in old(contents) then 1 else 0)
    {
      hide Placed, SameNodes, Spells, Chain, Linked;
      var loc := Slot(hash, k, size);
      SlotLookup(k);
      ChainAt(loc);
      var cur := kvpairs[loc];
      ChainEmpty(cur, chains[loc]);
      ret := -1;
      if cur != null {
        HeadFirst(cur, chains[loc]);
        if k == cur.key {
          UnlinkHead(loc, cur);
          ret := 0;
        } else {
          ghost var j;
          cur, j := FindBefore(cur, chains[loc], k);
          if cur != null {
            InTable(loc, cur);
            UnlinkNext(loc, cur, j);
            ret := 0;
          }
        }
      }
    }

    method UnlinkHead(loc: nat, cur: Kvpair)
      requires Valid() && loc < |chains| && |chains[loc]| > 0 && cur == chains[loc][0]
      modifies this, kvpairs
      ensures Valid() && contents == old(contents) - {cur.key} && kvpairs == old(kvpairs) && nodes <= old(nodes)
      ensures numEl == old(numEl) - 1
    {
      hide Placed, SameNodes, Spells, Chain;
      PlacedUnique(hash, chains, nodes);
      InTable(loc, cur);
      ChainAt(loc);
      HeadFirst(kvpairs[loc], chains[loc]);
      TailChain(chains[loc]);
      DropNode(hash, chains, nodes, loc, 0);
      SpellDrop(nodes, contents, cur);
      assert chains[loc][..0] + chains[loc][1..] == chains[loc][1..];
      kvpairs[loc] := cur.next;
      numEl := numEl - 1;
      nRem := nRem + 1;
      chains, nodes, contents := chains[loc := chains[loc][1..]], nodes - {cur}, contents - {cur.key};
    }

    method UnlinkNext(loc: nat, cur: Kvpair, ghost j: nat)
      requires Valid() && loc < |chains| && j + 1 < |chains[loc]| && cur == chains[loc][j]
      modifies this, cur`next
      ensures Valid() && contents == old(contents) - {old(chains)[loc][j + 1].key} && kvpairs == old(kvpairs)
              && nodes <= old(nodes)
      ensures numEl == old(numEl) - 1
    {
      hide Placed, SameNodes, Spells, Links, Linked, DistinctKeys;
      ghost var r := chains[loc][j + 1];
      PlacedUnique(hash, chains, nodes);
      InTable(loc, r);
      SpellDrop(nodes, contents, r);
      DropNode(hash, chains, nodes, loc, j + 1);
      Bypass(loc, cur, j);
      numEl := numEl - 1;
      nRem := nRem + 1;
      contents := contents - {r.key};
    }

    /** cur->next = cur->next->next */
    method Bypass(loc: nat, cur: Kvpair, ghost j: nat)
      requires Structured() && loc < |chains| && j + 1 < |chains[loc]| && cur == chains[loc][j]
      requires var chains' := chains[loc := chains[loc][..j + 1] + chains[loc][j + 2..]];
               Placed(hash, chains') && SameNodes(chains', nodes - {chains[loc][j + 1]})
      modifies this`chains, this`nodes, cur`next
      ensures Structured() && nodes == old(nodes) - {old(chains)[loc][j + 1]}
    {
      hide Placed, SameNodes, Links, DistinctKeys;
      ghost var ch := chains[loc];
      OtherChains(hash, chains, loc, cur);
      ChainLinks(kvpairs[loc], ch);
      var r := cur.next;
      SetNext(cur, r.next, ch, j);
      DropChain(kvpairs[loc], ch, j);
      chains, nodes := chains[loc := ch[..j + 1] + ch[j + 2..]], nodes - {r};
    }

    // ---------- resize ----------

    /** Rehash every node in place into a table of ns slots. */
    method Resize(ns: int)
      requires Valid() && ns >= 1
      modifies this, nodes`next
      ensures Valid() && size == ns && numEl == 0
      ensures nodes == old(nodes) && contents == old(contents) && fresh(kvpairs)
    {
      hide Placed, SameNodes, Linked, Links, Structured, Spells, Apart, DistinctKeys, Rehashed;
      var olds, oldpairs := size, kvpairs;
      ghost var all, chains0 := nodes, chains;
      AllChains();
      Clear(ns);
      NoChains(chains0);
      for i := 0 to olds
        invariant Structured() && size == ns && numEl == 0 && fresh(kvpairs) && contents == old(contents)
        invariant SameNodes(chains0[..i], nodes) && Spells(all, contents)
        invariant forall s :: i <= s < olds ==> Chain(oldpairs[s], chains0[s])
      {
        OnlyLater(hash, chains0, i, nodes);
        ghost var moved := nodes;
        Members(chains0, all, i);
        MoveChain(oldpairs[i], chains0[i]);
        MovedTo(chains0, i, moved, nodes);
      }
      assert chains0[..olds] == chains0;
      SameSet(chains0, all, nodes);
    }

    lemma AllChains()
      requires Valid()
      ensures kvpairs.Length == size == |chains| >= 1 && Placed(hash, chains) && SameNodes(chains, nodes)
              && Spells(nodes, contents)
      ensures forall s :: 0 <= s < |chains| ==> Chain(kvpairs[s], chains[s])
    {
    }

    /** An empty table of ns slots; the old nodes are left alone. */
    method Clear(ns: int)
      requires ns >= 1
      modifies this
      ensures Structured() && size == ns && numEl == 0 && nodes == {} && contents == old(contents) && fresh(kvpairs)
    {
      size := ns;
      kvpairs := new Kvpair?[ns](_ => null);
      numEl := 0;
      chains, nodes := seq(ns, s => []), {};
    }

    /** The inner loop of resize: the nodes of one old chain, in order, to the fronts of their new chains. */
    method MoveChain(head: Kvpair?, ghost ch: seq<Kvpair>)
      requires Structured() && Chain(head, ch) && DistinctKeys(ch) && Apart(ch, nodes)
      modifies this`chains, this`nodes, kvpairs, ch`next
      ensures Structured() && nodes == old(nodes) + NodeSet(ch)
      ensures chains == Rehashed(hash, old(chains), ch)
    {
      hide Placed, SameNodes, Linked, Structured, DistinctKeys, Apart, Tail, Chain, Rehashed;
      WholeTail(head, ch);
      var cur := head;
      ghost var j := 0;
      assert ch[..0] == [];
      RehashedNone(hash, chains);
      while cur != null
        invariant 0 <= j <= |ch| && cur == Nth(ch, j)
        invariant Tail(ch, j)
        invariant Structured() && nodes == old(nodes) + NodeSet(ch[..j])
        invariant chains == Rehashed(hash, old(chains), ch[..j])
        decreases |ch| - j
      {
        NewKey(ch, old(nodes), j);
        TailStep(ch, j);
        assert ch[..j + 1] == ch[..j] + [cur];
        RehashedSnoc(hash, old(chains), ch[..j], cur);
        cur := Relink(cur);
        j := j + 1;
      }
      assert ch[..j] == ch;
    }

    /** One step of the rehash; yields the next node of the old chain. */
    method Relink(node: Kvpair) returns (rest: Kvpair?)
      requires Structured() && forall other :: other in nodes ==> other.key != node.key
      modifies this`chains, this`nodes, kvpairs, node`next
      ensures Structured() && nodes == old(nodes) + {node} && rest == old(node.next)
      ensures chains == PushedFront(hash, old(chains), node)
    {
      hide Placed, SameNodes, Chain;
      var pos := Slot(hash, node.key, size);
      ghost var ch := chains[pos];
      NotIn(chains, nodes, node);
      AddNode(hash, chains, nodes, pos, [node] + ch, node);
      var tmp := kvpairs[pos];
      kvpairs[pos] := node;
      rest := node.next;
      kvpairs[pos].next := tmp;
      FrontChain(node, ch);
      chains, nodes := chains[pos := [node] + ch], nodes + {node};
    }
  }

  /** The search loop of get and append. */
  method Find(head: Kvpair?, ghost ch: seq<Kvpair>, k: string) returns (cur: Kvpair?)
    requires Chain(head, ch)
    ensures cur == null <==> !HasKey(ch, k)
    ensures cur != null ==> cur in ch && cur.key == k
  {
    cur := head;
    ghost var j := 0;
    while cur != null
      invariant 0 <= j <= |ch| && cur == Nth(ch, j)
      invariant forall i :: 0 <= i < j ==> ch[i].key != k
      decreases |ch| - j
    {
      if k == cur.key {
        return;
      }
      cur := cur.next;
      j := j + 1;
    }
  }

  /** The loop of put: stops at the node of k, else at the last node. */
  method FindOrLast(head: Kvpair, ghost ch: seq<Kvpair>, k: string) returns (cur: Kvpair)
    requires Chain(head, ch)
    ensures cur in ch
    ensures cur.key != k ==> !HasKey(ch, k) && |ch| > 0 && cur == ch[|ch| - 1]
  {
    cur := head;
    ghost var j := 0;
    while cur.next != null
      invariant 0 <= j < |ch| && cur == Nth(ch, j)
      invariant forall i :: 0 <= i < j ==> ch[i].key != k
      decreases |ch| - j
    {
      if k == cur.key {
        return;
      }
      cur := cur.next;
      j := j + 1;
    }
  }

  /** The loop of remove: stops before the node of k. */
  method FindBefore(head: Kvpair, ghost ch: seq<Kvpair>, k: string) returns (cur: Kvpair?, ghost j: nat)
    requires Chain(head, ch) && head.key != k
    ensures cur == null <==> !HasKey(ch, k)
    ensures cur != null ==> j + 1 < |ch| && cur == ch[j] && ch[j + 1].key == k
  {
    cur, j := head, 0;
    while cur != null
      invariant 0 <= j < |ch| && cur == Nth(ch, j)
      invariant forall i :: 0 <= i <= j ==> ch[i].key != k
      decreases |ch| - j
    {
      if cur.next == null {
        return null, j;
      } else if k == cur.next.key {
        return;
      }
      cur := cur.next;
      j := j + 1;
    }
  }
}
