/** Cutting a sequence into pieces of at most a given size, in order. */
module Chunks {
  import opened Arith

  function Cut<T>(s: seq<T>, max: nat): (ps: seq<seq<T>>)
    requires max >= 1
    decreases |s|
  {
    if |s| == 0 then [] else if |s| <= max then [s] else [s[..max]] + Cut(s[max..], max)
  }

  function Flat<T>(ps: seq<seq<T>>): seq<T> { if ps == [] then [] else ps[0] + Flat(ps[1..]) }

  /** The pieces make up the sequence, none is empty or too long, and their number is |s|/max rounded up. */
  lemma {:induction false} CutShape<T>(s: seq<T>, max: nat)
    requires max >= 1
    ensures var ps := Cut(s, max);
            && Flat(ps) == s && |s| <= |ps| * max && (s == [] || (|ps| - 1) * max < |s|)
            && forall i :: 0 <= i < |ps| ==> 1 <= |ps[i]| <= max
    decreases |s|
  {
    if |s| > max {
      CutShape(s[max..], max);
      var k := |Cut(s[max..], max)|;
      assert (k + 1) * max == k * max + max && (k - 1) * max == k * max - max;
      assert s == s[..max] + s[max..];
    } else if |s| > 0 {
      assert Flat([s]) == s + Flat([s][1..]);
    }
  }

  lemma {:induction false} FlatSnoc<T>(ps: seq<seq<T>>, p: seq<T>)
    ensures Flat(ps + [p]) == Flat(ps) + p
  {
    if ps == [] {
      assert Flat([p]) == p + Flat([p][1..]);
    } else {
      FlatSnoc(ps[1..], p);
      assert (ps + [p])[1..] == ps[1..] + [p];
    }
  }

  /** A stretch of at most max elements from lo on, seen from behind the first piece. */
  lemma Shift<T>(s: seq<T>, max: nat, lo: nat)
    requires max <= |s| && lo < |s[max..]|
    ensures var t := s[max..];
            t[lo..if |t| <= lo + max then |t| else lo + max]
            == s[lo + max..if |s| <= lo + max + max then |s| else lo + max + max]
  {
  }

  /** The i-th piece, counted from 0. */
  lemma {:induction false} CutAt<T>(s: seq<T>, max: nat, i: nat)
    requires max >= 1 && i < |Cut(s, max)|
    ensures 0 <= i * max < |s|
    ensures Cut(s, max)[i] == s[i * max..if |s| <= i * max + max then |s| else i * max + max]
    decreases i
  {
    if i > 0 {
      CutAt(s[max..], max, i - 1);
      Next(i - 1, max);
      Shift(s, max, (i - 1) * max);
    } else if |s| <= max {
      assert s[0..|s|] == s;
    }
  }
}
