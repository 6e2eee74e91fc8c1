/** Strings: the tokenizer, delimiter-terminated lists and decimal numbers. */
module Text {

  datatype Option<+T> = None | Some(value: T)

  // ---------- Tokens ----------

  ghost predicate Free(s: string, c: char) { c !in s }

  /** Length of the longest prefix without c. */
  function Stretch(s: string, c: char): (n: nat)
    ensures n <= |s| && c !in s[..n] && (n < |s| ==> s[n] == c)
  {
    if s == "" || s[0] == c then 0
    else
      assert s == [s[0]] + s[1..];
      1 + Stretch(s[1..], c)
  }

  /** The maximal non-empty stretches without c, in order. */
  function Tokens(s: string, c: char): seq<string>
    decreases |s|
  {
    var n := Stretch(s, c);
    if s == "" then [] else if n == 0 then Tokens(s[1..], c) else [s[..n]] + Tokens(s[n..], c)
  }

  lemma {:induction false} StretchIs(s: string, c: char, n: nat)
    requires n <= |s| && c !in s[..n] && (n < |s| ==> s[n] == c)
    ensures Stretch(s, c) == n
  {
    if n > 0 {
      assert s[..n] == [s[0]] + s[1..][..n - 1];
      StretchIs(s[1..], c, n - 1);
    }
  }

  /** A delimiter ends a token, if there is one. */
  lemma TokensCut(a: string, b: string, c: char)
    requires Free(a, c)
    ensures Tokens(a + [c] + b, c) == (if a == "" then [] else [a]) + Tokens(b, c)
  {
    var s := a + [c] + b;
    assert s[..|a|] == a;
    StretchIs(s, c, |a|);
    if a == "" {
      assert s[1..] == b;
    } else {
      assert s[|a|..] == [c] + b;
      StretchIs([c] + b, c, 0);
      assert ([c] + b)[1..] == b;
    }
  }

  lemma TokensWhole(a: string, c: char)
    requires Free(a, c)
    ensures Tokens(a, c) == if a == "" then [] else [a]
  {
    assert a[..|a|] == a;
    StretchIs(a, c, |a|);
    assert a[|a|..] == "";
  }

  /** source.find_first_of(c, prev); |source| stands for npos. */
  function FindFirstOf(source: string, c: char, prev: nat): (next: nat)
    requires prev <= |source|
    ensures prev <= next <= |source|
  {
    prev + Stretch(source[prev..], c)
  }

  lemma NextToken(source: string, c: char, prev: nat)
    requires prev <= |source| && FindFirstOf(source, c, prev) < |source|
    ensures var next := FindFirstOf(source, c, prev);
            Tokens(source[prev..], c) == (if next == prev then [] else [source[prev..next]]) +
            Tokens(source[next + 1..], c)
  {
    hide Tokens;
    var next := FindFirstOf(source, c, prev);
    assert source[prev..][..next - prev] == source[prev..next];
    assert source[prev..][next - prev] == source[next];
    assert source[prev..] == source[prev..next] + [c] + source[next + 1..];
    TokensCut(source[prev..next], source[next + 1..], c);
  }

  lemma LastToken(source: string, c: char, prev: nat)
    requires prev <= |source| && FindFirstOf(source, c, prev) == |source|
    ensures Tokens(source[prev..], c) == if prev == |source| then [] else [source[prev..]]
  {
    var rest := source[prev..];
    assert rest[..|rest|] == rest;
    TokensWhole(rest, c);
  }

  method Tokenize(source: string, c: char) returns (results: seq<string>)
    ensures results == Tokens(source, c)
  {
    hide Tokens, FindFirstOf;
    results := [];
    TokensWhole("", c);
    if source == "" {
      return;
    }
    var prev := 0;
    var next := FindFirstOf(source, c, prev);
    assert source[0..] == source;
    while next < |source|
      invariant prev <= next <= |source| && next == FindFirstOf(source, c, prev)
      invariant results + Tokens(source[prev..], c) == Tokens(source, c)
      decreases |source| - prev
    {
      NextToken(source, c, prev);
      if next - prev != 0 {
        results := results + [source[prev..next]];
      }
      prev := next + 1;
      next := FindFirstOf(source, c, prev);
    }
    LastToken(source, c, prev);
    if prev < |source| {
      results := results + [source[prev..]];
    }
  }

  /** Every token is non-empty and free of the delimiter. */
  lemma {:induction false} TokensClean(s: string, c: char, i: nat)
    requires i < |Tokens(s, c)|
    ensures Clean(Tokens(s, c)[i], c)
    ensures forall d :: d in Tokens(s, c)[i] ==> d in s
    decreases |s|
  {
    var n := Stretch(s, c);
    if n == 0 { TokensClean(s[1..], c, i); }
    else if i > 0 { TokensClean(s[n..], c, i - 1); }
  }

  // ---------- Delimiter-terminated lists ----------

  /** Each element followed by the doubled delimiter. */
  function Joined(xs: seq<string>, c: char): string {
    if xs == [] then "" else xs[0] + [c, c] + Joined(xs[1..], c)
  }

  ghost predicate Clean(x: string, c: char) { x != "" && Free(x, c) }

  ghost predicate AllClean(xs: seq<string>, c: char) { forall i :: 0 <= i < |xs| ==> Clean(xs[i], c) }

  lemma JoinedCons(x: string, xs: seq<string>, c: char)
    ensures Joined([x] + xs, c) == x + [c, c] + Joined(xs, c)
  {
    assert ([x] + xs)[1..] == xs;
  }

  lemma JoinedTwo(x: string, y: string, c: char)
    ensures Joined([x, y], c) == x + [c, c] + y + [c, c]
  {
    assert [x, y][1..] == [y] && [y][1..] == [];
    assert Joined([y], c) == y + [c, c] + Joined([y][1..], c) == y + [c, c];
    assert x + [c, c] + (y + [c, c]) == x + [c, c] + y + [c, c];
  }

  lemma {:induction false} JoinedConcat(xs: seq<string>, ys: seq<string>, c: char)
    ensures Joined(xs + ys, c) == Joined(xs, c) + Joined(ys, c)
  {
    if xs == [] {
      assert xs + ys == ys;
    } else {
      JoinedConcat(xs[1..], ys, c);
      assert (xs + ys)[1..] == xs[1..] + ys;
    }
  }

  lemma JoinedFour(x: string, y: string, z: string, w: string, c: char)
    ensures Joined([x, y, z, w], c) == x + [c, c] + y + [c, c] + z + [c, c] + w + [c, c]
  {
    JoinedTwo(z, w, c);
    JoinedCons(y, [z, w], c);
    JoinedCons(x, [y, z, w], c);
    assert [x] + [y, z, w] == [x, y, z, w] && [y] + [z, w] == [y, z, w];
    var rest := z + [c, c] + w + [c, c];
    assert y + [c, c] + rest == y + [c, c] + z + [c, c] + w + [c, c];
  }

  lemma JoinedFive(x: string, y: string, z: string, w: string, v: string, c: char)
    ensures Joined([x, y, z, w, v], c) == x + [c, c] + y + [c, c] + z + [c, c] + w + [c, c] + v + [c, c]
  {
    JoinedFour(y, z, w, v, c);
    JoinedCons(x, [y, z, w, v], c);
    assert [x] + [y, z, w, v] == [x, y, z, w, v];
  }

  lemma JoinedStart(xs: seq<string>, c: char)
    requires xs != []
    ensures xs[0] <= Joined(xs, c)
  {
    assert Joined(xs, c) == xs[0] + ([c, c] + Joined(xs[1..], c));
  }

  /** The first element of a joined list. */
  lemma TokensHead(xs: seq<string>, c: char)
    requires xs != [] && Free(xs[0], c)
    ensures Tokens(Joined(xs, c), c) == (if xs[0] == "" then [] else [xs[0]]) + Tokens(Joined(xs[1..], c), c)
  {
    hide Tokens;
    var rest := Joined(xs[1..], c);
    assert Joined(xs, c) == xs[0] + [c] + ("" + [c] + rest);
    TokensCut(xs[0], "" + [c] + rest, c);
    TokensCut("", rest, c);
  }

  lemma {:induction false} TokensJoined(xs: seq<string>, c: char)
    requires AllClean(xs, c)
    ensures Tokens(Joined(xs, c), c) == xs
  {
    if xs != [] {
      TokensHead(xs, c);
      TokensJoined(xs[1..], c);
    }
  }

  /** An empty element leaves no token. */
  lemma {:induction false} TokensSkip(xs: seq<string>, i: nat, c: char)
    requires i < |xs| && xs[i] == "" && forall j :: 0 <= j < i ==> Free(xs[j], c)
    ensures Tokens(Joined(xs, c), c) == Tokens(Joined(xs[..i] + xs[i + 1..], c), c)
  {
    hide Tokens, Joined;
    TokensHead(xs, c);
    if i == 0 {
      assert xs[..0] + xs[1..] == xs[1..];
    } else {
      var ys := xs[..i] + xs[i + 1..];
      TokensSkip(xs[1..], i - 1, c);
      TokensHead(ys, c);
      assert ys[1..] == xs[1..][..i - 1] + xs[1..][i..];
    }
  }

  /** Tokenizing undoes joining exactly when the elements are non-empty and free of the delimiter. */
  lemma JoinRoundTrip(xs: seq<string>, c: char)
    ensures Tokens(Joined(xs, c), c) == xs <==> AllClean(xs, c)
  {
    if AllClean(xs, c) {
      TokensJoined(xs, c);
    } else {
      forall i | 0 <= i < |Tokens(Joined(xs, c), c)|
        ensures Clean(Tokens(Joined(xs, c), c)[i], c)
      {
        TokensClean(Joined(xs, c), c, i);
      }
    }
  }

  lemma {:induction false} JoinedFree(xs: seq<string>, c: char, d: char)
    requires c != d && forall i :: 0 <= i < |xs| ==> Free(xs[i], d)
    ensures Free(Joined(xs, c), d)
  {
    if xs != [] { JoinedFree(xs[1..], c, d); }
  }

  lemma {:induction false} JoinedSnoc(xs: seq<string>, x: string, c: char)
    ensures Joined(xs + [x], c) == Joined(xs, c) + x + [c, c]
  {
    if xs == [] {
      assert [x][1..] == [];
    } else {
      JoinedSnoc(xs[1..], x, c);
      assert (xs + [x])[1..] == xs[1..] + [x];
    }
  }

  /** The append loops of the encoders. */
  method Join(xs: seq<string>, c: char) returns (str: string)
    ensures str == Joined(xs, c)
  {
    str := "";
    for i := 0 to |xs|
      invariant str == Joined(xs[..i], c)
    {
      JoinedSnoc(xs[..i], xs[i], c);
      assert xs[..i + 1] == xs[..i] + [xs[i]];
      str := str + xs[i] + [c, c];
    }
    assert xs[..|xs|] == xs;
  }

  // ---------- Numbers ----------

  predicate IsDigit(c: char) { '0' <= c <= '9' }

  function DigitOf(d: nat): char
    requires d < 10
  {
    '0' + d as char
  }

  function NatToStr(n: nat): string { if n < 10 then [DigitOf(n)] else NatToStr(n / 10) + [DigitOf(n % 10)] }

  function NumToStr(n: int): string { if n < 0 then "-" + NatToStr(-n) else NatToStr(n) }

  function DigitVal(c: char): nat { if IsDigit(c) then c as int - '0' as int else 0 }

  function DigitsVal(s: string): nat { if s == "" then 0 else DigitsVal(s[..|s| - 1]) * 10 + DigitVal(s[|s| - 1]) }

  function DigitPrefix(s: string): (n: nat)
    ensures n <= |s|
  {
    if s == "" || !IsDigit(s[0]) then 0 else 1 + DigitPrefix(s[1..])
  }

  predicate IsSpace(c: char) { c in " \t\n\r" }

  /** stringstream >> number: optional blanks, optional sign, as many digits as follow. */
  function Scan(s: string): Option<int> {
    if s != "" && IsSpace(s[0]) then Scan(s[1..])
    else
      var neg := s != "" && s[0] == '-';
      var t := if s != "" && s[0] in "+-" then s[1..] else s;
      var k := DigitPrefix(t);
      var v: int := DigitsVal(t[..k]);
      if k == 0 then None else Some(if neg then -v else v)
  }

  /** str_to_num for a type of the given range: 0 when nothing can be read or the number does not fit. */
  function StrToNum(s: string, lo: int, hi: int): int {
    match Scan(s)
    case None => 0
    case Some(n) => if lo <= n <= hi then n else 0
  }

  lemma {:induction false} NatToStrDigits(n: nat)
    ensures NatToStr(n) != "" && forall i :: 0 <= i < |NatToStr(n)| ==> IsDigit(NatToStr(n)[i])
    ensures DigitsVal(NatToStr(n)) == n
  {
    if n >= 10 {
      NatToStrDigits(n / 10);
      assert NatToStr(n)[..|NatToStr(n)| - 1] == NatToStr(n / 10);
    } else {
      assert [DigitOf(n)][..0] == "";
    }
  }

  lemma {:induction false} AllDigits(s: string)
    requires forall i :: 0 <= i < |s| ==> IsDigit(s[i])
    ensures DigitPrefix(s) == |s|
  {
    if s != "" { AllDigits(s[1..]); }
  }

  /** Digits are read up to the first other character, after blanks and a sign. */
  lemma ScanForms(blank: char, n: nat, rest: string)
    requires IsSpace(blank) && (rest == "" || !IsDigit(rest[0]))
    ensures var t := NatToStr(n) + rest;
            && Scan(t) == Some(n) && Scan("+" + t) == Some(n) && Scan("-" + t) == Some(0 - n)
            && Scan([blank] + t) == Scan(t)
  {
    hide NatToStr, DigitsVal, DigitPrefix;
    NatToStrDigits(n);
    var t := NatToStr(n) + rest;
    PrefixOf(NatToStr(n), rest);
    assert t[..|NatToStr(n)|] == NatToStr(n);
    assert IsDigit(t[0]);
    assert ("+" + t)[1..] == t && ("-" + t)[1..] == t && ([blank] + t)[1..] == t;
  }

  lemma {:induction false} PrefixOf(digits: string, rest: string)
    requires (forall i :: 0 <= i < |digits| ==> IsDigit(digits[i])) && (rest == "" || !IsDigit(rest[0]))
    ensures DigitPrefix(digits + rest) == |digits|
  {
    if digits != "" {
      PrefixOf(digits[1..], rest);
      assert (digits + rest)[1..] == digits[1..] + rest;
    } else {
      assert digits + rest == rest;
    }
  }

  /** Nothing is read where no number starts. */
  lemma ScanNothing(s: string)
    requires s == "" || !(IsDigit(s[0]) || IsSpace(s[0]) || s[0] in "+-")
    ensures Scan(s) == None && forall lo, hi :: StrToNum(s, lo, hi) == 0
  {
  }

  /** Reading back a written number, in a type that may be narrower than the one it was written from. */
  lemma NumRoundTrip(n: int, lo: int, hi: int)
    ensures StrToNum(NumToStr(n), lo, hi) == if lo <= n <= hi then n else 0
  {
    ScanNum(n);
  }

  lemma ScanNum(n: int)
    ensures Scan(NumToStr(n)) == Some(n)
  {
    hide NatToStr, DigitsVal, DigitPrefix;
    var m: nat := if n < 0 then -n else n;
    var t := NatToStr(m);
    NatToStrDigits(m);
    AllDigits(t);
    assert t[..|t|] == t;
    assert IsDigit(t[0]);
    if n < 0 { assert NumToStr(n)[1..] == t; }
  }

  /** Most significant digit first, minus in front. */
  lemma NumDigits(n: nat, d: nat)
    requires d < 10
    ensures NumToStr(d) == ["0123456789"[d]]
    ensures n > 0 ==> NumToStr(10 * n + d) == NumToStr(n) + NumToStr(d) && NumToStr(0 - n) == "-" + NumToStr(n)
  {
    assert (10 * n + d) / 10 == n && (10 * n + d) % 10 == d;
  }

  lemma NumClean(n: int, c: char)
    requires c != '-' && !IsDigit(c)
    ensures Clean(NumToStr(n), c)
  {
    NatToStrDigits(if n < 0 then -n else n);
  }
}
