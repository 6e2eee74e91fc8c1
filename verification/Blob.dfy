/** Large messages travel as numbered frames with a fixed-width header and are reassembled on arrival. */
module Blob {
  import opened Text
  import opened Chunks
  import opened Arith

  const ID_LEN: nat := 20
  const COUNT_LEN: nat := 7
  const SIZE_LEN: nat := 4
  const HEADER_LEN: nat := ID_LEN + 2 * COUNT_LEN + SIZE_LEN
  const ULONG_MAX: int := 0xffff_ffff_ffff_ffff

  datatype Blob = Blob(uuid: nat, seqNum: nat, total: nat, size: nat, value: string)

  // ---------- The header ----------

  function Zeros(n: nat): string { if n == 0 then "" else ['0'] + Zeros(n - 1) }

  /** sprintf("%0<width>lu", n) */
  function Format(n: nat, width: nat): string {
    var s := NatToStr(n);
    if |s| < width then Zeros(width - |s|) + s else s
  }

  function ToText(b: Blob): string {
    Format(b.uuid, ID_LEN) + Format(b.seqNum, COUNT_LEN) + Format(b.total, COUNT_LEN) +
    Format(b.size, SIZE_LEN) + b.value
  }

  /** strtoul */
  function StrToUl(s: string): nat {
    match Scan(s)
    case None => 0
    case Some(n) =>
      if n < -ULONG_MAX || n > ULONG_MAX then ULONG_MAX else if n < 0 then n + ULONG_MAX + 1 else n
  }

  /** substr(pos, len); the empty string where the original throws */
  function Substr(s: string, pos: nat, len: nat): string {
    if pos > |s| then "" else if |s| - pos < len then s[pos..] else s[pos..pos + len]
  }

  function Assign(blob: string): Blob {
    Blob(StrToUl(Substr(blob, 0, ID_LEN)),
         StrToUl(Substr(blob, ID_LEN, COUNT_LEN)),
         StrToUl(Substr(blob, ID_LEN + COUNT_LEN, COUNT_LEN)),
         StrToUl(Substr(blob, ID_LEN + 2 * COUNT_LEN, SIZE_LEN)),
         Substr(blob, HEADER_LEN, |blob|))
  }

  function Pow10(k: nat): nat { if k == 0 then 1 else 10 * Pow10(k - 1) }

  ghost predicate Digits(s: string) { forall i :: 0 <= i < |s| ==> IsDigit(s[i]) }

  lemma {:induction false} DigitsBound(s: string)
    requires Digits(s)
    ensures DigitsVal(s) < Pow10(|s|)
  {
    if s != "" { DigitsBound(s[..|s| - 1]); }
  }

  lemma {:induction false} NatToStrLength(n: nat, k: nat)
    requires k >= 1
    ensures |NatToStr(n)| <= k <==> n < Pow10(k)
  {
    if k == 1 {
      if n >= 10 { NatToStrDigits(n / 10); }
      assert Pow10(1) == 10 by { assert Pow10(0) == 1; }
    } else if n < 10 {
      assert Pow10(k) >= 10 by { Pow10Positive(k - 1); }
    } else {
      NatToStrLength(n / 10, k - 1);
    }
  }

  lemma {:induction false} Pow10Positive(k: nat)
    ensures Pow10(k) >= 1
  {
    if k > 0 { Pow10Positive(k - 1); }
  }

  lemma {:induction false} ZerosVal(n: nat, s: string)
    requires Digits(s)
    ensures Digits(Zeros(n) + s) && DigitsVal(Zeros(n) + s) == DigitsVal(s) && |Zeros(n)| == n
  {
    hide DigitsVal;
    if n == 0 {
      assert Zeros(0) + s == s;
    } else {
      ZerosVal(n - 1, s);
      LeadingZero(Zeros(n - 1) + s);
      assert Zeros(n) + s == ['0'] + (Zeros(n - 1) + s);
    }
  }

  lemma {:induction false} LeadingZero(s: string)
    ensures DigitsVal(['0'] + s) == DigitsVal(s)
  {
    var t := ['0'] + s;
    if s == "" {
      assert t[..|t| - 1] == "";
    } else {
      LeadingZero(s[..|s| - 1]);
      assert t[..|t| - 1] == ['0'] + s[..|s| - 1];
    }
  }

  lemma PaddedFacts(n: nat, width: nat)
    requires |NatToStr(n)| < width
    ensures Digits(Format(n, width)) && DigitsVal(Format(n, width)) == n && |Format(n, width)| == width
  {
    hide NatToStr, DigitsVal, Zeros;
    NatToStrDigits(n);
    ZerosVal(width - |NatToStr(n)|, NatToStr(n));
  }

  lemma UnpaddedFacts(n: nat, width: nat)
    requires |NatToStr(n)| >= width
    ensures Digits(Format(n, width)) && DigitsVal(Format(n, width)) == n && |Format(n, width)| == |NatToStr(n)|
  {
    hide NatToStr, DigitsVal, Zeros;
    NatToStrDigits(n);
  }

  lemma FormatFacts(n: nat, width: nat)
    requires width >= 1
    ensures Digits(Format(n, width)) && DigitsVal(Format(n, width)) == n
    ensures |Format(n, width)| >= width && (|Format(n, width)| == width <==> n < Pow10(width))
  {
    hide Format, NatToStr, DigitsVal, Digits, Pow10;
    NatToStrLength(n, width);
    if |NatToStr(n)| < width { PaddedFacts(n, width); } else { UnpaddedFacts(n, width); }
  }

  lemma ReadDigits(s: string)
    requires Digits(s) && s != "" && DigitsVal(s) <= ULONG_MAX
    ensures StrToUl(s) == DigitsVal(s)
  {
    AllDigits(s);
    assert s[..|s|] == s;
    assert IsDigit(s[0]);
  }

  lemma ReadBound(s: string, k: nat)
    requires Digits(s) && |s| == k && k >= 1 && Pow10(k) <= ULONG_MAX
    ensures StrToUl(s) < Pow10(k)
  {
    DigitsBound(s);
    ReadDigits(s);
  }

  lemma Powers()
    ensures Pow10(4) == 1_0000 && Pow10(7) == 1000_0000 && Pow10(20) == 100_000_000_000_000_000_000
  {
    assert Pow10(4) == 1_0000;
    assert Pow10(7) == 1000 * Pow10(4);
    assert Pow10(10) == 1000 * Pow10(7);
    assert Pow10(13) == 1000 * Pow10(10);
    assert Pow10(16) == 1000 * Pow10(13);
    assert Pow10(19) == 1000 * Pow10(16);
  }

  ghost predicate FitsHeader(b: Blob) { b.seqNum < 1000_0000 && b.total < 1000_0000 && b.size < 1_0000 }

  lemma SubstrAt(a: string, b: string, c: string)
    ensures Substr(a + b + c, |a|, |b|) == b
  {
    assert (a + b + c)[|a|..|a| + |b|] == b;
  }

  lemma SubstrLong(a: string, b: string, c: string, len: nat)
    requires len <= |b|
    ensures Substr(a + b + c, |a|, len) == b[..len]
  {
    assert (a + b + c)[|a|..|a| + len] == b[..len];
  }

  /** The fixed-width header is read back exactly when its counts have at most 7 and its size at most 4 digits. */
  lemma BlobRoundTrip(b: Blob)
    requires b.uuid <= ULONG_MAX
    ensures Assign(ToText(b)) == b <==> FitsHeader(b)
  {
    hide Format, StrToUl, Substr, Digits;
    Powers();
    var u, s := Format(b.uuid, ID_LEN), Format(b.seqNum, COUNT_LEN);
    var t, z := Format(b.total, COUNT_LEN), Format(b.size, SIZE_LEN);
    FormatFacts(b.uuid, ID_LEN);
    FormatFacts(b.seqNum, COUNT_LEN);
    FormatFacts(b.total, COUNT_LEN);
    FormatFacts(b.size, SIZE_LEN);
    var text := ToText(b);
    assert text == u + s + (t + z + b.value) && text == (u + s) + t + (z + b.value)
           && text == (u + s + t) + z + b.value;
    if b.seqNum >= 1000_0000 {
      LongField(u, s, t + z + b.value, COUNT_LEN);
    } else if b.total >= 1000_0000 {
      LongField(u + s, t, z + b.value, COUNT_LEN);
    } else if b.size >= 1_0000 {
      LongField(u + s + t, z, b.value, SIZE_LEN);
    } else {
      ShortFields(b, u, s, t, z);
    }
  }

  lemma LongField(a: string, b: string, c: string, len: nat)
    requires Digits(b) && |b| > len >= 1 && Pow10(len) <= ULONG_MAX
    ensures StrToUl(Substr(a + b + c, |a|, len)) < Pow10(len)
  {
    SubstrLong(a, b, c, len);
    ReadBound(b[..len], len);
  }

  /** Where the fields of a text are. */
  lemma Layout(u: string, s: string, t: string, z: string, v: string)
    ensures var text := u + s + t + z + v;
            && Substr(text, 0, |u|) == u
            && Substr(text, |u|, |s|) == s
            && Substr(text, |u| + |s|, |t|) == t
            && Substr(text, |u| + |s| + |t|, |z|) == z
            && Substr(text, |u| + |s| + |t| + |z|, |text|) == v
  {
    hide Substr;
    var text := u + s + t + z + v;
    SubstrAt("", u, s + t + z + v);
    assert "" + u + (s + t + z + v) == text;
    SubstrAt(u, s, t + z + v);
    assert u + s + (t + z + v) == text;
    SubstrAt(u + s, t, z + v);
    assert (u + s) + t + (z + v) == text;
    SubstrAt(u + s + t, z, v);
    assert (u + s + t) + z + v == text;
    SubstrEnd(u + s + t + z, v);
  }

  lemma SubstrEnd(a: string, v: string)
    ensures Substr(a + v, |a|, |a + v|) == v
  {
    assert (a + v)[|a|..] == v;
  }

  lemma ShortFields(b: Blob, u: string, s: string, t: string, z: string)
    requires |u| == ID_LEN && |s| == |t| == COUNT_LEN && |z| == SIZE_LEN && FitsHeader(b) && b.uuid <= ULONG_MAX
    requires Digits(u) && Digits(s) && Digits(t) && Digits(z)
    requires DigitsVal(u) == b.uuid && DigitsVal(s) == b.seqNum && DigitsVal(t) == b.total && DigitsVal(z) == b.size
    ensures Assign(u + s + t + z + b.value) == b
  {
    hide StrToUl, DigitsVal, Digits, Substr;
    Layout(u, s, t, z, b.value);
    ReadDigits(u);
    ReadDigits(s);
    ReadDigits(t);
    ReadDigits(z);
  }

  /** Where the header of a frame has what: 20 digits, twice 7 and 4, then the value. */
  lemma HeaderLayout(b: Blob)
    requires b.uuid <= ULONG_MAX && FitsHeader(b)
    ensures var text := ToText(b);
            && |text| == 38 + |b.value| && text[38..] == b.value && Digits(text[..38])
            && DigitsVal(text[..20]) == b.uuid && DigitsVal(text[20..27]) == b.seqNum
            && DigitsVal(text[27..34]) == b.total && DigitsVal(text[34..38]) == b.size
  {
    hide Format, DigitsVal, Pow10;
    Powers();
    var u, s := Format(b.uuid, ID_LEN), Format(b.seqNum, COUNT_LEN);
    var t, z := Format(b.total, COUNT_LEN), Format(b.size, SIZE_LEN);
    FormatFacts(b.uuid, ID_LEN);
    FormatFacts(b.seqNum, COUNT_LEN);
    FormatFacts(b.total, COUNT_LEN);
    FormatFacts(b.size, SIZE_LEN);
    var text := ToText(b);
    assert text[..20] == u && text[20..27] == s && text[27..34] == t && text[34..38] == z;
    assert text[..38] == u + s + t + z;
  }

  /** strtoul of a decimal number: too large ones are cut off, negative ones wrap around. */
  lemma StrToUlReads(n: int)
    ensures StrToUl(NumToStr(n)) ==
            if n > 0xffff_ffff_ffff_ffff || n < -0xffff_ffff_ffff_ffff then 0xffff_ffff_ffff_ffff
            else n % 0x1_0000_0000_0000_0000
  {
    ScanNum(n);
  }

  // ---------- Splitting ----------

  /** The frames of message msg. */
  function Frames(uuid: nat, msg: string, blobSize: nat): seq<Blob>
    requires blobSize >= 1
  {
    var ps := Cut(msg, blobSize);
    seq(|ps|, i requires 0 <= i < |ps| => Blob(uuid, i + 1, |ps|, |ps[i]|, ps[i]))
  }

  method Split(uuid: nat, msg: string, blobSize: nat) returns (blobs: seq<Blob>)
    requires blobSize >= 1
    ensures blobs == Frames(uuid, msg, blobSize)
  {
    hide Cut;
    var fold, mod := |msg| / blobSize, |msg| % blobSize;
    var total := if mod != 0 then fold + 1 else fold;
    ghost var frames := Frames(uuid, msg, blobSize);
    TotalIs(msg, blobSize);
    blobs := [];
    for i := 0 to fold
      invariant blobs == frames[..i]
    {
      FullBlob(uuid, msg, blobSize, i);
      var value := msg[i * blobSize..i * blobSize + blobSize];
      blobs := blobs + [Blob(uuid, i + 1, total, |value|, value)];
    }
    if mod != 0 {
      LastBlob(uuid, msg, blobSize);
      var value := msg[fold * blobSize..];
      blobs := blobs + [Blob(uuid, fold + 1, total, |value|, value)];
    }
  }

  lemma FullBlob(uuid: nat, msg: string, size: nat, i: nat)
    requires size >= 1 && i < |msg| / size
    ensures 0 <= i * size && i * size + size <= |msg| && i < |Frames(uuid, msg, size)|
    ensures Frames(uuid, msg, size)[i] == Blob(uuid, i + 1, |Cut(msg, size)|, size, msg[i * size..i * size + size])
  {
    hide Cut;
    TotalIs(msg, size);
    FullPiece(|msg|, size, i);
    CutAt(msg, size, i);
  }

  lemma LastBlob(uuid: nat, msg: string, size: nat)
    requires size >= 1 && |msg| % size != 0
    ensures var fold := |msg| / size;
            && 0 <= fold * size <= |msg| && |Frames(uuid, msg, size)| == fold + 1
            && Frames(uuid, msg, size)[fold] == Blob(uuid, fold + 1, fold + 1, |msg| - fold * size, msg[fold * size..])
  {
    hide Cut;
    TotalIs(msg, size);
    DivMod(|msg|, size);
    CutAt(msg, size, |msg| / size);
  }

  /** The i-th of n / size full pieces lies within the first n characters. */
  lemma FullPiece(n: nat, size: nat, i: nat)
    requires size >= 1 && i < n / size
    ensures i * size + size <= n
  {
    DivMod(n, size);
    MulMono(i + 1, n / size, size);
    assert (i + 1) * size == i * size + size;
  }

  lemma TotalIs(msg: string, size: nat)
    requires size >= 1
    ensures |Cut(msg, size)| == |msg| / size + (if |msg| % size != 0 then 1 else 0)
    ensures |msg| % size == |msg| - |msg| / size * size
  {
    CutShape(msg, size);
    var n, k := |msg|, |Cut(msg, size)|;
    DivMod(n, size);
    if n > 0 {
      assert k * size == (k - 1) * size + size;
      if n == k * size {
        DivUnique(n, size, k);
      } else {
        DivUnique(n, size, k - 1);
      }
    }
  }

  // ---------- Receiving ----------

  /** The frames of one message received so far: a set ordered by sequence number, as a sorted list. */
  type BlobSet = seq<Blob>

  /** std::set::insert under the order on sequence numbers: an equal element is not replaced. */
  function Insert(bs: BlobSet, b: Blob): BlobSet {
    if bs == [] then [b]
    else if b.seqNum < bs[0].seqNum then [b] + bs
    else if b.seqNum == bs[0].seqNum then bs
    else [bs[0]] + Insert(bs[1..], b)
  }

  function Values(bs: BlobSet): seq<string> { seq(|bs|, i requires 0 <= i < |bs| => bs[i].value) }

  type BdMap = map<nat, BlobSet>

  /** The new receive map, and the message if the frame completes one. */
  function Receive(m: BdMap, frame: string): (BdMap, Option<string>) {
    var b := Assign(frame);
    if b.total == 1 then (m, Some(b.value))
    else if b.uuid !in m then (m[b.uuid := [b]], None)
    else
      var bs := Insert(m[b.uuid], b);
      if |bs| == b.total then (m - {b.uuid}, Some(Flat(Values(bs)))) else (m[b.uuid := bs], None)
  }

  class BdRecvBase {
    var bdMap: BdMap

    constructor ()
      ensures bdMap == map[]
    {
      bdMap := map[];
    }

    method GetBdStr(frame: string) returns (result: string, ready: bool)
      modifies this
      ensures var (m, r) := Receive(old(bdMap), frame);
              bdMap == m && ready == r.Some? && (ready ==> result == r.value)
    {
      hide Assign, Insert;
      result, ready := "", false;
      var blob := Assign(frame);
      if blob.total == 1 {
        ready := true;
        result := blob.value;
      } else if blob.uuid !in bdMap {
        bdMap := bdMap[blob.uuid := []];
        bdMap := bdMap[blob.uuid := Insert(bdMap[blob.uuid], blob)];
        assert Insert([], blob) == [blob] by { FirstInsert(blob); }
      } else {
        bdMap := bdMap[blob.uuid := Insert(bdMap[blob.uuid], blob)];
        if |bdMap[blob.uuid]| == blob.total {
          ready := true;
          result := CombineBlobs(blob.uuid);
          bdMap := bdMap - {blob.uuid};
        }
      }
    }

    method CombineBlobs(uuid: nat) returns (result: string)
      requires uuid in bdMap
      ensures result == Flat(Values(bdMap[uuid]))
    {
      var ps := bdMap[uuid];
      result := "";
      for i := 0 to |ps|
        invariant result == Flat(Values(ps[..i]))
      {
        FlatSnoc(Values(ps[..i]), ps[i].value);
        assert Values(ps[..i + 1]) == Values(ps[..i]) + [ps[i].value];
        result := result + ps[i].value;
      }
      assert ps[..|ps|] == ps;
    }
  }

  lemma FirstInsert(b: Blob)
    ensures Insert([], b) == [b]
  {
  }

  // ---------- Reassembly ----------

  /** The i-th frame (from 1) of the message with id u. */
  datatype Part = Part(u: nat, i: nat)

  ghost function Pieces(msgs: map<nat, string>, size: nat, u: nat): seq<string>
    requires size >= 1
  {
    if u in msgs then Cut(msgs[u], size) else []
  }

  ghost function BlobOf(msgs: map<nat, string>, size: nat, p: Part): Blob
    requires size >= 1 && 1 <= p.i <= |Pieces(msgs, size, p.u)|
  {
    Frames(p.u, msgs[p.u], size)[p.i - 1]
  }

  ghost predicate IsPart(msgs: map<nat, string>, size: nat, p: Part)
    requires size >= 1
  {
    1 <= p.i <= |Pieces(msgs, size, p.u)|
  }

  /** All frames of message u are among the parts. */
  ghost predicate Complete(msgs: map<nat, string>, size: nat, parts: seq<Part>, u: nat)
    requires size >= 1
  {
    forall i: nat :: 1 <= i <= |Pieces(msgs, size, u)| ==> Part(u, i) in parts
  }

  /** Frames in any order, repeated or not, but none of a message that is already complete. */
  ghost predicate Delivery(msgs: map<nat, string>, size: nat, parts: seq<Part>)
    requires size >= 1
  {
    forall k :: 0 <= k < |parts| ==> IsPart(msgs, size, parts[k]) && !Complete(msgs, size, parts[..k], parts[k].u)
  }

  /** Messages within the limits of the header. */
  ghost predicate Sendable(msgs: map<nat, string>, size: nat) {
    && 1 <= size < 1_0000
    && forall u :: u in msgs ==> u <= ULONG_MAX && msgs[u] != "" && |Cut(msgs[u], size)| < 1000_0000
  }

  ghost function ReceiveAll(msgs: map<nat, string>, size: nat, parts: seq<Part>): BdMap
    requires size >= 1 && Delivery(msgs, size, parts)
  {
    if parts == [] then map[]
    else
      var init := parts[..|parts| - 1];
      DeliveryInit(msgs, size, parts);
      Receive(ReceiveAll(msgs, size, init), ToText(BlobOf(msgs, size, parts[|parts| - 1]))).0
  }

  lemma DeliveryInit(msgs: map<nat, string>, size: nat, parts: seq<Part>)
    requires size >= 1 && Delivery(msgs, size, parts) && parts != []
    ensures Delivery(msgs, size, parts[..|parts| - 1]) && IsPart(msgs, size, parts[|parts| - 1])
  {
    var init := parts[..|parts| - 1];
    forall k | 0 <= k < |init|
      ensures IsPart(msgs, size, init[k]) && !Complete(msgs, size, init[..k], init[k].u)
    {
      assert init[..k] == parts[..k];
    }
  }

  ghost predicate Sorted(bs: BlobSet) { forall i, j :: 0 <= i < j < |bs| ==> bs[i].seqNum < bs[j].seqNum }

  /** `bs` holds the frames of u among the parts. */
  ghost predicate Collects(msgs: map<nat, string>, size: nat, parts: seq<Part>, u: nat, bs: BlobSet)
    requires size >= 1
  {
    && Sorted(bs)
    && (forall b :: b in bs ==>
          && IsPart(msgs, size, Part(u, b.seqNum)) && b == BlobOf(msgs, size, Part(u, b.seqNum))
          && Part(u, b.seqNum) in parts)
    && (forall i: nat :: Part(u, i) in parts ==> HasSeq(bs, i))
  }

  ghost predicate HasSeq(bs: BlobSet, i: nat) { exists b :: b in bs && b.seqNum == i }

  /** The receive map holds exactly the messages that have been started and not completed. */
  ghost predicate Tracks(msgs: map<nat, string>, size: nat, parts: seq<Part>, m: BdMap)
    requires size >= 1
  {
    && (forall u :: u in m ==>
          Started(parts, u) && !Complete(msgs, size, parts, u) && Collects(msgs, size, parts, u, m[u]))
    && (forall u :: Started(parts, u) && !Complete(msgs, size, parts, u) ==> u in m)
  }

  ghost predicate Started(parts: seq<Part>, u: nat) { exists i: nat :: Part(u, i) in parts }

  lemma {:induction false} InsertFacts(bs: BlobSet, b: Blob)
    requires Sorted(bs)
    ensures Sorted(Insert(bs, b)) && HasSeq(Insert(bs, b), b.seqNum)
    ensures forall x :: x in Insert(bs, b) ==> x == b || x in bs
    ensures forall x :: x in bs ==> x in Insert(bs, b)
  {
    if bs == [] {
    } else if b.seqNum < bs[0].seqNum {
      assert b in Insert(bs, b);
    } else if b.seqNum == bs[0].seqNum {
      assert bs[0] in bs;
    } else {
      var t := Insert(bs[1..], b);
      InsertFacts(bs[1..], b);
      forall x | x in t
        ensures bs[0].seqNum < x.seqNum
      {
        if x != b { var j :| 0 <= j < |bs[1..]| && bs[1..][j] == x; assert bs[j + 1] == x; }
      }
      ConsSorted(bs[0], t);
      assert bs == [bs[0]] + bs[1..];
      var x :| x in t && x.seqNum == b.seqNum;
      assert x in Insert(bs, b);
    }
  }

  lemma ConsSorted(x: Blob, t: BlobSet)
    requires Sorted(t) && forall y :: y in t ==> x.seqNum < y.seqNum
    ensures Sorted([x] + t)
  {
  }

  // ---------- A full set is the whole message ----------

  /** Sorted sequence numbers between 1 and n: there are at most n, and n of them are 1..n. */
  lemma {:induction false} SortedBound(bs: BlobSet, n: nat, k: nat)
    requires Sorted(bs) && (forall b :: b in bs ==> 1 <= b.seqNum <= n) && k < |bs|
    ensures k + 1 <= bs[k].seqNum <= n - (|bs| - 1 - k)
  {
    SortedBelow(bs, k);
    SortedAbove(bs, n, k);
  }

  lemma {:induction false} SortedBelow(bs: BlobSet, k: nat)
    requires Sorted(bs) && (forall b :: b in bs ==> 1 <= b.seqNum) && k < |bs|
    ensures k + 1 <= bs[k].seqNum
  {
    assert bs[k] in bs;
    if k > 0 { SortedBelow(bs, k - 1); }
  }

  lemma {:induction false} SortedAbove(bs: BlobSet, n: nat, k: nat)
    requires Sorted(bs) && (forall b :: b in bs ==> b.seqNum <= n) && k < |bs|
    ensures bs[k].seqNum <= n - (|bs| - 1 - k)
    decreases |bs| - k
  {
    assert bs[k] in bs;
    if k < |bs| - 1 { SortedAbove(bs, n, k + 1); }
  }

  lemma Bounds(msgs: map<nat, string>, size: nat, parts: seq<Part>, u: nat, bs: BlobSet)
    requires size >= 1 && Collects(msgs, size, parts, u, bs)
    ensures |bs| <= |Pieces(msgs, size, u)|
    ensures forall b :: b in bs ==> 1 <= b.seqNum <= |Pieces(msgs, size, u)|
  {
    if |bs| > 0 { SortedBound(bs, |Pieces(msgs, size, u)|, 0); }
  }

  /** The set is full exactly when all frames have arrived, and then it spells the message. */
  lemma FullSet(msgs: map<nat, string>, size: nat, parts: seq<Part>, u: nat, bs: BlobSet)
    requires size >= 1 && Collects(msgs, size, parts, u, bs) && u in msgs
    ensures |bs| == |Pieces(msgs, size, u)| <==> Complete(msgs, size, parts, u)
    ensures Complete(msgs, size, parts, u) ==> Flat(Values(bs)) == msgs[u]
  {
    hide Collects, Complete, Pieces;
    var n := |Pieces(msgs, size, u)|;
    if |bs| == n { FullComplete(msgs, size, parts, u, bs); }
    if Complete(msgs, size, parts, u) { CompleteFull(msgs, size, parts, u, bs); }
  }

  lemma FullComplete(msgs: map<nat, string>, size: nat, parts: seq<Part>, u: nat, bs: BlobSet)
    requires size >= 1 && Collects(msgs, size, parts, u, bs) && u in msgs && |bs| == |Pieces(msgs, size, u)|
    ensures Complete(msgs, size, parts, u) && Flat(Values(bs)) == msgs[u]
  {
    FullOrder(msgs, size, parts, u, bs);
    CutShape(msgs[u], size);
    forall i: nat | 1 <= i <= |bs|
      ensures Part(u, i) in parts
    {
      assert bs[i - 1] in bs;
    }
  }

  lemma CompleteFull(msgs: map<nat, string>, size: nat, parts: seq<Part>, u: nat, bs: BlobSet)
    requires size >= 1 && Collects(msgs, size, parts, u, bs) && Complete(msgs, size, parts, u)
    ensures |bs| == |Pieces(msgs, size, u)|
  {
    Bounds(msgs, size, parts, u, bs);
    forall i: nat | 1 <= i <= |Pieces(msgs, size, u)|
      ensures HasSeq(bs, i)
    {
      assert Part(u, i) in parts;
    }
    AllNumbers(bs, |Pieces(msgs, size, u)|);
  }

  lemma FullOrder(msgs: map<nat, string>, size: nat, parts: seq<Part>, u: nat, bs: BlobSet)
    requires size >= 1 && Collects(msgs, size, parts, u, bs) && |bs| == |Pieces(msgs, size, u)|
    ensures Values(bs) == Pieces(msgs, size, u)
    ensures forall k :: 0 <= k < |bs| ==> bs[k].seqNum == k + 1
  {
    forall k | 0 <= k < |bs|
      ensures bs[k].seqNum == k + 1 && bs[k].value == Pieces(msgs, size, u)[k]
    {
      Bounds(msgs, size, parts, u, bs);
      SortedBound(bs, |bs|, k);
      assert bs[k] in bs;
    }
  }

  /** A sorted set that has every number from 1 to k has them in its first k places. */
  lemma {:induction false} AllNumbers(bs: BlobSet, k: nat)
    requires Sorted(bs) && (forall b :: b in bs ==> 1 <= b.seqNum) && forall i: nat :: 1 <= i <= k ==> HasSeq(bs, i)
    ensures k <= |bs| && (k > 0 ==> bs[k - 1].seqNum == k)
  {
    if k > 0 {
      AllNumbers(bs, k - 1);
      assert HasSeq(bs, k);
      var b :| b in bs && b.seqNum == k;
      var j :| 0 <= j < |bs| && bs[j] == b;
      SortedBelow(bs, j);
    }
  }

  // ---------- Every delivery reassembles every message ----------

  lemma OtherMessage(msgs: map<nat, string>, size: nat, parts: seq<Part>, p: Part, v: nat)
    requires size >= 1 && v != p.u
    ensures Complete(msgs, size, parts + [p], v) <==> Complete(msgs, size, parts, v)
    ensures Started(parts + [p], v) <==> Started(parts, v)
    ensures forall bs :: Collects(msgs, size, parts, v, bs) ==> Collects(msgs, size, parts + [p], v, bs)
  {
    var parts' := parts + [p];
    forall i: nat
      ensures Part(v, i) in parts' <==> Part(v, i) in parts
    {
    }
    if Started(parts, v) {
      var i: nat :| Part(v, i) in parts;
      assert Part(v, i) in parts';
    }
    if Started(parts', v) {
      var i: nat :| Part(v, i) in parts';
      assert Part(v, i) in parts;
    }
  }

  /** Receiving one frame of u leaves the other messages alone. */
  lemma TracksOthers(msgs: map<nat, string>, size: nat, parts: seq<Part>, p: Part, m: BdMap, m': BdMap)
    requires size >= 1 && Tracks(msgs, size, parts, m) && m' - {p.u} == m - {p.u}
    requires p.u in m' ==> !Complete(msgs, size, parts + [p], p.u) && Collects(msgs, size, parts + [p], p.u, m'[p.u])
    requires p.u !in m' ==> Complete(msgs, size, parts + [p], p.u)
    ensures Tracks(msgs, size, parts + [p], m')
  {
    hide Complete, Collects, Started;
    var parts' := parts + [p];
    assert Started(parts', p.u) by { StartedNow(parts, p); }
    forall v | v != p.u
      ensures v in m' <==> v in m
      ensures v in m ==> m'[v] == m[v]
      ensures Complete(msgs, size, parts', v) <==> Complete(msgs, size, parts, v)
      ensures Started(parts', v) <==> Started(parts, v)
      ensures forall bs :: Collects(msgs, size, parts, v, bs) ==> Collects(msgs, size, parts', v, bs)
    {
      assert v in m' - {p.u} <==> v in m - {p.u};
      if v in m { assert (m' - {p.u})[v] == (m - {p.u})[v]; }
      OtherMessage(msgs, size, parts, p, v);
    }
  }

  lemma StartedNow(parts: seq<Part>, p: Part)
    ensures Started(parts + [p], p.u)
  {
    assert Part(p.u, p.i) in parts + [p];
  }

  lemma PartFits(msgs: map<nat, string>, size: nat, p: Part)
    requires Sendable(msgs, size) && IsPart(msgs, size, p)
    ensures p.u in msgs && Assign(ToText(BlobOf(msgs, size, p))) == BlobOf(msgs, size, p)
  {
    hide Assign, ToText;
    CutShape(msgs[p.u], size);
    BlobRoundTrip(BlobOf(msgs, size, p));
  }

  lemma SinglePart(msgs: map<nat, string>, size: nat, parts: seq<Part>, p: Part, m: BdMap)
    requires Sendable(msgs, size) && IsPart(msgs, size, p) && |Pieces(msgs, size, p.u)| == 1
    requires Tracks(msgs, size, parts, m) && !Complete(msgs, size, parts, p.u)
    ensures p.u !in m && Complete(msgs, size, parts + [p], p.u) && Pieces(msgs, size, p.u)[0] == msgs[p.u]
  {
    CutShape(msgs[p.u], size);
    var ps := Pieces(msgs, size, p.u);
    assert ps == [ps[0]] && Flat([ps[0]]) == ps[0] + Flat([ps[0]][1..]);
    if p.u in m { OneCollected(msgs, size, parts, p.u, m[p.u]); }
  }

  lemma OneCollected(msgs: map<nat, string>, size: nat, parts: seq<Part>, u: nat, bs: BlobSet)
    requires size >= 1 && Collects(msgs, size, parts, u, bs) && Started(parts, u) && |Pieces(msgs, size, u)| == 1
    ensures Complete(msgs, size, parts, u)
  {
    var i: nat :| Part(u, i) in parts;
    assert HasSeq(bs, i);
    assert i == 1;
  }

  /** The first frame of a longer message. */
  lemma FirstPart(msgs: map<nat, string>, size: nat, parts: seq<Part>, p: Part)
    requires size >= 1 && IsPart(msgs, size, p) && |Pieces(msgs, size, p.u)| != 1 && !Started(parts, p.u)
    ensures Collects(msgs, size, parts + [p], p.u, [BlobOf(msgs, size, p)]) && !Complete(msgs, size, parts + [p], p.u)
  {
    var b := BlobOf(msgs, size, p);
    assert b in [b];
    var j: nat := if p.i == 1 then 2 else 1;
    assert Part(p.u, j) !in parts + [p];
  }

  lemma NextPart(msgs: map<nat, string>, size: nat, parts: seq<Part>, p: Part, bs: BlobSet)
    requires size >= 1 && IsPart(msgs, size, p) && Collects(msgs, size, parts, p.u, bs)
    ensures Collects(msgs, size, parts + [p], p.u, Insert(bs, BlobOf(msgs, size, p)))
  {
    var b := BlobOf(msgs, size, p);
    InsertFacts(bs, b);
    var r := Insert(bs, b);
    forall i: nat | Part(p.u, i) in parts + [p]
      ensures HasSeq(r, i)
    {
      if i != p.i {
        assert HasSeq(bs, i);
        var x :| x in bs && x.seqNum == i;
        assert x in r;
      }
    }
  }

  /** One frame: the message is emitted, intact, exactly on the frame that completes it. */
  lemma ReceiveStep(msgs: map<nat, string>, size: nat, parts: seq<Part>, p: Part, m: BdMap)
    requires Sendable(msgs, size) && IsPart(msgs, size, p) && !Complete(msgs, size, parts, p.u)
             && Tracks(msgs, size, parts, m)
    ensures var (m', r) := Receive(m, ToText(BlobOf(msgs, size, p)));
            && Tracks(msgs, size, parts + [p], m')
            && r == if Complete(msgs, size, parts + [p], p.u) then Some(msgs[p.u]) else None
  {
    hide Assign, ToText, Complete, Collects, Sendable, Started, Insert;
    var b := BlobOf(msgs, size, p);
    PartFits(msgs, size, p);
    var (m', r) := Receive(m, ToText(b));
    if b.total == 1 {
      SinglePart(msgs, size, parts, p, m);
    } else if p.u !in m {
      FirstPart(msgs, size, parts, p);
    } else {
      NextPart(msgs, size, parts, p, m[p.u]);
      FullSet(msgs, size, parts + [p], p.u, Insert(m[p.u], b));
    }
    TracksOthers(msgs, size, parts, p, m, m');
  }

  lemma ReceiveAllStep(msgs: map<nat, string>, size: nat, parts: seq<Part>)
    requires size >= 1 && Delivery(msgs, size, parts)
    ensures parts == [] ==> ReceiveAll(msgs, size, parts) == map[]
    ensures parts != [] ==>
              var init, p := parts[..|parts| - 1], parts[|parts| - 1];
              && Delivery(msgs, size, init) && IsPart(msgs, size, p)
              && ReceiveAll(msgs, size, parts) == Receive(ReceiveAll(msgs, size, init), ToText(BlobOf(msgs, size, p))).0
  {
    hide Receive, Complete;
    if parts != [] { DeliveryInit(msgs, size, parts); }
  }

  lemma LastWanted(msgs: map<nat, string>, size: nat, parts: seq<Part>)
    requires size >= 1 && Delivery(msgs, size, parts) && parts != []
    ensures !Complete(msgs, size, parts[..|parts| - 1], parts[|parts| - 1].u)
  {
  }

  lemma NoneStarted()
    ensures forall u :: !Started([], u)
  {
  }

  lemma {:induction false} ReceiveTracks(msgs: map<nat, string>, size: nat, parts: seq<Part>)
    requires Sendable(msgs, size) && Delivery(msgs, size, parts)
    ensures Tracks(msgs, size, parts, ReceiveAll(msgs, size, parts))
    decreases |parts|
  {
    hide Complete, Collects, Receive, ReceiveAll, Started, Pieces;
    ReceiveAllStep(msgs, size, parts);
    if parts == [] {
      NoneStarted();
    } else {
      var init, p := parts[..|parts| - 1], parts[|parts| - 1];
      LastWanted(msgs, size, parts);
      ReceiveTracks(msgs, size, init);
      ReceiveStep(msgs, size, init, p, ReceiveAll(msgs, size, init));
      assert init + [p] == parts;
    }
  }

  /** What the k-th frame of a delivery yields. */
  ghost function Emitted(msgs: map<nat, string>, size: nat, parts: seq<Part>, k: nat): Option<string>
    requires size >= 1 && Delivery(msgs, size, parts) && k < |parts|
  {
    DeliveryPrefix(msgs, size, parts, k);
    Receive(ReceiveAll(msgs, size, parts[..k]), ToText(BlobOf(msgs, size, parts[k]))).1
  }

  lemma DeliveryPrefix(msgs: map<nat, string>, size: nat, parts: seq<Part>, k: nat)
    requires size >= 1 && Delivery(msgs, size, parts) && k <= |parts|
    ensures Delivery(msgs, size, parts[..k])
  {
    forall j | 0 <= j < k
      ensures IsPart(msgs, size, parts[..k][j]) && !Complete(msgs, size, parts[..k][..j], parts[..k][j].u)
    {
      assert parts[..k][..j] == parts[..j];
    }
  }

  /**
    Whatever the order and interleaving of the frames, and whatever repetitions precede completion:
    a frame yields its message, intact, if and only if it is the last one missing; no message is
    yielded twice; and when all messages are complete nothing is left in the receive map.
  */
  lemma Reassembly(msgs: map<nat, string>, size: nat, parts: seq<Part>)
    requires Sendable(msgs, size) && Delivery(msgs, size, parts)
    ensures forall k: nat :: k < |parts| ==>
              Emitted(msgs, size, parts, k) == if Complete(msgs, size, parts[..k + 1], parts[k].u)
                then Some(msgs[parts[k].u]) else None
    ensures forall j: nat, k: nat ::
              j < k < |parts| && Emitted(msgs, size, parts, j).Some? && Emitted(msgs, size, parts, k).Some? ==>
              parts[j].u != parts[k].u
    ensures (forall u :: u in msgs ==> Complete(msgs, size, parts, u)) ==> ReceiveAll(msgs, size, parts) == map[]
  {
    hide Emitted, ReceiveAll, Complete, Delivery;
    forall k: nat | k < |parts|
      ensures parts[k].u in msgs
      ensures Emitted(msgs, size, parts, k) == if Complete(msgs, size, parts[..k + 1], parts[k].u)
                then Some(msgs[parts[k].u]) else None
    {
      EmittedOn(msgs, size, parts, k);
    }
    forall j: nat, k: nat
      | j < k < |parts| && Emitted(msgs, size, parts, j).Some? && Emitted(msgs, size, parts, k).Some?
      ensures parts[j].u != parts[k].u
    {
      if parts[j].u == parts[k].u { OnlyOnce(msgs, size, parts, j, k); }
    }
    if forall u :: u in msgs ==> Complete(msgs, size, parts, u) { EmptyAtEnd(msgs, size, parts); }
  }

  lemma EmittedOn(msgs: map<nat, string>, size: nat, parts: seq<Part>, k: nat)
    requires Sendable(msgs, size) && Delivery(msgs, size, parts) && k < |parts|
    ensures IsPart(msgs, size, parts[k]) && parts[k].u in msgs
    ensures Emitted(msgs, size, parts, k) == if Complete(msgs, size, parts[..k + 1], parts[k].u)
              then Some(msgs[parts[k].u]) else None
  {
    hide Receive, ReceiveAll, Collects, Complete, BlobOf, Tracks, ToText;
    DeliveryPrefix(msgs, size, parts, k);
    ReceiveTracks(msgs, size, parts[..k]);
    ReceiveStep(msgs, size, parts[..k], parts[k], ReceiveAll(msgs, size, parts[..k]));
    assert parts[..k] + [parts[k]] == parts[..k + 1];
  }

  lemma OnlyOnce(msgs: map<nat, string>, size: nat, parts: seq<Part>, j: nat, k: nat)
    requires size >= 1 && Delivery(msgs, size, parts) && j < k < |parts| && parts[j].u == parts[k].u
    ensures !Complete(msgs, size, parts[..j + 1], parts[j].u)
  {
    hide Complete;
    if Complete(msgs, size, parts[..j + 1], parts[j].u) { CompleteGrows(msgs, size, parts, j + 1, k, parts[j].u); }
  }

  lemma EmptyAtEnd(msgs: map<nat, string>, size: nat, parts: seq<Part>)
    requires Sendable(msgs, size) && Delivery(msgs, size, parts)
             && forall u :: u in msgs ==> Complete(msgs, size, parts, u)
    ensures ReceiveAll(msgs, size, parts) == map[]
  {
    hide Complete, Collects, ReceiveAll;
    ReceiveTracks(msgs, size, parts);
    var m := ReceiveAll(msgs, size, parts);
    forall u
      ensures u !in m
    {
      NoPieces(msgs, size, parts, u);
    }
  }

  lemma CompleteGrows(msgs: map<nat, string>, size: nat, parts: seq<Part>, j: nat, k: nat, u: nat)
    requires size >= 1 && j <= k <= |parts| && Complete(msgs, size, parts[..j], u)
    ensures Complete(msgs, size, parts[..k], u)
  {
    forall i: nat | 1 <= i <= |Pieces(msgs, size, u)|
      ensures Part(u, i) in parts[..k]
    {
      assert Part(u, i) in parts[..j];
    }
  }

  lemma NoPieces(msgs: map<nat, string>, size: nat, parts: seq<Part>, u: nat)
    requires size >= 1
    ensures u !in msgs ==> Complete(msgs, size, parts, u)
  {
  }
}
