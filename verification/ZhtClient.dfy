/** ZHT clients over hash-routed servers behave as one atomic map with compare-and-swap. */
module ZhtClient {
  import opened Text
  import opened Codec
  import opened ZPackCodec
  import opened ZhtServer

  // ---------- The client ----------

  datatype Op = Put(key: string, val: string) | Get1(key: string) | Delete(key: string)
              | Swap(key: string, seen: string, newval: string)

  /** Return code and the string handed back to the caller. */
  datatype Reply = Reply(rc: int, result: string)

  function Opcode(op: Op): string {
    match op
    case Put(_, _) => OPC_INSERT
    case Get1(_) => OPC_LOOKUP
    case Delete(_) => OPC_REMOVE
    case Swap(_, _, _) => OPC_CMPSWP
  }

  function Val(op: Op): string { match op case Put(_, v) => v case Swap(_, s, _) => s case _ => "" }

  function NewVal(op: Op): string { match op case Swap(_, _, n) => n case _ => "" }

  /** An empty value travels as a placeholder with its null flag set. */
  function Request(op: Op): ZPack {
    ZPack(Some(Opcode(op)), Some(op.key),
          Some(if Val(op) == "" then "^" else Val(op)), Some(if NewVal(op) == "" then "?" else NewVal(op)),
          Some("1"), Some(Val(op) == ""), Some(NewVal(op) == ""), Some(3))
  }

  /** The message of a request, written out. */
  lemma RequestText(op: Op)
    ensures var code := match op case Get1(_) => "001" case Delete(_) => "002" case Put(_, _) => "003"
                                 case Swap(_, _, _) => "005";
            var val := match op case Put(_, v) => v case Swap(_, seen, _) => seen case _ => "";
            var newval := match op case Swap(_, _, v) => v case _ => "";
            PackText(Request(op)) ==
            code + "//" + op.key + "//" + (if val == "" then "^" else val) + "//" +
            (if newval == "" then "?" else newval) + "//" +
            ("1" + "//" + (if val == "" then "1" else "0") + "//" + (if newval == "" then "1" else "0") + "//" +
             "3" + "//")
  {
    hide PackText;
    PackLayout(Request(op));
    NumDigits(0, 3);
  }

  function ExtractValue(s: string): string {
    var z := DecodePack(s);
    if z.valnull == Some(true) then "" else Get(z.val)
  }

  function ToInt(s: string): int { match Scan(s) case None => 0 case Some(n) => n }

  function Receive(op: Op, srecv: string): Reply {
    var status := if srecv == "" then REC_SRVEXP else if |srecv| < 3 then srecv else srecv[..3];
    var rest := EraseStatus(srecv);
    Reply(ToInt(status), if op.Get1? || op.Swap? then ExtractValue(rest) else "")
  }

  /** Without an answer the client reports that the server was not as expected. */
  lemma NoAnswer(op: Op)
    ensures Receive(op, "").rc == -4
  {
    ErrorCode("-04");
  }

  // ---------- The servers ----------

  function Route(hash: string -> nat, msg: string, n: nat): nat
    requires n >= 1
  {
    hash(Get(DecodePack(msg).key)) % n
  }

  /** One client operation: the message goes to the server its key hashes to. */
  function Call(hash: string -> nat, ser: ZPack -> string, servers: seq<Table>, op: Op): (r: (seq<Table>, Reply))
    requires |servers| >= 1
    ensures |r.0| == |servers|
  {
    if op.key == "" then (servers, Reply(ToInt(REC_EMPTYKEY), ""))
    else
      var msg := PackText(Request(op));
      var i := Route(hash, msg, |servers|);
      var (m', srecv) := Serve(servers[i], msg, ser);
      (servers[i := m'], Receive(op, srecv))
  }

  function Calls(hash: string -> nat, ser: ZPack -> string, servers: seq<Table>, ops: seq<Op>): seq<Reply>
    requires |servers| >= 1
    decreases |ops|
  {
    if ops == [] then []
    else
      var (servers', reply) := Call(hash, ser, servers, ops[0]);
      [reply] + Calls(hash, ser, servers', ops[1..])
  }

  // ---------- One store ----------

  /** What a server keeps under a key: the value as it travelled, and its null flag. */
  datatype Cell = Cell(raw: string, isNull: bool)

  function Value(cell: Cell): string { if cell.isNull then "" else cell.raw }

  function SentVal(v: string): string { if v == "" then "^" else v }

  function SentNewVal(v: string): string { if v == "" then "?" else v }

  /** One operation on an atomic store of cells: compare_swap compares and replaces the raw value only. */
  function Store(m: map<string, Cell>, op: Op): (map<string, Cell>, Reply) {
    if op.key == "" then (m, Reply(-1, ""))
    else
      match op
      case Put(k, v) => (m[k := Cell(SentVal(v), v == "")], Reply(0, ""))
      case Get1(k) => (m, if k in m then Reply(0, Value(m[k])) else Reply(-92, ""))
      case Delete(k) => (m - {k}, Reply(if k in m then 0 else -92, ""))
      case Swap(k, seen, newval) =>
        if k in m && m[k].raw == SentVal(seen) then
          var cell := Cell(SentNewVal(newval), m[k].isNull);
          (m[k := cell], Reply(0, Value(cell)))
        else (m, Reply(-4, if k in m then Value(m[k]) else ""))
  }

  function Stores(m: map<string, Cell>, ops: seq<Op>): seq<Reply>
    decreases |ops|
  {
    if ops == [] then [] else [Store(m, ops[0]).1] + Stores(Store(m, ops[0]).0, ops[1..])
  }

  // ---------- One map ----------

  /** The same on a map from keys to values. */
  function Apply(m: map<string, string>, op: Op): (map<string, string>, Reply) {
    if op.key == "" then (m, Reply(-1, ""))
    else
      match op
      case Put(k, v) => (m[k := v], Reply(0, ""))
      case Get1(k) => (m, if k in m then Reply(0, m[k]) else Reply(-92, ""))
      case Delete(k) => (m - {k}, Reply(if k in m then 0 else -92, ""))
      case Swap(k, seen, newval) =>
        if k in m && m[k] == seen then (m[k := newval], Reply(0, newval))
        else (m, Reply(-4, if k in m then m[k] else ""))
  }

  function Replies(m: map<string, string>, ops: seq<Op>): seq<Reply>
    decreases |ops|
  {
    if ops == [] then [] else [Apply(m, ops[0]).1] + Replies(Apply(m, ops[0]).0, ops[1..])
  }

  // ---------- Refinement ----------

  ghost predicate SafeKey(k: string) { Clean(k, '/') && k != "nokey" }

  ghost predicate SafeVal(v: string) { Clean(v, '/') && v != "noval" }

  /** Keys and values are empty, or free of '/' and not the word for absence. */
  ghost predicate SafeOp(op: Op) {
    && (op.key == "" || SafeKey(op.key))
    && (op.Put? ==> op.val == "" || SafeVal(op.val))
    && (op.Swap? ==> op.seen == "" || SafeVal(op.seen))
    && (op.Swap? ==> op.newval == "" || (SafeVal(op.newval) && op.newval != "nonewval"))
  }

  /** `text` is a stored entry for key k with the given cell. */
  ghost predicate Entry(text: string, k: string, cell: Cell) {
    var z := DecodePack(text);
    && SafePack(z) && Opt32(z.replicanum) && SafeVal(cell.raw)
    && z.key == Some(k) && z.val == Some(cell.raw) && z.valnull == Some(cell.isNull)
  }

  ghost predicate Holds(table: Table, k: string, m: map<string, Cell>) {
    && (k in m <==> k in table)
    && (k in m ==> Entry(table[k], k, m[k]))
  }

  ghost predicate Represents(hash: string -> nat, servers: seq<Table>, m: map<string, Cell>)
    requires |servers| >= 1
  {
    forall k :: SafeKey(k) ==> Holds(servers[hash(k) % |servers|], k, m)
  }

  lemma RequestSafe(op: Op)
    requires SafeOp(op) && op.key != ""
    ensures SafePack(Request(op)) && DecodePack(PackText(Request(op))) == Request(op)
    ensures SafeVal(SentVal(Val(op))) && SafeVal(SentNewVal(NewVal(op)))
  {
    PackRoundTrip(Request(op));
  }

  lemma TwoDigits(s: string)
    requires |s| == 2 && IsDigit(s[0]) && IsDigit(s[1])
    ensures DigitPrefix(s) == 2 && DigitsVal(s) == 10 * DigitVal(s[0]) + DigitVal(s[1])
  {
    AllDigits(s);
    assert s[..1][..0] == "" && s[..1][0] == s[0];
    assert DigitsVal(s[..1]) == DigitVal(s[0]);
  }

  lemma ErrorCode(s: string)
    requires |s| == 3 && s[0] == '-' && IsDigit(s[1]) && IsDigit(s[2])
    ensures ToInt(s) == -(10 * DigitVal(s[1]) + DigitVal(s[2]))
  {
    hide DigitsVal, DigitVal, DigitPrefix;
    var t := s[1..];
    TwoDigits(t);
    assert t[..2] == t;
  }

  lemma SuccessCode()
    ensures ToInt(REC_SUCC) == 0
  {
    assert DigitsVal("000") == 0 by { assert "000"[..2] == "00"; assert "00"[..1] == "0"; assert "0"[..0] == ""; }
    AllDigits("000");
    assert "000"[..3] == "000";
  }

  lemma StatusCodes()
    ensures ToInt(REC_SUCC) == 0 && ToInt(REC_NONEXISTKEY) == -92 && ToInt(REC_SRVEXP) == -4
            && ToInt(REC_EMPTYKEY) == -1
  {
    hide ToInt;
    SuccessCode();
    ErrorCode(REC_NONEXISTKEY);
    ErrorCode(REC_SRVEXP);
    ErrorCode(REC_EMPTYKEY);
  }

  lemma Split(status: string, rest: string)
    requires |status| == 3
    ensures (status + rest)[..3] == status && EraseStatus(status + rest) == rest
  {
  }

  lemma MissingEntry()
    ensures DecodePack("Empty") == EMPTY_PACK && ExtractValue("Empty") == "" && DecodePack("") == EMPTY_PACK
  {
    TokensWhole("Empty", '/');
    TokensWhole("", '/');
  }

  lemma Extract(text: string, k: string, cell: Cell)
    requires Entry(text, k, cell)
    ensures ExtractValue(text) == Value(cell)
  {
  }

  /** The table and reply that serving `op` should give, in terms of the stored cells. */
  ghost predicate Served(table: Table, table': Table, op: Op, m: map<string, Cell>, reply: Reply) {
    && Holds(table', op.key, Store(m, op).0)
    && (forall k :: k != op.key ==> (k in table' <==> k in table) && (k in table ==> table'[k] == table[k]))
    && reply == Store(m, op).1
  }

  lemma PutServed(table: Table, op: Op, m: map<string, Cell>, ser: ZPack -> string)
    requires op.Put? && SafeOp(op) && op.key != "" && Holds(table, op.key, m)
    ensures var (table', srecv) := Serve(table, PackText(Request(op)), ser);
            Served(table, table', op, m, Receive(op, srecv))
  {
    hide PackText, DecodePack, SafePack, Scan, ToInt, SafeVal;
    RequestSafe(op);
    StatusCodes();
    Split(REC_SUCC, "");
    assert REC_SUCC + "" == REC_SUCC;
  }

  lemma GetServed(table: Table, op: Op, m: map<string, Cell>, ser: ZPack -> string)
    requires op.Get1? && SafeOp(op) && op.key != "" && Holds(table, op.key, m)
    ensures var (table', srecv) := Serve(table, PackText(Request(op)), ser);
            Served(table, table', op, m, Receive(op, srecv))
  {
    hide PackText, DecodePack, SafePack, ExtractValue, Scan, ToInt, SafeVal;
    RequestSafe(op);
    StatusCodes();
    MissingEntry();
    if op.key in m {
      Extract(table[op.key], op.key, m[op.key]);
      Split(REC_SUCC, table[op.key]);
    } else {
      Split(REC_NONEXISTKEY, "Empty");
    }
  }

  lemma DeleteServed(table: Table, op: Op, m: map<string, Cell>, ser: ZPack -> string)
    requires op.Delete? && SafeOp(op) && op.key != "" && Holds(table, op.key, m)
    ensures var (table', srecv) := Serve(table, PackText(Request(op)), ser);
            Served(table, table', op, m, Receive(op, srecv))
  {
    hide PackText, DecodePack, SafePack, Scan, ToInt, SafeVal;
    RequestSafe(op);
    StatusCodes();
    assert REC_SUCC[..3] == REC_SUCC && REC_NONEXISTKEY[..3] == REC_NONEXISTKEY;
  }

  /** The entry that a successful compare_swap writes. */
  lemma Swapped(text: string, k: string, cell: Cell, raw: string)
    requires Entry(text, k, cell) && SafeVal(raw)
    ensures var z := DecodePack(text).(val := Some(raw));
            Entry(PackText(z), k, cell.(raw := raw)) && Get(z.key) == k
  {
    hide DecodePack;
    PackRoundTrip(DecodePack(text).(val := Some(raw)));
  }

  lemma SwapServed(table: Table, op: Op, m: map<string, Cell>, ser: ZPack -> string)
    requires op.Swap? && SafeOp(op) && op.key != "" && Holds(table, op.key, m)
    ensures var (table', srecv) := Serve(table, PackText(Request(op)), ser);
            Served(table, table', op, m, Receive(op, srecv))
  {
    hide PackText, DecodePack, SafePack, ExtractValue, Scan, ToInt, EraseStatus, SafeVal;
    RequestSafe(op);
    StatusCodes();
    MissingEntry();
    if op.key in m {
      var text, cell := table[op.key], m[op.key];
      Split(REC_SUCC, text);
      if cell.raw == SentVal(op.seen) {
        var raw := SentNewVal(op.newval);
        Swapped(text, op.key, cell, raw);
        var text' := PackText(DecodePack(text).(val := Some(raw)));
        Split(REC_SUCC, text');
        Extract(text', op.key, cell.(raw := raw));
      } else {
        Split(REC_SRVEXP, text);
        Extract(text, op.key, cell);
      }
    } else {
      SafeNotEmpty(op);
      Split(REC_NONEXISTKEY, "Empty");
      Split(REC_SRVEXP, "Empty");
    }
  }

  lemma SafeNotEmpty(op: Op)
    ensures SentVal(Val(op)) != ""
  {
  }

  lemma OpServed(table: Table, op: Op, m: map<string, Cell>, ser: ZPack -> string)
    requires SafeOp(op) && op.key != "" && Holds(table, op.key, m)
    ensures var (table', srecv) := Serve(table, PackText(Request(op)), ser);
            Served(table, table', op, m, Receive(op, srecv))
  {
    hide SafeOp, Holds, Served, Serve, Receive, PackText;
    match op
    case Put(_, _) => PutServed(table, op, m, ser);
    case Get1(_) => GetServed(table, op, m, ser);
    case Delete(_) => DeleteServed(table, op, m, ser);
    case Swap(_, _, _) => SwapServed(table, op, m, ser);
  }

  /** A request whose key survives its codec is served by the server of the key, and by no other. */
  lemma CallAt(hash: string -> nat, ser: ZPack -> string, servers: seq<Table>, op: Op)
    requires |servers| >= 1 && op.key != "" && DecodePack(PackText(Request(op))).key == Some(op.key)
    ensures var i := hash(op.key) % |servers|;
            var (table', srecv) := Serve(servers[i], PackText(Request(op)), ser);
            Call(hash, ser, servers, op) == (servers[i := table'], Receive(op, srecv))
  {
    hide PackText, DecodePack, Serve, Receive;
  }

  /** One operation of any client, against the whole set of servers. */
  lemma CallRefines(hash: string -> nat, ser: ZPack -> string, servers: seq<Table>, op: Op, m: map<string, Cell>)
    requires |servers| >= 1 && SafeOp(op) && Represents(hash, servers, m)
    ensures var (servers', reply) := Call(hash, ser, servers, op);
            reply == Store(m, op).1 && Represents(hash, servers', Store(m, op).0)
  {
    hide PackText, DecodePack, Receive, Serve, Entry, SafePack, ToInt, Scan, SafeVal;
    if op.key == "" {
      StatusCodes();
    } else {
      RequestSafe(op);
      CallAt(hash, ser, servers, op);
      var i := hash(op.key) % |servers|;
      OpServed(servers[i], op, m, ser);
      var (table', srecv) := Serve(servers[i], PackText(Request(op)), ser);
      var servers', m' := servers[i := table'], Store(m, op).0;
      forall k | SafeKey(k)
        ensures Holds(servers'[hash(k) % |servers|], k, m')
      {
        assert Holds(servers[hash(k) % |servers|], k, m);
        OtherKeys(m, op, k);
      }
    }
  }

  lemma OtherKeys(m: map<string, Cell>, op: Op, k: string)
    ensures k != op.key ==> (k in Store(m, op).0 <==> k in m) && (k in m ==> Store(m, op).0[k] == m[k])
  {
  }

  lemma {:induction false} CallsRefine(hash: string -> nat, ser: ZPack -> string, servers: seq<Table>, ops: seq<Op>,
                                       m: map<string, Cell>)
    requires |servers| >= 1 && Represents(hash, servers, m) && forall i :: 0 <= i < |ops| ==> SafeOp(ops[i])
    ensures Calls(hash, ser, servers, ops) == Stores(m, ops)
    decreases |ops|
  {
    hide Call, Store, SafeOp, Represents;
    if ops != [] {
      CallRefines(hash, ser, servers, ops[0], m);
      CallsRefine(hash, ser, Call(hash, ser, servers, ops[0]).0, ops[1..], Store(m, ops[0]).0);
    }
  }

  /** Whatever the number of servers and the hash function, clients see a single atomic store of cells. */
  lemma OneStore(hash: string -> nat, ser: ZPack -> string, n: nat, ops: seq<Op>)
    requires n >= 1 && forall i :: 0 <= i < |ops| ==> SafeOp(ops[i])
    ensures Calls(hash, ser, seq(n, i => map[]), ops) == Stores(map[], ops)
  {
    CallsRefine(hash, ser, seq(n, i => map[]), ops, map[]);
  }

  // ---------- When the store is a map ----------

  function Plain(m: map<string, Cell>): map<string, string> { map k | k in m :: Value(m[k]) }

  /**
    What compare_swap demands of the cell to behave as on a map: the placeholder for an empty value
    must not decide the comparison, and the null flag, which is kept, must fit the new value.
  */
  ghost predicate SwapFits(m: map<string, Cell>, op: Op) {
    op.key != "" && op.Swap? && op.key in m ==>
      var cell := m[op.key];
      && (cell.raw == SentVal(op.seen) <==> Value(cell) == op.seen)
      && (cell.raw == SentVal(op.seen) ==> (cell.isNull <==> op.newval == ""))
  }

  /** An operation does to the store what it does to the map exactly when it is not an unfitting compare_swap. */
  lemma StoreIsMap(m: map<string, Cell>, op: Op)
    ensures (Plain(Store(m, op).0), Store(m, op).1) == Apply(Plain(m), op) <==> SwapFits(m, op)
  {
    hide SwapFits;
    if op.key != "" && op.Swap? && op.key in m {
      SwapIsMap(m, op);
    } else {
      OtherFits(m, op);
      PlainUpdates(m, op.key, Cell(SentVal(Val(op)), Val(op) == ""));
    }
  }

  lemma OtherFits(m: map<string, Cell>, op: Op)
    requires !(op.key != "" && op.Swap? && op.key in m)
    ensures SwapFits(m, op)
  {
  }

  lemma PlainUpdates(m: map<string, Cell>, k: string, cell: Cell)
    ensures Plain(m[k := cell]) == Plain(m)[k := Value(cell)] && Plain(m - {k}) == Plain(m) - {k}
  {
  }

  lemma SwapIsMap(m: map<string, Cell>, op: Op)
    requires op.key != "" && op.Swap? && op.key in m
    ensures (Plain(Store(m, op).0), Store(m, op).1) == Apply(Plain(m), op) <==> SwapFits(m, op)
  {
    var cell := m[op.key];
    var cell' := Cell(SentNewVal(op.newval), cell.isNull);
    PlainUpdates(m, op.key, cell');
    assert Plain(m)[op.key := Value(cell')][op.key] == Value(cell')
           && Plain(m)[op.key := op.newval][op.key] == op.newval;
  }

  /** No compare_swap with an empty value; `hat` tells whether "^" may be expected, and then none is inserted empty. */
  ghost predicate MapOp(op: Op, hat: bool) {
    && (op.Swap? ==> op.seen != "" && op.newval != "" && (op.seen == "^" ==> hat))
    && (op.Put? && hat ==> op.val != "")
  }

  ghost predicate NullCells(m: map<string, Cell>, hat: bool) {
    forall k :: k in m && m[k].isNull ==> m[k].raw == "^" && !hat
  }

  lemma MapStep(m: map<string, Cell>, op: Op, hat: bool)
    requires MapOp(op, hat) && NullCells(m, hat)
    ensures NullCells(Store(m, op).0, hat) && (Plain(Store(m, op).0), Store(m, op).1) == Apply(Plain(m), op)
  {
    StoreIsMap(m, op);
  }

  lemma {:induction false} StoresMap(m: map<string, Cell>, ops: seq<Op>, hat: bool)
    requires NullCells(m, hat) && forall i :: 0 <= i < |ops| ==> MapOp(ops[i], hat)
    ensures Stores(m, ops) == Replies(Plain(m), ops)
    decreases |ops|
  {
    hide Store, Apply, NullCells, MapOp, Plain;
    if ops != [] {
      MapStep(m, ops[0], hat);
      StoresMap(Store(m, ops[0]).0, ops[1..], hat);
    }
  }

  /** Clients that swap no empty values, and do not expect the placeholder where they insert empty ones, see one map. */
  lemma OneMap(hash: string -> nat, ser: ZPack -> string, n: nat, ops: seq<Op>, hat: bool)
    requires n >= 1 && forall i :: 0 <= i < |ops| ==> SafeOp(ops[i]) && MapOp(ops[i], hat)
    ensures Calls(hash, ser, seq(n, i => map[]), ops) == Replies(map[], ops)
  {
    OneStore(hash, ser, n, ops);
    StoresMap(map[], ops, hat);
    assert Plain(map[]) == map[];
  }

  // ---------- Unsafe values ----------

  lemma ExtractedSafe(s: string)
    ensures ExtractValue(s) == "" || SafeVal(ExtractValue(s))
  {
    DecodedPackSafe(s);
  }

  lemma GetExtracts(hash: string -> nat, ser: ZPack -> string, servers: seq<Table>, k: string)
    requires |servers| >= 1 && SafeKey(k)
    ensures var v := Call(hash, ser, servers, Get1(k)).1.result; v == "" || SafeVal(v)
  {
    hide PackText, DecodePack, SafePack, Scan, ToInt, Serve, ExtractValue, SafeVal;
    var op := Get1(k);
    RequestSafe(op);
    CallAt(hash, ser, servers, op);
    ExtractedSafe(EraseStatus(Serve(servers[hash(k) % |servers|], PackText(Request(op)), ser).1));
  }

  lemma {:induction false} LastReply(hash: string -> nat, ser: ZPack -> string, servers: seq<Table>, ops: seq<Op>,
                                     k: string)
    requires |servers| >= 1 && SafeKey(k) && ops != [] && ops[|ops| - 1] == Get1(k)
    ensures var replies := Calls(hash, ser, servers, ops);
            |replies| == |ops| && (replies[|ops| - 1].result == "" || SafeVal(replies[|ops| - 1].result))
    decreases |ops|
  {
    hide Call, SafeVal;
    if |ops| == 1 {
      GetExtracts(hash, ser, servers, k);
      assert ops[1..] == [];
    } else {
      var servers' := Call(hash, ser, servers, ops[0]).0;
      LastReply(hash, ser, servers', ops[1..], k);
      assert Calls(hash, ser, servers, ops)[|ops| - 1] == Calls(hash, ser, servers', ops[1..])[|ops| - 2];
    }
  }

  lemma StoresCons(m: map<string, Cell>, op: Op, ops: seq<Op>)
    ensures Stores(m, [op] + ops) == [Store(m, op).1] + Stores(Store(m, op).0, ops)
  {
    hide Store;
    assert ([op] + ops)[1..] == ops;
  }

  lemma TwoStores(a: Op, b: Op)
    ensures Stores(map[], [a, b]) == [Store(map[], a).1, Store(Store(map[], a).0, b).1]
  {
    hide Store, Stores;
    var m := Store(map[], a).0;
    StoresCons(map[], a, [b]);
    StoresCons(m, b, []);
    assert Stores(Store(m, b).0, []) == [] by { NoStores(Store(m, b).0); }
    assert [a] + [b] == [a, b] && [b] + [] == [b];
  }

  lemma NoStores(m: map<string, Cell>)
    ensures Stores(m, []) == []
  {
  }

  lemma ThreeStores(a: Op, b: Op, c: Op)
    ensures var m1 := Store(map[], a).0;
            var m2 := Store(m1, b).0;
            Stores(map[], [a, b, c]) == [Store(map[], a).1, Store(m1, b).1, Store(m2, c).1]
  {
    hide Store, Stores;
    var m1 := Store(map[], a).0;
    var m2 := Store(m1, b).0;
    StoresCons(map[], a, [b, c]);
    StoresCons(m1, b, [c]);
    StoresCons(m2, c, []);
    NoStores(Store(m2, c).0);
    assert [a] + [b, c] == [a, b, c] && [b] + [c] == [b, c] && [c] + [] == [c];
  }

  lemma CallsCons(hash: string -> nat, ser: ZPack -> string, servers: seq<Table>, op: Op, ops: seq<Op>)
    requires |servers| >= 1
    ensures var (servers', reply) := Call(hash, ser, servers, op);
            Calls(hash, ser, servers, [op] + ops) == [reply] + Calls(hash, ser, servers', ops)
  {
    hide Call;
    assert ([op] + ops)[1..] == ops;
  }

  /** A value can be read back exactly when it is empty, or free of '/' and not the word for absence. */
  lemma ReadBack(hash: string -> nat, ser: ZPack -> string, n: nat, k: string, v: string)
    requires n >= 1 && SafeKey(k)
    ensures Calls(hash, ser, seq(n, i => map[]), [Put(k, v), Get1(k)]) == [Reply(0, ""), Reply(0, v)]
            <==> v == "" || SafeVal(v)
  {
    hide Calls, Stores;
    var ops := [Put(k, v), Get1(k)];
    if v == "" || SafeVal(v) {
      OneStore(hash, ser, n, ops);
      TwoStores(ops[0], ops[1]);
    } else {
      LastReply(hash, ser, seq(n, i => map[]), ops, k);
      assert [Reply(0, ""), Reply(0, v)][1] == Reply(0, v);
    }
  }

  /** The new values that compare_swap can put in place of v: only the empty one over an empty one. */
  ghost predicate Replaces(v: string, w: string) {
    if v == "" then w == "" else SafeVal(w) && w != "nonewval"
  }

  /** A swapped-in value can be read back exactly when both values are empty, or the old one is not and the new one
      is safe. */
  lemma SwapReadBack(hash: string -> nat, ser: ZPack -> string, n: nat, k: string, v: string, w: string)
    requires n >= 1 && SafeKey(k) && (v == "" || SafeVal(v))
    ensures Calls(hash, ser, seq(n, i => map[]), [Put(k, v), Swap(k, v, w), Get1(k)])
              == [Reply(0, ""), Reply(0, w), Reply(0, w)]
            <==> Replaces(v, w)
  {
    hide Calls, Stores;
    var ops, good := [Put(k, v), Swap(k, v, w), Get1(k)], [Reply(0, ""), Reply(0, w), Reply(0, w)];
    assert good[1] == Reply(0, w) && good[2] == Reply(0, w);
    if w == "nonewval" {
      SwapNone(hash, ser, n, k, v);
    } else if w == "" || SafeVal(w) {
      OneStore(hash, ser, n, ops);
      ThreeStores(ops[0], ops[1], ops[2]);
    } else {
      LastReply(hash, ser, seq(n, i => map[]), ops, k);
    }
  }

  /** At the input "": over a value that is not empty, the placeholder is what is read. */
  lemma EmptySwappedIn(hash: string -> nat, ser: ZPack -> string, n: nat, k: string, v: string)
    requires n >= 1 && SafeKey(k) && SafeVal(v)
    ensures Calls(hash, ser, seq(n, i => map[]), [Put(k, v), Swap(k, v, ""), Get1(k)])
         == [Reply(0, ""), Reply(0, "?"), Reply(0, "?")]
  {
    hide Calls, Stores;
    var ops := [Put(k, v), Swap(k, v, ""), Get1(k)];
    OneStore(hash, ser, n, ops);
    ThreeStores(ops[0], ops[1], ops[2]);
  }

  /** compare_swap keeps the null flag: a value swapped in over an empty one is never seen. */
  lemma SwapOverEmpty(hash: string -> nat, ser: ZPack -> string, n: nat, k: string, w: string)
    requires n >= 1 && SafeKey(k) && SafeVal(w) && w != "nonewval"
    ensures Calls(hash, ser, seq(n, i => map[]), [Put(k, ""), Swap(k, "", w), Get1(k)])
         == [Reply(0, ""), Reply(0, ""), Reply(0, "")]
  {
    hide Calls, Stores;
    var ops := [Put(k, ""), Swap(k, "", w), Get1(k)];
    OneStore(hash, ser, n, ops);
    ThreeStores(ops[0], ops[1], ops[2]);
  }

  // ---------- The word for an absent new value ----------

  lemma NoNewVal(k: string, v: string)
    requires SafeKey(k) && (v == "" || SafeVal(v))
    ensures DecodePack(PackText(Request(Swap(k, v, "nonewval")))) == Request(Swap(k, v, "nonewval")).(newval := None)
  {
    var z := Request(Swap(k, v, "nonewval"));
    assert PackFields(z) == PackFields(z.(newval := None));
    PackRoundTrip(z.(newval := None));
  }

  /** An entry written with an empty value cannot be read. */
  lemma EmptyField(z: ZPack)
    requires SafePack(z) && Opt32(z.replicanum)
    ensures DecodePack(PackText(z.(val := Some("")))) == EMPTY_PACK
  {
    hide DecodePack, SafePack;
    var fields := PackFields(z.(val := Some("")));
    PackReads(z);
    FieldsBut(z);
    TokensSkip(fields, 2, '/');
    TokensJoined(fields[..2] + fields[3..], '/');
    FewTokens(PackText(z.(val := Some(""))));
  }

  lemma FieldsBut(z: ZPack)
    requires AllClean(PackFields(z), '/')
    ensures var fields := PackFields(z.(val := Some("")));
            && |fields| == 8 && fields[2] == "" && AllClean(fields[..2] + fields[3..], '/')
            && forall i :: 0 <= i < 8 ==> Free(fields[i], '/')
  {
    var fields := PackFields(z.(val := Some("")));
    assert forall i :: 0 <= i < 8 && i != 2 ==> fields[i] == PackFields(z)[i];
  }

  lemma FewTokens(str: string)
    requires |Tokens(str, '/')| < 8
    ensures DecodePack(str) == EMPTY_PACK
  {
  }

  lemma NoneServed(table: Table, k: string, v: string, ser: ZPack -> string)
    requires SafeKey(k) && (v == "" || SafeVal(v)) && k in table && Entry(table[k], k, Cell(SentVal(v), v == ""))
    ensures var op := Swap(k, v, "nonewval");
            Receive(op, Serve(table, PackText(Request(op)), ser).1).result == ""
  {
    hide PackText, DecodePack, Scan, ToInt, EraseStatus, SafeVal;
    NoNewVal(k, v);
    var text := table[k];
    var z := DecodePack(text);
    EmptyField(z);
    Split(REC_SUCC, text);
    Split(REC_SUCC, PackText(z.(val := Some(""))));
  }

  lemma SwapNone(hash: string -> nat, ser: ZPack -> string, n: nat, k: string, v: string)
    requires n >= 1 && SafeKey(k) && (v == "" || SafeVal(v))
    ensures var replies := Calls(hash, ser, seq(n, i => map[]), [Put(k, v), Swap(k, v, "nonewval"), Get1(k)]);
            |replies| == 3 && replies[1].result == ""
  {
    hide Call, Serve, Receive, PackText, DecodePack, Entry, Represents, SafeVal;
    var servers: seq<Table> := seq(n, i => map[]);
    var op := Swap(k, v, "nonewval");
    var ops := [Put(k, v), op, Get1(k)];
    assert Represents(hash, servers, map[]) by { NoneHeld(hash, servers); }
    CallRefines(hash, ser, servers, Put(k, v), map[]);
    var servers' := Call(hash, ser, servers, Put(k, v)).0;
    HeldAt(hash, servers', Store(map[], Put(k, v)).0, k);
    var table := servers'[hash(k) % |servers'|];
    NoneServed(table, k, v, ser);
    NoNewVal(k, v);
    CallAt(hash, ser, servers', op);
    var servers'' := Call(hash, ser, servers', op).0;
    assert [Put(k, v)] + [op, Get1(k)] == ops && [op] + [Get1(k)] == [op, Get1(k)] && [Get1(k)] + [] == [Get1(k)];
    CallsCons(hash, ser, servers, Put(k, v), [op, Get1(k)]);
    CallsCons(hash, ser, servers', op, [Get1(k)]);
    CallsCons(hash, ser, servers'', Get1(k), []);
  }

  lemma NoneHeld(hash: string -> nat, servers: seq<Table>)
    requires |servers| >= 1 && forall i :: 0 <= i < |servers| ==> servers[i] == map[]
    ensures Represents(hash, servers, map[])
  {
  }

  lemma HeldAt(hash: string -> nat, servers: seq<Table>, m: map<string, Cell>, k: string)
    requires |servers| >= 1 && Represents(hash, servers, m) && SafeKey(k) && k in m
    ensures k in servers[hash(k) % |servers|] && Entry(servers[hash(k) % |servers|][k], k, m[k])
  {
    assert Holds(servers[hash(k) % |servers|], k, m);
  }
}
