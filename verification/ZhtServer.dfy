/** One ZHT server: a hash table and the worker that serves requests on it. */
module ZhtServer {
  import opened Text
  import opened Codec
  import opened ZPackCodec
  import NoVoHTable

  const OPC_LOOKUP := "001"
  const OPC_REMOVE := "002"
  const OPC_INSERT := "003"
  const OPC_APPEND := "004"
  const OPC_CMPSWP := "005"
  const OPC_STCHGCB := "006"
  const REC_SUCC := "000"
  const REC_EMPTYKEY := "-01"
  const REC_SRVEXP := "-04"
  const REC_NONEXISTKEY := "-92"
  const REC_UOPC := "-98"

  type Table = map<string, string>

  // ---------- What a request does to the table ----------

  function Lookup(m: Table, z: ZPack): string {
    var key := Get(z.key);
    if key == "" then REC_EMPTYKEY
    else if key in m then REC_SUCC + m[key]
    else REC_NONEXISTKEY + "Empty"
  }

  function Insert(m: Table, z: ZPack): (Table, string) {
    var key := Get(z.key);
    if key == "" then (m, REC_EMPTYKEY) else (m[key := PackText(z)], REC_SUCC)
  }

  function Remove(m: Table, z: ZPack): (Table, string) {
    var key := Get(z.key);
    if key == "" then (m, REC_EMPTYKEY)
    else if key in m then (m - {key}, REC_SUCC)
    else (m, REC_NONEXISTKEY)
  }

  function Append(m: Table, z: ZPack, serialize: ZPack -> string): (Table, string) {
    var key := Get(z.key);
    if key == "" then (m, REC_EMPTYKEY)
    else (m[key := if key in m then m[key] + ":" + serialize(z) else serialize(z)], REC_SUCC)
  }

  function EraseStatus(val: string): string { if |val| < 3 then "" else val[3..] }

  function SwapInternal(m: Table, z: ZPack): (Table, string) {
    var stored := DecodePack(EraseStatus(Lookup(m, z)));
    if Get(z.val) == Get(stored.val) then Insert(m, stored.(val := Some(Get(z.newval)))) else (m, REC_SRVEXP)
  }

  function CompareSwap(m: Table, z: ZPack): (Table, string) {
    if Get(z.key) == "" then (m, REC_EMPTYKEY)
    else
      var (m', status) := SwapInternal(m, z);
      (m', status + EraseStatus(Lookup(m', z)))
  }

  /** `serialize` stands for the protobuf encoding that append stores. */
  function Serve(m: Table, buf: string, serialize: ZPack -> string): (Table, string) {
    var z := DecodePack(buf);
    var opcode := Get(z.opcode);
    if opcode == OPC_LOOKUP then (m, Lookup(m, z))
    else if opcode == OPC_INSERT then Insert(m, z)
    else if opcode == OPC_APPEND then Append(m, z, serialize)
    else if opcode == OPC_CMPSWP then CompareSwap(m, z)
    else if opcode == OPC_REMOVE then Remove(m, z)
    else if opcode == OPC_STCHGCB then (m, "")
    else (m, REC_UOPC)
  }

  // ---------- Requests to one server ----------

  /** A request as clients send it. */
  ghost predicate Sent(z: ZPack, code: string, key: string) {
    SafePack(z) && Opt32(z.replicanum) && z.opcode == Some(code) && z.key == Some(key) && key != ""
  }

  lemma SentArrives(z: ZPack, code: string, key: string)
    requires Sent(z, code, key)
    ensures DecodePack(PackText(z)) == z && Get(z.opcode) == code && Get(z.key) == key
  {
    PackRoundTrip(z);
  }

  /** After an insert a lookup returns the text of the inserting request. */
  lemma InsertThenLookup(m: Table, z: ZPack, l: ZPack, key: string, ser: ZPack -> string)
    requires Sent(z, "003", key) && Sent(l, "001", key)
    ensures var (m', status) := Serve(m, PackText(z), ser);
            status == "000" && Serve(m', PackText(l), ser) == (m', "000" + PackText(z)) && m' == m[key := PackText(z)]
  {
    hide PackText, DecodePack;
    SentArrives(z, "003", key);
    SentArrives(l, "001", key);
  }

  /** After an append a lookup returns what was stored before, a colon, and the serialized request. */
  lemma AppendThenLookup(m: Table, z: ZPack, l: ZPack, key: string, ser: ZPack -> string)
    requires Sent(z, "004", key) && Sent(l, "001", key)
    ensures var (m', status) := Serve(m, PackText(z), ser);
            var entry := (if key in m then m[key] + ":" else "") + ser(z);
            status == "000" && m' == m[key := entry] && Serve(m', PackText(l), ser) == (m', "000" + entry)
  {
    hide PackText, DecodePack;
    SentArrives(z, "004", key);
    SentArrives(l, "001", key);
    assert "" + ser(z) == ser(z);
  }

  /** After a removal, which tells whether the key was there, a lookup finds nothing. */
  lemma RemoveThenLookup(m: Table, z: ZPack, l: ZPack, key: string, ser: ZPack -> string)
    requires Sent(z, "002", key) && Sent(l, "001", key)
    ensures var (m', status) := Serve(m, PackText(z), ser);
            && status == (if key in m then "000" else "-92") && m' == m - {key}
            && Serve(m', PackText(l), ser) == (m', "-92Empty")
  {
    hide PackText, DecodePack;
    SentArrives(z, "002", key);
    SentArrives(l, "001", key);
    assert REC_NONEXISTKEY + "Empty" == "-92Empty";
  }

  /** Requests that change nothing: those without a key, callbacks, and unknown operations. */
  lemma Refused(m: Table, z: ZPack, ser: ZPack -> string)
    requires SafePack(z) && Opt32(z.replicanum)
    ensures z.key.None? && Get(z.opcode) in {"001", "002", "003", "004", "005"} ==>
              Serve(m, PackText(z), ser) == (m, "-01")
    ensures Get(z.opcode) == "006" ==> Serve(m, PackText(z), ser) == (m, "")
    ensures Get(z.opcode) !in {"001", "002", "003", "004", "005", "006"} ==>
              Serve(m, PackText(z), ser) == (m, "-98")
  {
    hide PackText, DecodePack;
    PackRoundTrip(z);
  }

  // ---------- The worker ----------

  class HTWorker {
    const pmap: NoVoHTable.NoVoHT
    const serialize: ZPack -> string

    constructor (pmap: NoVoHTable.NoVoHT, serialize: ZPack -> string)
      ensures this.pmap == pmap && this.serialize == serialize
    {
      this.pmap := pmap;
      this.serialize := serialize;
    }

    method InsertShared(z: ZPack) returns (result: string)
      requires pmap.Valid()
      modifies pmap, pmap.kvpairs, pmap.nodes
      ensures pmap.Valid() && (pmap.contents, result) == Insert(old(pmap.contents), z)
    {
      hide PackText;
      if Get(z.key) == "" {
        return REC_EMPTYKEY;
      }
      var ret := pmap.Put(Get(z.key), PackText(z));
      result := if ret != 0 then REC_NONEXISTKEY else REC_SUCC;
    }

    method LookupShared(z: ZPack) returns (result: string)
      requires pmap.Valid()
      ensures result == Lookup(pmap.contents, z)
    {
      var key := Get(z.key);
      if key == "" {
        return REC_EMPTYKEY;
      }
      var ret := pmap.Get(key);
      result := if ret.None? then REC_NONEXISTKEY + "Empty" else REC_SUCC + ret.value;
    }

    method AppendShared(z: ZPack) returns (result: string)
      requires pmap.Valid()
      modifies pmap, pmap.kvpairs, pmap.nodes
      ensures pmap.Valid() && (pmap.contents, result) == Append(old(pmap.contents), z, serialize)
    {
      if Get(z.key) == "" {
        return REC_EMPTYKEY;
      }
      var ret := pmap.Append(Get(z.key), serialize(z));
      result := if ret != 0 then REC_NONEXISTKEY else REC_SUCC;
    }

    method RemoveShared(z: ZPack) returns (result: string)
      requires pmap.Valid()
      modifies pmap, pmap.kvpairs, pmap.nodes
      ensures pmap.Valid() && (pmap.contents, result) == Remove(old(pmap.contents), z)
    {
      var key := Get(z.key);
      if key == "" {
        return REC_EMPTYKEY;
      }
      assert key !in pmap.contents ==> pmap.contents - {key} == pmap.contents;
      var ret := pmap.Remove(key);
      result := if ret != 0 then REC_NONEXISTKEY else REC_SUCC;
    }

    method CompareSwapInternal(z: ZPack) returns (ret: string)
      requires pmap.Valid()
      modifies pmap, pmap.kvpairs, pmap.nodes
      ensures pmap.Valid() && (pmap.contents, ret) == SwapInternal(old(pmap.contents), z)
    {
      hide PackText, DecodePack, Insert;
      var lresult := LookupShared(z);
      var lzpack := DecodePack(EraseStatus(lresult));
      if Get(z.val) == Get(lzpack.val) {
        ret := InsertShared(lzpack.(val := Some(Get(z.newval))));
      } else {
        ret := REC_SRVEXP;
      }
    }

    method CompareSwapAndLookup(z: ZPack) returns (result: string)
      requires pmap.Valid()
      modifies pmap, pmap.kvpairs, pmap.nodes
      ensures pmap.Valid() && (pmap.contents, result) == CompareSwap(old(pmap.contents), z)
    {
      hide SwapInternal, Lookup;
      if Get(z.key) == "" {
        return REC_EMPTYKEY;
      }
      result := CompareSwapInternal(z);
      var lkpresult := LookupShared(z);
      result := result + EraseStatus(lkpresult);
    }

    /** Serving a request on the hash table is serving it on the map it represents. */
    method Run(buf: string) returns (result: string)
      requires pmap.Valid()
      modifies pmap, pmap.kvpairs, pmap.nodes
      ensures pmap.Valid() && (pmap.contents, result) == Serve(old(pmap.contents), buf, serialize)
    {
      hide DecodePack, Lookup, Insert, Append, CompareSwap, Remove;
      var z := DecodePack(buf);
      var opcode := Get(z.opcode);
      if opcode == OPC_LOOKUP {
        result := LookupShared(z);
      } else if opcode == OPC_INSERT {
        result := InsertShared(z);
      } else if opcode == OPC_APPEND {
        result := AppendShared(z);
      } else if opcode == OPC_CMPSWP {
        result := CompareSwapAndLookup(z);
      } else if opcode == OPC_REMOVE {
        result := RemoveShared(z);
      } else if opcode == OPC_STCHGCB {
        result := "";
      } else {
        result := REC_UOPC;
      }
    }
  }
}
