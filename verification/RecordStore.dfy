/** Task records kept as text in ZHT: compare_swap on texts is compare_swap on records. */
module RecordStore {
  import opened Text
  import opened Codec
  import opened ZPackCodec
  import opened ZhtServer
  import opened ZhtClient

  /** Records whose strings are clean for their own codec and for the codec of ZHT requests. */
  ghost predicate Storable(v: Value) {
    && Typed(v) && SafeValue(v) && Free(v.id, '/')
    && AllFree(v.parents, '/') && AllFree(v.children, '/') && AllFree(v.dataNames, '/')
  }

  ghost predicate AllFree(xs: seq<string>, c: char) { forall i :: 0 <= i < |xs| ==> Free(xs[i], c) }

  lemma ListFree(xs: seq<string>, absent: string)
    requires AllFree(xs, '/') && Free(absent, '/')
    ensures Free(ListField(xs, absent), '/')
  {
    JoinedFree(xs, '?', '/');
  }

  lemma StrsFree(ns: seq<int>)
    ensures AllFree(Strs(ns), '/')
  {
    forall i | 0 <= i < |ns|
      ensures Free(Strs(ns)[i], '/')
    {
      NumClean(ns[i], '/');
    }
  }

  lemma FieldsFree(v: Value)
    requires Storable(v)
    ensures AllFree(Fields(v), '/')
  {
    hide NumField, ListField, SafeValue, Typed, Strs, AllFree, Fits32, Fits64;
    StrsFree(v.dataSizes);
    ListFree(v.parents, "noparents");
    ListFree(v.children, "nochildren");
    ListFree(v.dataNames, "nodataname");
    ListFree(Strs(v.dataSizes), "nodatasize");
    OptClean(v.indegree, "noindegree", '/');
    OptClean(v.allDataSize, "noalldatasize", '/');
    OptClean(v.taskLength, "notasklength", '/');
    OptClean(v.numTaskFin, "nonumtaskfin", '/');
    OptClean(v.numWorkSteal, "nonumworksteal", '/');
    OptClean(v.numWorkStealFail, "nonumworkstealfail", '/');
    OptClean(v.numTaskWait, "nonumtaskwait", '/');
    OptClean(v.numTaskReady, "nonumtaskready", '/');
    OptClean(v.numCoreAvail, "nonumcoreavail", '/');
    OptClean(v.numAllCore, "nonumallcore", '/');
    OptClean(v.outputSize, "nooutputsize", '/');
    OptClean(v.submitTime, "nosubmittime", '/');
    assert AllFree(Fields(v), '/') by { FreeAll(Fields(v), '/'); }
  }

  lemma FreeAll(xs: seq<string>, c: char)
    ensures (forall i :: 0 <= i < |xs| ==> Free(xs[i], c)) ==> AllFree(xs, c)
  {
  }

  /** The text of a record is a value that ZHT keeps. */
  lemma RecordSafe(v: Value)
    requires Storable(v)
    ensures SafeVal(ValueText(v)) && ValueText(v) != "nonewval"
  {
    FieldsFree(v);
    FieldsLength(v);
    JoinedFree(Fields(v), '~', '/');
    assert ValueText(v)[|Fields(v)[0]|] == '~';
    assert '~' !in "noval" && '~' !in "nonewval";
  }

  /** Different records have different texts. */
  lemma TextInjective(v: Value, w: Value)
    requires Storable(v) && Storable(w)
    ensures ValueText(v) == ValueText(w) <==> v == w
  {
    hide ValueText, DecodeValue;
    ValueRoundTrip(v);
    ValueRoundTrip(w);
  }

  /**
    On a store that holds record v for task k, compare_swap from `seen` to `new` succeeds exactly when
    v is the record seen; either way it returns the record now stored, and it is the one stored.
  */
  lemma RecordSwap(hash: string -> nat, ser: ZPack -> string, servers: seq<Table>, m: map<string, Cell>,
                   k: string, v: Value, seen: Value, new_: Value)
    requires |servers| >= 1 && Represents(hash, servers, m) && SafeKey(k) && k in m && m[k] == Cell(ValueText(v), false)
    requires Storable(v) && Storable(seen) && Storable(new_)
    ensures var op := Swap(k, ValueText(seen), ValueText(new_));
            var (servers', reply) := Call(hash, ser, servers, op);
            && (reply.rc == 0 <==> v == seen)
            && DecodeValue(reply.result) == Some(if v == seen then new_ else v)
            && Represents(hash, servers', m[k := Cell(ValueText(if v == seen then new_ else v), false)])
  {
    hide Call, Represents, ValueText, DecodeValue, Storable;
    RecordSafe(seen);
    RecordSafe(new_);
    TextInjective(v, seen);
    RoundTrip(v);
    RoundTrip(new_);
    var op := Swap(k, ValueText(seen), ValueText(new_));
    CallRefines(hash, ser, servers, op, m);
    assert m[k := m[k]] == m;
  }

  lemma RoundTrip(v: Value)
    requires Storable(v)
    ensures DecodeValue(ValueText(v)) == Some(v)
  {
    ValueRoundTrip(v);
  }

  /** Looking a record up gives it back. */
  lemma RecordLookup(hash: string -> nat, ser: ZPack -> string, servers: seq<Table>, m: map<string, Cell>, k: string,
                     v: Value)
    requires |servers| >= 1 && Represents(hash, servers, m) && SafeKey(k) && k in m
             && m[k] == Cell(ValueText(v), false) && Storable(v)
    ensures var reply := Call(hash, ser, servers, Get1(k)).1;
            reply.rc == 0 && DecodeValue(reply.result) == Some(v)
  {
    hide Call, Represents, ValueText, DecodeValue, Storable;
    RoundTrip(v);
    CallRefines(hash, ser, servers, Get1(k), m);
  }
}
