/** The text form of a ZHT request or stored entry. */
module ZPackCodec {
  import opened Text
  import opened Codec

  datatype ZPack = ZPack(opcode: Option<string>, key: Option<string>, val: Option<string>, newval: Option<string>,
                         lease: Option<string>, valnull: Option<bool>, newvalnull: Option<bool>,
                         replicanum: Option<int>)

  const EMPTY_PACK := ZPack(None, None, None, None, None, None, None, None)

  /** The value of an optional string field, empty when it is not set. */
  function Get(o: Option<string>): string { if o.Some? then o.value else "" }

  function StrField(o: Option<string>, absent: string): string { if o.Some? then o.value else absent }

  function BoolField(o: Option<bool>, absent: string): string {
    if o.Some? then (if o.value then "1" else "0") else absent
  }

  function ReadStr(s: string, absent: string): Option<string> { if s == absent then None else Some(s) }

  /** stringstream >> bool accepts only 0 and 1. */
  function ReadBool(s: string, absent: string): Option<bool> { if s == absent then None else Some(Scan(s) == Some(1)) }

  function PackFields(z: ZPack): seq<string> {
    [StrField(z.opcode, "noopcode"), StrField(z.key, "nokey"), StrField(z.val, "noval"), StrField(z.newval, "nonewval"),
     StrField(z.lease, "nolease"), BoolField(z.valnull, "novaln"), BoolField(z.newvalnull, "nonewvaln"),
     NumField(z.replicanum, "noreplicanum")]
  }

  function PackText(z: ZPack): string { Joined(PackFields(z), '/') }

  function DecodePack(str: string): ZPack {
    var vec := Tokens(str, '/');
    if |vec| < 8 then EMPTY_PACK
    else
      ZPack(ReadStr(vec[0], "noopcode"), ReadStr(vec[1], "nokey"), ReadStr(vec[2], "noval"),
            ReadStr(vec[3], "nonewval"),
            ReadStr(vec[4], "nolease"), ReadBool(vec[5], "novaln"), ReadBool(vec[6], "nonewvaln"),
            Read32(vec[7], "noreplicanum"))
  }

  /** The text of a pack, written out. */
  lemma PackLayout(z: ZPack)
    ensures PackText(z) ==
            StrField(z.opcode, "noopcode") + "//" + StrField(z.key, "nokey") + "//" + StrField(z.val, "noval") + "//" +
            StrField(z.newval, "nonewval") + "//" +
            (StrField(z.lease, "nolease") + "//" + BoolField(z.valnull, "novaln") + "//" +
             BoolField(z.newvalnull, "nonewvaln") + "//" + NumField(z.replicanum, "noreplicanum") + "//")
  {
    hide Joined, StrField, BoolField, NumField;
    var f := PackFields(z);
    JoinedFour(f[0], f[1], f[2], f[3], '/');
    JoinedFour(f[4], f[5], f[6], f[7], '/');
    JoinedConcat([f[0], f[1], f[2], f[3]], [f[4], f[5], f[6], f[7]], '/');
    assert f == [f[0], f[1], f[2], f[3]] + [f[4], f[5], f[6], f[7]];
  }

  ghost predicate SafeField(o: Option<string>, absent: string) { o.Some? ==> Clean(o.value, '/') && o.value != absent }

  ghost predicate SafePack(z: ZPack) {
    && SafeField(z.opcode, "noopcode") && SafeField(z.key, "nokey") && SafeField(z.val, "noval")
    && SafeField(z.newval, "nonewval") && SafeField(z.lease, "nolease")
  }

  lemma BoolReads(o: Option<bool>, absent: string)
    requires Clean(absent, '/') && absent[0] == 'n'
    ensures Clean(BoolField(o, absent), '/') && ReadBool(BoolField(o, absent), absent) == o
  {
    if o.Some? {
      var b := if o.value then 1 else 0;
      assert NumToStr(b) == BoolField(o, absent);
      NumRoundTrip(b, 0, 1);
      assert "0"[..1] == "0" && "1"[..1] == "1" && "0"[..0] == "" && "1"[..0] == "";
      assert DigitsVal("0") == 0 && DigitsVal("1") == 1;
      assert Scan("0") == Some(0) && Scan("1") == Some(1);
    }
  }

  lemma StrReads(o: Option<string>, absent: string)
    requires Clean(absent, '/')
    ensures SafeField(o, absent) ==> Clean(StrField(o, absent), '/') && ReadStr(StrField(o, absent), absent) == o
  {
  }

  /** A pack survives its codec exactly when its strings are non-empty, free of '/' and not the words for absence. */
  lemma PackRoundTrip(z: ZPack)
    requires Opt32(z.replicanum)
    ensures DecodePack(PackText(z)) == z <==> SafePack(z)
  {
    if SafePack(z) {
      PackReads(z);
      TokensJoined(PackFields(z), '/');
    } else {
      DecodedPackSafe(PackText(z));
    }
  }

  lemma PackReads(z: ZPack)
    requires SafePack(z) && Opt32(z.replicanum)
    ensures AllClean(PackFields(z), '/')
    ensures BoolFieldsRead(z)
    ensures Read32(NumField(z.replicanum, "noreplicanum"), "noreplicanum") == z.replicanum
  {
    BoolReads(z.valnull, "novaln");
    BoolReads(z.newvalnull, "nonewvaln");
    OptClean(z.replicanum, "noreplicanum", '/');
    OptReads(z.replicanum, "noreplicanum", INT32_MIN, INT32_MAX);
    StrReads(z.opcode, "noopcode");
    StrReads(z.key, "nokey");
    StrReads(z.val, "noval");
    StrReads(z.newval, "nonewval");
    StrReads(z.lease, "nolease");
  }

  ghost predicate BoolFieldsRead(z: ZPack) {
    && ReadBool(BoolField(z.valnull, "novaln"), "novaln") == z.valnull
    && ReadBool(BoolField(z.newvalnull, "nonewvaln"), "nonewvaln") == z.newvalnull
  }

  /** A text with fewer than eight fields is read as an empty pack. */
  lemma ShortPack(xs: seq<string>)
    requires AllClean(xs, '/') && |xs| < 8
    ensures DecodePack(Joined(xs, '/')) == ZPack(None, None, None, None, None, None, None, None)
  {
    hide Joined, Tokens;
    TokensJoined(xs, '/');
  }

  lemma DecodedPackSafe(str: string)
    ensures SafePack(DecodePack(str)) && Opt32(DecodePack(str).replicanum)
  {
    var vec := Tokens(str, '/');
    forall i | 0 <= i < |vec|
      ensures Clean(vec[i], '/')
    {
      TokensClean(str, '/', i);
    }
  }
}
