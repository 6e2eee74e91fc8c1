/** The text codecs for tasks, messages and task records. */
module Codec {
  import opened Text

  const INT32_MIN: int := -0x8000_0000
  const INT32_MAX: int := 0x7fff_ffff
  const INT64_MIN: int := -0x8000_0000_0000_0000
  const INT64_MAX: int := 0x7fff_ffff_ffff_ffff

  predicate Fits32(n: int) { INT32_MIN <= n <= INT32_MAX }
  predicate Fits64(n: int) { INT64_MIN <= n <= INT64_MAX }

  // ---------- TaskMsg ----------

  datatype TaskMsg = TaskMsg(taskId: string, user: string, dir: string, cmd: string, dataLength: int)

  function TaskText(t: TaskMsg): string {
    Joined([t.taskId, t.user, t.dir, t.cmd, NumToStr(t.dataLength)], '@')
  }

  /** None where the original exits; missing trailing fields get defaults. */
  function DecodeTask(str: string): Option<TaskMsg> {
    var vec := Tokens(str, '@');
    if |vec| == 0 then None
    else
      Some(TaskMsg(vec[0],
                   if |vec| > 1 then vec[1] else "kwang",
                   if |vec| > 2 then vec[2] else "/home/kwang/Documents",
                   if |vec| > 3 then vec[3] else "hostname",
                   if |vec| > 4 then StrToNum(vec[4], INT64_MIN, INT64_MAX) else 0))
  }

  ghost predicate SafeTask(t: TaskMsg) {
    Clean(t.taskId, '@') && Clean(t.user, '@') && Clean(t.dir, '@') && Clean(t.cmd, '@')
  }

  /** A task survives its codec exactly when its strings are non-empty and free of '@'. */
  lemma TaskRoundTrip(t: TaskMsg)
    requires Fits64(t.dataLength)
    ensures DecodeTask(TaskText(t)) == Some(t) <==> SafeTask(t)
  {
    if SafeTask(t) {
      NumClean(t.dataLength, '@');
      TokensJoined([t.taskId, t.user, t.dir, t.cmd, NumToStr(t.dataLength)], '@');
      NumRoundTrip(t.dataLength, INT64_MIN, INT64_MAX);
    } else if DecodeTask(TaskText(t)).Some? {
      DecodedTaskSafe(TaskText(t));
    }
  }

  /** The text of a task, written out. */
  lemma TaskLayout(t: TaskMsg)
    ensures TaskText(t) == t.taskId + "@@" + t.user + "@@" + t.dir + "@@" + t.cmd + "@@" + NumToStr(t.dataLength) + "@@"
  {
    JoinedFive(t.taskId, t.user, t.dir, t.cmd, NumToStr(t.dataLength), '@');
  }

  /** A task text with fewer fields: the missing ones get defaults, and one without any is refused. */
  lemma TaskDefaults(xs: seq<string>)
    requires AllClean(xs, '@')
    ensures var r := DecodeTask(Joined(xs, '@'));
            && (r.None? <==> xs == [])
            && (|xs| == 1 ==> r == Some(TaskMsg(xs[0], "kwang", "/home/kwang/Documents", "hostname", 0)))
            && (|xs| == 2 ==> r == Some(TaskMsg(xs[0], xs[1], "/home/kwang/Documents", "hostname", 0)))
            && (|xs| == 3 ==> r == Some(TaskMsg(xs[0], xs[1], xs[2], "hostname", 0)))
            && (|xs| == 4 ==> r == Some(TaskMsg(xs[0], xs[1], xs[2], xs[3], 0)))
  {
    hide Joined, Tokens;
    TokensJoined(xs, '@');
  }

  lemma DefaultsClean()
    ensures Clean("kwang", '@') && Clean("/home/kwang/Documents", '@') && Clean("hostname", '@')
  {
  }

  lemma DecodedTaskSafe(str: string)
    requires DecodeTask(str).Some?
    ensures SafeTask(DecodeTask(str).value)
  {
    hide Clean;
    DefaultsClean();
    var vec := Tokens(str, '@');
    forall i | 0 <= i < |vec|
      ensures Clean(vec[i], '@')
    {
      TokensClean(str, '@', i);
    }
  }

  // ---------- MatrixMsg ----------

  datatype MatrixMsg = MatrixMsg(msgType: string, extraInfo: Option<string>, count: Option<int>, tasks: seq<string>)

  /** Conversion of a wider integer to a 32-bit one. */
  function ToInt32(n: int): (r: int)
    ensures Fits32(r) && (r - n) % 0x1_0000_0000 == 0
    ensures Fits32(n) ==> r == n
  {
    (n - INT32_MIN) % 0x1_0000_0000 + INT32_MIN
  }

  function Count32(o: Option<int>): Option<int> { if o.Some? then Some(ToInt32(o.value)) else None }

  function MessageFields(mm: MatrixMsg): seq<string> {
    [mm.msgType,
     if mm.extraInfo.Some? then mm.extraInfo.value else "noextrainfo",
     NumField(Count32(mm.count), "nocount"),  // a 64-bit field written as a 32-bit number
     if mm.tasks == [] then "notask" else Joined(mm.tasks, '!')]
  }

  function MessageText(mm: MatrixMsg): string { Joined(MessageFields(mm), '&') }

  /** None where vector::at throws. */
  function DecodeMessage(str: string): Option<MatrixMsg> {
    var vec := Tokens(str, '&');
    if |vec| < 4 then None
    else
      Some(MatrixMsg(vec[0],
                     if vec[1] == "noextrainfo" then None else Some(vec[1]),
                     ReadNum(vec[2], "nocount", INT32_MIN, INT32_MAX),
                     if vec[3] == "notask" then [] else Tokens(vec[3], '!')))
  }

  ghost predicate SafeMessage(mm: MatrixMsg) {
    && Clean(mm.msgType, '&')
    && (mm.extraInfo.Some? ==> Clean(mm.extraInfo.value, '&') && mm.extraInfo.value != "noextrainfo")
    && (mm.count.Some? ==> Fits32(mm.count.value))
    && AllClean(mm.tasks, '!') && forall i :: 0 <= i < |mm.tasks| ==> Free(mm.tasks[i], '&')
  }

  /** A message survives its codec exactly when its parts are clean and its 64-bit count fits 32 bits. */
  lemma MessageRoundTrip(mm: MatrixMsg)
    ensures DecodeMessage(MessageText(mm)) == Some(mm) <==> SafeMessage(mm)
  {
    if SafeMessage(mm) {
      MessageTokens(mm);
      if mm.count.Some? { NumFieldReads(ToInt32(mm.count.value), "nocount", INT32_MIN, INT32_MAX); }
      if mm.tasks != [] {
        TokensJoined(mm.tasks, '!');
        JoinedIsNot(mm.tasks, '!', "notask");
      }
    } else if DecodeMessage(MessageText(mm)).Some? {
      DecodedMessageSafe(MessageText(mm));
    }
  }

  /** The text of a message, written out. */
  lemma MessageLayout(mm: MatrixMsg)
    ensures var extra := if mm.extraInfo.Some? then mm.extraInfo.value else "noextrainfo";
            var count := if mm.count.Some? then NumToStr(ToInt32(mm.count.value)) else "nocount";
            var tasks := if mm.tasks == [] then "notask" else Joined(mm.tasks, '!');
            MessageText(mm) == mm.msgType + "&&" + extra + "&&" + count + "&&" + tasks + "&&"
  {
    hide Joined;
    var f := MessageFields(mm);
    JoinedFour(f[0], f[1], f[2], f[3], '&');
  }

  /** Texts with too few fields are refused, as messages and as records. */
  lemma TooShort(xs: seq<string>)
    ensures AllClean(xs, '&') ==> (DecodeMessage(Joined(xs, '&')).None? <==> |xs| < 4)
    ensures AllClean(xs, '~') ==> (DecodeValue(Joined(xs, '~')).None? <==> |xs| < 17)
  {
    hide Joined, Tokens, FromFields;
    if AllClean(xs, '&') { TokensJoined(xs, '&'); }
    if AllClean(xs, '~') { TokensJoined(xs, '~'); }
  }

  /** A count outside the 32-bit range comes back modulo 2^32. */
  lemma CountWraps(mm: MatrixMsg)
    requires SafeMessage(mm.(count := None)) && mm.count.Some?
    ensures DecodeMessage(MessageText(mm)) == Some(mm.(count := Some(ToInt32(mm.count.value))))
  {
    var w := mm.(count := Some(ToInt32(mm.count.value)));
    assert MessageText(w) == MessageText(mm);
    MessageRoundTrip(w);
  }

  lemma MessageTokens(mm: MatrixMsg)
    requires SafeMessage(mm)
    ensures Tokens(MessageText(mm), '&') == MessageFields(mm)
  {
    if mm.count.Some? { NumClean(ToInt32(mm.count.value), '&'); }
    JoinedFree(mm.tasks, '!', '&');
    TokensJoined(MessageFields(mm), '&');
  }

  lemma DecodedMessageSafe(str: string)
    requires DecodeMessage(str).Some?
    ensures SafeMessage(DecodeMessage(str).value)
  {
    var vec := Tokens(str, '&');
    forall i | 0 <= i < |vec|
      ensures Clean(vec[i], '&')
    {
      TokensClean(str, '&', i);
    }
    ListElements(vec[3], '!', '&');
  }

  lemma ListElements(str: string, c: char, d: char)
    requires Free(str, d)
    ensures AllClean(Tokens(str, c), c) && forall i :: 0 <= i < |Tokens(str, c)| ==> Free(Tokens(str, c)[i], d)
  {
    forall i | 0 <= i < |Tokens(str, c)|
      ensures Clean(Tokens(str, c)[i], c) && Free(Tokens(str, c)[i], d)
    {
      TokensClean(str, c, i);
    }
  }

  // ---------- Optional numbers and lists ----------

  function NumField(o: Option<int>, absent: string): string { if o.Some? then NumToStr(o.value) else absent }

  function ReadNum(s: string, absent: string, lo: int, hi: int): Option<int> {
    if s == absent then None else Some(StrToNum(s, lo, hi))
  }

  function ListField(xs: seq<string>, absent: string): string { if xs == [] then absent else Joined(xs, '?') }

  function ReadList(s: string, absent: string): seq<string> { if s == absent then [] else Tokens(s, '?') }

  function Strs(ns: seq<int>): seq<string> { seq(|ns|, i requires 0 <= i < |ns| => NumToStr(ns[i])) }

  function Nums(xs: seq<string>): seq<int> {
    seq(|xs|, i requires 0 <= i < |xs| => StrToNum(xs[i], INT64_MIN, INT64_MAX))
  }

  lemma NumFieldReads(n: int, absent: string, lo: int, hi: int)
    requires absent != "" && absent[0] == 'n' && lo <= n <= hi
    ensures ReadNum(NumToStr(n), absent, lo, hi) == Some(n)
  {
    NumRoundTrip(n, lo, hi);
    NumClean(n, 'n');
    assert NumToStr(n)[0] in NumToStr(n);
  }

  lemma JoinedIsNot(xs: seq<string>, c: char, word: string)
    requires xs != [] && c !in word
    ensures Joined(xs, c) != word
  {
    assert Joined(xs, c)[|xs[0]|] == c;
  }

  lemma ListFieldReads(xs: seq<string>, absent: string)
    requires AllClean(xs, '?') && '?' !in absent
    ensures ReadList(ListField(xs, absent), absent) == xs
  {
    if xs != [] {
      TokensJoined(xs, '?');
      JoinedIsNot(xs, '?', absent);
    }
  }

  // ---------- Value ----------

  datatype Value = Value(
    id: string, indegree: Option<int>, parents: seq<string>, children: seq<string>,
    dataNames: seq<string>, dataSizes: seq<int>, allDataSize: Option<int>, taskLength: Option<int>,
    numTaskFin: Option<int>, numWorkSteal: Option<int>, numWorkStealFail: Option<int>,
    numTaskWait: Option<int>, numTaskReady: Option<int>, numCoreAvail: Option<int>, numAllCore: Option<int>,
    outputSize: Option<int>, submitTime: Option<int>)

  predicate Opt32(o: Option<int>) { o.Some? ==> Fits32(o.value) }
  predicate Opt64(o: Option<int>) { o.Some? ==> Fits64(o.value) }

  /** The integer widths of the record's schema. */
  predicate Typed(v: Value) {
    && Opt64(v.indegree) && Opt64(v.allDataSize) && Opt64(v.taskLength) && Opt64(v.numTaskFin) && Opt64(v.numWorkSteal)
    && Opt64(v.numWorkStealFail) && Opt64(v.outputSize) && Opt64(v.submitTime)
    && Opt32(v.numTaskWait) && Opt32(v.numTaskReady) && Opt32(v.numCoreAvail) && Opt32(v.numAllCore)
    && forall i :: 0 <= i < |v.dataSizes| ==> Fits64(v.dataSizes[i])
  }

  function Fields(v: Value): seq<string> {
    [v.id, NumField(v.indegree, "noindegree"),
     ListField(v.parents, "noparents"), ListField(v.children, "nochildren"), ListField(v.dataNames, "nodataname"),
     ListField(Strs(v.dataSizes), "nodatasize"),
     NumField(v.allDataSize, "noalldatasize"), NumField(v.taskLength, "notasklength"),
     NumField(v.numTaskFin, "nonumtaskfin"), NumField(v.numWorkSteal, "nonumworksteal"),
     NumField(v.numWorkStealFail, "nonumworkstealfail"), NumField(v.numTaskWait, "nonumtaskwait"),
     NumField(v.numTaskReady, "nonumtaskready"), NumField(v.numCoreAvail, "nonumcoreavail"),
     NumField(v.numAllCore, "nonumallcore"), NumField(v.outputSize, "nooutputsize"),
     NumField(v.submitTime, "nosubmittime")]
  }

  function ValueText(v: Value): string { Joined(Fields(v), '~') }

  function FromFields(f: seq<string>): Value
    requires |f| >= 17
  {
    Value(f[0], Read64(f[1], "noindegree"),
          ReadList(f[2], "noparents"), ReadList(f[3], "nochildren"), ReadList(f[4], "nodataname"),
          Nums(ReadList(f[5], "nodatasize")),
          Read64(f[6], "noalldatasize"), Read64(f[7], "notasklength"),
          Read64(f[8], "nonumtaskfin"), Read64(f[9], "nonumworksteal"),
          Read64(f[10], "nonumworkstealfail"), Read32(f[11], "nonumtaskwait"),
          Read32(f[12], "nonumtaskready"), Read32(f[13], "nonumcoreavail"),
          // outputsize is a 64-bit field read as a 32-bit number
          Read32(f[14], "nonumallcore"), Read32(f[15], "nooutputsize"), Read64(f[16], "nosubmittime"))
  }

  function Read64(s: string, absent: string): Option<int> { ReadNum(s, absent, INT64_MIN, INT64_MAX) }
  function Read32(s: string, absent: string): Option<int> { ReadNum(s, absent, INT32_MIN, INT32_MAX) }

  /** None where the original exits. */
  function DecodeValue(str: string): Option<Value> {
    var vec := Tokens(str, '~');
    if |vec| < 17 then None else Some(FromFields(vec))
  }

  ghost predicate SafeList(xs: seq<string>) {
    AllClean(xs, '?') && forall i :: 0 <= i < |xs| ==> Free(xs[i], '~')
  }

  ghost predicate SafeValue(v: Value) {
    Clean(v.id, '~') && SafeList(v.parents) && SafeList(v.children) && SafeList(v.dataNames) && Opt32(v.outputSize)
  }

  lemma OptClean(o: Option<int>, absent: string, c: char)
    requires Clean(absent, c) && c != '-' && !IsDigit(c)
    ensures Clean(NumField(o, absent), c)
  {
    if o.Some? { NumClean(o.value, c); }
  }

  lemma OptReads(o: Option<int>, absent: string, lo: int, hi: int)
    requires absent != "" && absent[0] == 'n' && (o.Some? ==> lo <= o.value <= hi)
    ensures ReadNum(NumField(o, absent), absent, lo, hi) == o
  {
    if o.Some? { NumFieldReads(o.value, absent, lo, hi); }
  }

  lemma ListClean(xs: seq<string>, absent: string)
    requires SafeList(xs) && Clean(absent, '~')
    ensures Clean(ListField(xs, absent), '~')
  {
    JoinedFree(xs, '?', '~');
  }

  lemma StrsSafe(ns: seq<int>)
    ensures SafeList(Strs(ns))
  {
    forall i | 0 <= i < |ns|
      ensures Clean(Strs(ns)[i], '?') && Free(Strs(ns)[i], '~')
    {
      NumClean(ns[i], '?');
      NumClean(ns[i], '~');
    }
  }

  lemma NumsStrs(ns: seq<int>)
    requires forall i :: 0 <= i < |ns| ==> Fits64(ns[i])
    ensures Nums(Strs(ns)) == ns
  {
    forall i | 0 <= i < |ns|
      ensures Nums(Strs(ns))[i] == ns[i]
    {
      NumRoundTrip(ns[i], INT64_MIN, INT64_MAX);
    }
  }

  lemma FieldsClean(v: Value)
    requires SafeValue(v)
    ensures AllClean(Fields(v), '~')
  {
    hide NumField, ListField, SafeList, Strs;
    StrsSafe(v.dataSizes);
    ListClean(v.parents, "noparents");
    ListClean(v.children, "nochildren");
    ListClean(v.dataNames, "nodataname");
    ListClean(Strs(v.dataSizes), "nodatasize");
    OptClean(v.indegree, "noindegree", '~');
    OptClean(v.allDataSize, "noalldatasize", '~');
    OptClean(v.taskLength, "notasklength", '~');
    OptClean(v.numTaskFin, "nonumtaskfin", '~');
    OptClean(v.numWorkSteal, "nonumworksteal", '~');
    OptClean(v.numWorkStealFail, "nonumworkstealfail", '~');
    OptClean(v.numTaskWait, "nonumtaskwait", '~');
    OptClean(v.numTaskReady, "nonumtaskready", '~');
    OptClean(v.numCoreAvail, "nonumcoreavail", '~');
    OptClean(v.numAllCore, "nonumallcore", '~');
    OptClean(v.outputSize, "nooutputsize", '~');
    OptClean(v.submitTime, "nosubmittime", '~');
  }

  lemma FieldsRead(v: Value)
    requires SafeValue(v) && Typed(v)
    ensures FromFields(Fields(v)) == v
  {
    hide NumField, ReadNum, ListField, ReadList, Strs, Nums;
    StrsSafe(v.dataSizes);
    NumsStrs(v.dataSizes);
    ListFieldReads(v.parents, "noparents");
    ListFieldReads(v.children, "nochildren");
    ListFieldReads(v.dataNames, "nodataname");
    ListFieldReads(Strs(v.dataSizes), "nodatasize");
    OptReads(v.indegree, "noindegree", INT64_MIN, INT64_MAX);
    OptReads(v.allDataSize, "noalldatasize", INT64_MIN, INT64_MAX);
    OptReads(v.taskLength, "notasklength", INT64_MIN, INT64_MAX);
    OptReads(v.numTaskFin, "nonumtaskfin", INT64_MIN, INT64_MAX);
    OptReads(v.numWorkSteal, "nonumworksteal", INT64_MIN, INT64_MAX);
    OptReads(v.numWorkStealFail, "nonumworkstealfail", INT64_MIN, INT64_MAX);
    OptReads(v.numTaskWait, "nonumtaskwait", INT32_MIN, INT32_MAX);
    OptReads(v.numTaskReady, "nonumtaskready", INT32_MIN, INT32_MAX);
    OptReads(v.numCoreAvail, "nonumcoreavail", INT32_MIN, INT32_MAX);
    OptReads(v.numAllCore, "nonumallcore", INT32_MIN, INT32_MAX);
    OptReads(v.outputSize, "nooutputsize", INT32_MIN, INT32_MAX);
    OptReads(v.submitTime, "nosubmittime", INT64_MIN, INT64_MAX);
  }

  lemma ReadListSafe(s: string, absent: string)
    requires Free(s, '~')
    ensures SafeList(ReadList(s, absent))
  {
    ListElements(s, '?', '~');
  }

  lemma DecodedValueSafe(str: string)
    requires DecodeValue(str).Some?
    ensures SafeValue(DecodeValue(str).value)
  {
    hide ReadList, Nums;
    var vec := Tokens(str, '~');
    forall i | 0 <= i < |vec|
      ensures Clean(vec[i], '~')
    {
      TokensClean(str, '~', i);
    }
    ReadListSafe(vec[2], "noparents");
    ReadListSafe(vec[3], "nochildren");
    ReadListSafe(vec[4], "nodataname");
  }

  /**
    A record survives its codec exactly when its id and list elements are non-empty and free of
    delimiters and its output size fits 32 bits; lists may have any length, options may be absent.
  */
  lemma ValueRoundTrip(v: Value)
    requires Typed(v)
    ensures DecodeValue(ValueText(v)) == Some(v) <==> SafeValue(v)
  {
    hide Fields, FromFields, SafeValue, Typed;
    if SafeValue(v) {
      FieldsClean(v);
      TokensJoined(Fields(v), '~');
      FieldsLength(v);
      FieldsRead(v);
    } else if DecodeValue(ValueText(v)).Some? {
      DecodedValueSafe(ValueText(v));
    }
  }

  lemma FieldsLength(v: Value)
    ensures |Fields(v)| == 17
  {
  }

  /** The fields of a record's text, in order. */
  lemma ValueFields(v: Value)
    requires SafeValue(v)
    ensures Tokens(ValueText(v), '~') ==
            [v.id, NumField(v.indegree, "noindegree"), ListField(v.parents, "noparents"),
             ListField(v.children, "nochildren"), ListField(v.dataNames, "nodataname"),
             ListField(Strs(v.dataSizes), "nodatasize"), NumField(v.allDataSize, "noalldatasize"),
             NumField(v.taskLength, "notasklength"), NumField(v.numTaskFin, "nonumtaskfin"),
             NumField(v.numWorkSteal, "nonumworksteal"), NumField(v.numWorkStealFail, "nonumworkstealfail"),
             NumField(v.numTaskWait, "nonumtaskwait"), NumField(v.numTaskReady, "nonumtaskready"),
             NumField(v.numCoreAvail, "nonumcoreavail"), NumField(v.numAllCore, "nonumallcore"),
             NumField(v.outputSize, "nooutputsize"), NumField(v.submitTime, "nosubmittime")]
  {
    hide SafeValue, NumField, ListField, Strs;
    FieldsClean(v);
    TokensJoined(Fields(v), '~');
  }

  /** A 64-bit output size outside the 32-bit range comes back as 0. */
  lemma OutputSizeLost(v: Value)
    requires Typed(v) && SafeValue(v.(outputSize := None)) && v.outputSize.Some? && !Fits32(v.outputSize.value)
    ensures DecodeValue(ValueText(v)) == Some(v.(outputSize := Some(0)))
  {
    hide Fields, FromFields;
    var w := v.(outputSize := None);
    FieldsClean(w);
    FieldsRead(w);
    OutputField(v);
    NumClean(v.outputSize.value, '~');
    NumRoundTrip(v.outputSize.value, INT32_MIN, INT32_MAX);
    NumClean(v.outputSize.value, 'n');
    assert NumToStr(v.outputSize.value)[0] in NumToStr(v.outputSize.value);
    TokensJoined(Fields(v), '~');
  }

  lemma OutputField(v: Value)
    requires v.outputSize.Some?
    ensures var w := v.(outputSize := None);
            && |Fields(v)| == |Fields(w)| == 17 && Fields(v) == Fields(w)[15 := NumToStr(v.outputSize.value)]
            && var read := Read32(NumToStr(v.outputSize.value), "nooutputsize");
               FromFields(Fields(v)) == FromFields(Fields(w)).(outputSize := read)
  {
    hide NumField, ReadNum, ListField, ReadList, Strs, Nums;
    assert NumField(v.outputSize, "nooutputsize")
             == NumToStr(v.outputSize.value) by { PresentField(v.outputSize.value); }
  }

  lemma PresentField(n: int)
    ensures NumField(Some(n), "nooutputsize") == NumToStr(n)
  {
  }
}
