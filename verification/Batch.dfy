/** Sending a batch of tasks as packages over a byte stream, and receiving it. */
module Batch {
  import opened Text
  import opened Codec
  import opened Chunks

  // ---------- The sender ----------

  function TaskTexts(ts: seq<TaskMsg>): seq<string> { seq(|ts|, i requires 0 <= i < |ts| => TaskText(ts[i])) }

  function Package(peer: string, ts: seq<TaskMsg>): MatrixMsg {
    MatrixMsg(peer + " send tasks", None, Some(|ts|), TaskTexts(ts))
  }

  function PackageTexts(peer: string, ps: seq<seq<TaskMsg>>): seq<string> {
    seq(|ps|, i requires 0 <= i < |ps| => MessageText(Package(peer, ps[i])))
  }

  function Header(peer: string, n: nat): MatrixMsg { MatrixMsg(peer + " send tasks", None, Some(n), []) }

  /** All frames of a batch: the header with the task count, then the packages. */
  function Frames(peer: string, ts: seq<TaskMsg>, max: nat): seq<string>
    requires max >= 1
  {
    [MessageText(Header(peer, |ts|))] + PackageTexts(peer, Cut(ts, max))
  }

  /** The bytes written to the socket. */
  function Stream(peer: string, ts: seq<TaskMsg>, max: nat): string
    requires max >= 1
  {
    Joined(Frames(peer, ts, max), '#') + "$"
  }

  /** send_mul */
  function SendMul(buf: string, end: bool): string { buf + "##" + if end then "$" else "" }

  method SendBatchTasks(peer: string, ts: seq<TaskMsg>, max: nat) returns (sent: string)
    requires max >= 1
    ensures sent == Stream(peer, ts, max)
  {
    hide MessageText, Package, TaskTexts, Cut, Frames, FramesLeft, PackageTexts;
    var numTaskLeft, numTaskBeenSent, numTaskSendPerPkg := |ts|, 0, max;
    var header := MessageText(Header(peer, |ts|));
    ghost var frames := [header];
    FirstFrame(peer, ts, max, header);
    if numTaskLeft == 0 {
      return SendMul(header, true);
    }
    var end := false;
    sent := SendMul(header, end);
    while numTaskLeft > 0
      invariant 0 <= numTaskBeenSent && 0 <= numTaskLeft && numTaskBeenSent + numTaskLeft == |ts|
      invariant end <==> numTaskLeft == 0
      invariant !end ==> numTaskSendPerPkg == max
      invariant sent == Joined(frames, '#') + if end then "$" else ""
      invariant FramesLeft(peer, ts, max, numTaskBeenSent, frames)
    {
      if numTaskLeft <= max {
        numTaskSendPerPkg := numTaskLeft;
        end := true;
      }
      var pkg := CollectTasks(peer, ts, numTaskBeenSent, numTaskSendPerPkg);
      var text := MessageText(pkg);
      OneMoreFrame(peer, ts, numTaskBeenSent, max, frames, text);
      frames := frames + [text];
      sent := sent + SendMul(text, end);
      numTaskLeft := numTaskLeft - numTaskSendPerPkg;
      numTaskBeenSent := numTaskBeenSent + numTaskSendPerPkg;
    }
    LastFrame(peer, ts, max, frames);
  }

  method CollectTasks(peer: string, ts: seq<TaskMsg>, from: nat, count: nat) returns (mm: MatrixMsg)
    requires from + count <= |ts|
    ensures mm == Package(peer, ts[from..from + count])
  {
    var tasks: seq<string> := [];
    for i := 0 to count
      invariant tasks == TaskTexts(ts[from..from + i])
    {
      tasks := tasks + [TaskText(ts[i + from])];
    }
    mm := MatrixMsg(peer + " send tasks", None, Some(count), tasks);
  }

  /** The frames sent and the packages of the tasks from `from` on are all frames. */
  ghost predicate FramesLeft(peer: string, ts: seq<TaskMsg>, max: nat, from: nat, frames: seq<string>)
    requires max >= 1 && from <= |ts|
  {
    frames + PackageTexts(peer, Cut(ts[from..], max)) == Frames(peer, ts, max)
  }

  lemma FirstFrame(peer: string, ts: seq<TaskMsg>, max: nat, header: string)
    requires max >= 1 && header == MessageText(Header(peer, |ts|))
    ensures FramesLeft(peer, ts, max, 0, [header]) && Joined([header], '#') == header + "##"
    ensures ts == [] ==> Stream(peer, ts, max) == SendMul(header, true)
  {
    hide MessageText;
    assert ts[0..] == ts;
    assert [header][1..] == [];
    if ts == [] { LastFrame(peer, ts, max, [header]); }
  }

  lemma LastFrame(peer: string, ts: seq<TaskMsg>, max: nat, frames: seq<string>)
    requires max >= 1 && FramesLeft(peer, ts, max, |ts|, frames)
    ensures frames == Frames(peer, ts, max)
  {
    assert ts[|ts|..] == [];
    assert PackageTexts(peer, Cut(ts[|ts|..], max)) == [];
  }

  lemma OneMoreFrame(peer: string, ts: seq<TaskMsg>, from: nat, max: nat, frames: seq<string>, text: string)
    requires max >= 1 && from < |ts| && FramesLeft(peer, ts, max, from, frames)
    requires var k := if |ts| - from <= max then |ts| - from else max;
             text == MessageText(Package(peer, ts[from..from + k]))
    ensures var k := if |ts| - from <= max then |ts| - from else max;
            FramesLeft(peer, ts, max, from + k, frames + [text])
    ensures Joined(frames + [text], '#') == Joined(frames, '#') + text + "##"
  {
    hide MessageText, Package, PackageTexts, Frames, Cut;
    NextPackage(peer, ts, from, max);
    JoinedSnoc(frames, text, '#');
  }

  lemma NextPackage(peer: string, ts: seq<TaskMsg>, from: nat, max: nat)
    requires max >= 1 && from < |ts|
    ensures var k := if |ts| - from <= max then |ts| - from else max;
            PackageTexts(peer, Cut(ts[from..], max))
            == [MessageText(Package(peer, ts[from..from + k]))] + PackageTexts(peer, Cut(ts[from + k..], max))
  {
    hide MessageText, Package;
    var rest := ts[from..];
    if |rest| <= max {
      assert ts[from..from + |rest|] == rest;
    } else {
      assert ts[from..from + max] == rest[..max] && ts[from + max..] == rest[max..];
    }
  }

  // ---------- What is sent ----------

  /** The bytes start with the message type, by which the receiver knows them. */
  lemma StreamStart(peer: string, ts: seq<TaskMsg>, max: nat)
    requires max >= 1
    ensures peer + " send tasks" <= Stream(peer, ts, max)
  {
    hide MessageText, Joined, PackageTexts;
    MessageStart(Header(peer, |ts|));
    JoinedStart(Frames(peer, ts, max), '#');
  }

  lemma MessageStart(mm: MatrixMsg)
    ensures mm.msgType <= MessageText(mm)
  {
    hide Joined;
    JoinedStart(MessageFields(mm), '&');
  }

  /** The frames, decoded: the type, the number of all tasks, then max tasks a frame, in order. */
  lemma FrameContents(peer: string, ts: seq<TaskMsg>, max: nat, i: nat)
    requires max >= 1 && Plain(peer) && PlainTasks(ts) && |ts| <= INT32_MAX && i < |Frames(peer, ts, max)|
    ensures var lo := (i - 1) * max;
            var hi := if |ts| <= lo + max then |ts| else lo + max;
            && (i > 0 ==> 0 <= lo < hi <= |ts|)
            && DecodeMessage(Frames(peer, ts, max)[i])
               == Some(MatrixMsg(peer + " send tasks", None, Some(if i == 0 then |ts| else hi - lo),
                                 if i == 0 then [] else TaskTexts(ts[lo..hi])))
  {
    hide MessageText, DecodeMessage, SafeMessage, TaskTexts, PlainTasks, Plain;
    if i == 0 {
      HeaderSafe(peer, |ts|);
      MessageRoundTrip(Header(peer, |ts|));
    } else {
      CutAt(ts, max, i - 1);
      PackagesPlain(ts, max);
      PackageSafe(peer, Cut(ts, max)[i - 1]);
      MessageRoundTrip(Package(peer, Cut(ts, max)[i - 1]));
    }
  }

  /** The bytes end in a dollar sign, and before it the frames are what lies between number signs. */
  lemma StreamFrames(peer: string, ts: seq<TaskMsg>, max: nat)
    requires max >= 1 && Plain(peer) && PlainTasks(ts) && |ts| <= INT32_MAX
    ensures var s := Stream(peer, ts, max);
            s[|s| - 1] == '$' && Free(s[..|s| - 1], '$') && Tokens(s[..|s| - 1], '#') == Frames(peer, ts, max)
  {
    hide Tokens, Joined;
    var frames := Frames(peer, ts, max);
    PackagesPlain(ts, max);
    FramesClean(peer, ts, max, '#');
    FramesClean(peer, ts, max, '$');
    JoinedFree(frames, '#', '$');
    TokensJoined(frames, '#');
    assert (Joined(frames, '#') + "$")[..|Joined(frames, '#')|] == Joined(frames, '#');
  }

  // ---------- The receiver ----------

  /** recv_mul: chunks are appended until one ends in '$' or the peer closes. */
  function Received(buf: string, chunks: seq<string>): string
    decreases |chunks|
  {
    if chunks == [] then buf
    else if chunks[0] != "" && chunks[0][|chunks[0]| - 1] == '$' then buf + chunks[0]
    else Received(buf + chunks[0], chunks[1..])
  }

  method RecvMul(start: string, chunks: seq<string>) returns (buf: string)
    ensures buf == Received(start, chunks)
  {
    buf := start;
    var i := 0;
    while i < |chunks|
      invariant i <= |chunks| && Received(buf, chunks[i..]) == Received(start, chunks)
    {
      buf := buf + chunks[i];
      if chunks[i] != "" && chunks[i][|chunks[i]| - 1] == '$' {
        break;
      }
      i := i + 1;
    }
  }

  /** While no chunk ends in a dollar sign, reading goes on to the end of the connection. */
  lemma {:induction false} ReceivedOpen(buf: string, chunks: seq<string>)
    requires forall i :: 0 <= i < |chunks| && chunks[i] != "" ==> chunks[i][|chunks[i]| - 1] != '$'
    ensures Received(buf, chunks) == buf + Flat(chunks)
    decreases |chunks|
  {
    if chunks != [] {
      ReceivedOpen(buf + chunks[0], chunks[1..]);
      assert buf + chunks[0] + Flat(chunks[1..]) == buf + (chunks[0] + Flat(chunks[1..]));
    }
  }

  /** The tasks of one package; None where the original stops with an error. */
  function Unpack(mm: MatrixMsg, j: nat): Option<seq<TaskMsg>>
  {
    if j == 0 then Some([])
    else
      var ts := Unpack(mm, j - 1);
      if ts.None? || j > |mm.tasks| then None
      else
        var t := DecodeTask(mm.tasks[j - 1]);
        if t.None? then None else Some(ts.value + [t.value])
  }

  /** A package that announces more tasks than it holds is refused. */
  lemma UnpackShort(mm: MatrixMsg, j: nat)
    requires j > |mm.tasks|
    ensures Unpack(mm, j) == None
  {
  }

  /** What recv_task_from_client enqueues package by package, and the announced number of tasks. */
  datatype Batch = Batch(announced: int, packages: seq<seq<TaskMsg>>)

  function UnpackAll(frames: seq<string>): Option<seq<seq<TaskMsg>>> {
    if frames == [] then Some([])
    else
      var mm := DecodeMessage(frames[0]);
      if mm.None? then None
      else
        var n := if mm.value.count.Some? then mm.value.count.value else 0;
        var ts := Unpack(mm.value, if n < 0 then 0 else n);
        var rest := UnpackAll(frames[1..]);
        if ts.None? || rest.None? then None else Some([ts.value] + rest.value)
  }

  /** A lone header announces an empty batch. */
  function DecodeBatch(buf: string): Option<Batch> {
    if buf == "" then None
    else
      var frames := Tokens(buf[..|buf| - 1], '#');
      if |frames| == 1 then Some(Batch(0, []))
      else if frames == [] then None
      else
        var header := DecodeMessage(frames[0]);
        var packages := UnpackAll(frames[1..]);
        if header.None? || packages.None? then None
        else Some(Batch(if header.value.count.Some? then header.value.count.value else 0, packages.value))
  }

  // ---------- Round trip ----------

  /** Free of every delimiter of the three layers. */
  ghost predicate Plain(s: string) {
    s != "" && Free(s, '@') && Free(s, '!') && Free(s, '&') && Free(s, '#') && Free(s, '$')
  }

  ghost predicate PlainTask(t: TaskMsg) {
    Plain(t.taskId) && Plain(t.user) && Plain(t.dir) && Plain(t.cmd) && Fits64(t.dataLength)
  }

  ghost predicate PlainTasks(ts: seq<TaskMsg>) { forall i :: 0 <= i < |ts| ==> PlainTask(ts[i]) }

  ghost predicate Outer(c: char) { c == '!' || c == '&' || c == '#' || c == '$' }

  lemma TaskTextFree(t: TaskMsg, c: char)
    requires PlainTask(t) && Outer(c)
    ensures Clean(TaskText(t), c)
  {
    var fields := [t.taskId, t.user, t.dir, t.cmd, NumToStr(t.dataLength)];
    NumClean(t.dataLength, c);
    JoinedFree(fields, '@', c);
  }

  lemma PackageSafe(peer: string, ts: seq<TaskMsg>)
    requires PlainTasks(ts) && Plain(peer) && |ts| <= INT32_MAX
    ensures SafeMessage(Package(peer, ts))
            && forall i :: 0 <= i < |ts| ==> Free(TaskTexts(ts)[i], '#') && Free(TaskTexts(ts)[i], '$')
  {
    forall i | 0 <= i < |ts|
      ensures Clean(TaskTexts(ts)[i], '!') && Free(TaskTexts(ts)[i], '&') && Free(TaskTexts(ts)[i], '#')
              && Free(TaskTexts(ts)[i], '$')
    {
      TaskTextFree(ts[i], '!');
      TaskTextFree(ts[i], '&');
      TaskTextFree(ts[i], '#');
      TaskTextFree(ts[i], '$');
    }
  }

  /** Messages never contain the outermost delimiters. */
  lemma MessageFree(mm: MatrixMsg, c: char)
    requires (c == '#' || c == '$') && mm.extraInfo.None? && Free(mm.msgType, c)
             && forall i :: 0 <= i < |mm.tasks| ==> Free(mm.tasks[i], c)
    ensures Clean(MessageText(mm), c)
  {
    if mm.count.Some? { NumClean(ToInt32(mm.count.value), c); }
    JoinedFree(mm.tasks, '!', c);
    JoinedFree(MessageFields(mm), '&', c);
  }

  lemma PlainIsSafe(t: TaskMsg)
    requires PlainTask(t)
    ensures SafeTask(t) && Fits64(t.dataLength)
  {
  }

  lemma {:induction false} UnpackTo(mm: MatrixMsg, ts: seq<TaskMsg>, j: nat)
    requires mm.tasks == TaskTexts(ts) && PlainTasks(ts) && j <= |ts|
    ensures Unpack(mm, j) == Some(ts[..j])
  {
    hide PlainTask, TaskText, DecodeTask, SafeTask;
    if j > 0 {
      PlainIsSafe(ts[j - 1]);
      UnpackTo(mm, ts, j - 1);
      TaskRoundTrip(ts[j - 1]);
      assert ts[..j] == ts[..j - 1] + [ts[j - 1]];
    }
  }

  ghost predicate PlainPackages(ps: seq<seq<TaskMsg>>) {
    forall i :: 0 <= i < |ps| ==> PlainTasks(ps[i]) && |ps[i]| <= INT32_MAX
  }

  lemma {:induction false} UnpackAllOf(peer: string, ps: seq<seq<TaskMsg>>)
    requires Plain(peer) && PlainPackages(ps)
    ensures UnpackAll(PackageTexts(peer, ps)) == Some(ps)
  {
    hide PlainTasks, Plain, MessageText, DecodeMessage, SafeMessage, TaskTexts, Unpack;
    if ps != [] {
      var mm := Package(peer, ps[0]);
      PackageSafe(peer, ps[0]);
      MessageRoundTrip(mm);
      UnpackTo(mm, ps[0], |ps[0]|);
      assert ps[0][..|ps[0]|] == ps[0];
      UnpackAllOf(peer, ps[1..]);
      var frames := PackageTexts(peer, ps);
      assert frames[0] == MessageText(mm) && frames[1..] == PackageTexts(peer, ps[1..]);
      assert [ps[0]] + ps[1..] == ps;
    }
  }

  lemma LastDollar(body: string, k: nat)
    requires Free(body, '$') && k <= |body| && (body + "$")[k] == '$'
    ensures k == |body|
  {
  }

  /** However the stream is cut into non-empty chunks, all of it is received. */
  lemma {:induction false} ReceivedAll(buf: string, chunks: seq<string>, body: string)
    requires Free(body, '$') && buf + Flat(chunks) == body + "$" && forall i :: 0 <= i < |chunks| ==> chunks[i] != ""
    ensures Received(buf, chunks) == body + "$"
    decreases |chunks|
  {
    if chunks != [] {
      var all := buf + chunks[0];
      assert all + Flat(chunks[1..]) == body + "$";
      if chunks[0][|chunks[0]| - 1] == '$' {
        assert all[|all| - 1] == '$';
        LastDollar(body, |all| - 1);
      } else {
        ReceivedAll(all, chunks[1..], body);
      }
    }
  }

  lemma FramesClean(peer: string, ts: seq<TaskMsg>, max: nat, c: char)
    requires max >= 1 && (c == '#' || c == '$') && Plain(peer) && PlainPackages(Cut(ts, max)) && |ts| <= INT32_MAX
    ensures AllClean(Frames(peer, ts, max), c)
  {
    MessageFree(Header(peer, |ts|), c);
    var ps := Cut(ts, max);
    forall i | 0 <= i < |ps|
      ensures Clean(PackageTexts(peer, ps)[i], c)
    {
      PackageSafe(peer, ps[i]);
      MessageFree(Package(peer, ps[i]), c);
    }
  }

  lemma PackagesPlain(ts: seq<TaskMsg>, max: nat)
    requires max >= 1 && PlainTasks(ts) && |ts| <= INT32_MAX
    ensures PlainPackages(Cut(ts, max))
    decreases |ts|
  {
    if |ts| > max { PackagesPlain(ts[max..], max); }
  }

  /**
    For any cut of the sender's bytes, the first part already read, the receiver recovers the
    packages exactly, and the header announces their total.
  */
  lemma BatchRoundTrip(peer: string, ts: seq<TaskMsg>, max: nat, first: string, chunks: seq<string>)
    requires max >= 1 && Plain(peer) && PlainTasks(ts) && |ts| <= INT32_MAX
    requires first + Flat(chunks) == Stream(peer, ts, max) && forall i :: 0 <= i < |chunks| ==> chunks[i] != ""
    ensures DecodeBatch(Received(first, chunks)) == Some(Batch(|ts|, Cut(ts, max)))
    ensures Flat(Cut(ts, max)) == ts
  {
    var frames := Frames(peer, ts, max);
    var body := Joined(frames, '#');
    PackagesPlain(ts, max);
    CutShape(ts, max);
    FramesClean(peer, ts, max, '#');
    FramesClean(peer, ts, max, '$');
    JoinedFree(frames, '#', '$');
    ReceivedAll(first, chunks, body);
    assert (body + "$")[..|body|] == body;
    TokensJoined(frames, '#');
    DecodedFrames(peer, ts, max);
  }

  lemma HeaderSafe(peer: string, n: nat)
    requires Plain(peer) && n <= INT32_MAX
    ensures SafeMessage(Header(peer, n))
  {
  }

  lemma DecodedFrames(peer: string, ts: seq<TaskMsg>, max: nat)
    requires max >= 1 && Plain(peer) && PlainPackages(Cut(ts, max)) && |ts| <= INT32_MAX
    ensures var frames := Frames(peer, ts, max);
            && (|frames| == 1 <==> ts == [])
            && DecodeMessage(frames[0]) == Some(Header(peer, |ts|))
            && UnpackAll(frames[1..]) == Some(Cut(ts, max))
  {
    hide MessageText, DecodeMessage, SafeMessage, UnpackAll, PlainTasks;
    assert SafeMessage(Header(peer, |ts|)) by { HeaderSafe(peer, |ts|); }
    MessageRoundTrip(Header(peer, |ts|));
    UnpackAllOf(peer, Cut(ts, max));
    assert Frames(peer, ts, max)[1..] == PackageTexts(peer, Cut(ts, max));
  }

  // ---------- Single large messages ----------

  /** The writes of send_big. */
  method SendBig(buf: string, bufSize: nat) returns (sent: seq<string>)
    requires bufSize >= 1
    ensures Flat(sent) == buf + "$" && forall i :: 0 <= i < |sent| ==> 1 <= |sent[i]| <= bufSize
  {
    var length, numSent := |buf|, 0;
    sent := [];
    while length >= bufSize
      invariant numSent + length == |buf| && 0 <= length
      invariant Flat(sent) == buf[..numSent] && forall i :: 0 <= i < |sent| ==> 1 <= |sent[i]| <= bufSize
    {
      var str := buf[numSent..numSent + bufSize];
      FlatSnoc(sent, str);
      assert buf[..numSent] + str == buf[..numSent + bufSize];
      sent := sent + [str];
      numSent := numSent + bufSize;
      length := length - bufSize;
    }
    var last := if length > 0 then buf[numSent..numSent + length] + "$" else "$";
    FlatSnoc(sent, last);
    assert buf[..numSent] + last == buf + "$";
    sent := sent + [last];
  }

  /** recv_big drops the final character. */
  function RecvBig(chunks: seq<string>): string {
    var buf := Received("", chunks);
    if buf == "" then "" else buf[..|buf| - 1]
  }

  ghost predicate CutOf(chunks: seq<string>, stream: string) {
    Flat(chunks) == stream && forall i :: 0 <= i < |chunks| ==> chunks[i] != ""
  }

  /** A large message survives every cut of its bytes exactly when it has no dollar sign. */
  lemma BigRoundTrip(buf: string)
    ensures (forall chunks :: CutOf(chunks, buf + "$") ==> RecvBig(chunks) == buf) <==> Free(buf, '$')
  {
    if Free(buf, '$') {
      forall chunks | CutOf(chunks, buf + "$")
        ensures RecvBig(chunks) == buf
      {
        assert "" + Flat(chunks) == buf + "$";
        ReceivedAll("", chunks, buf);
      }
    } else {
      var k :| 0 <= k < |buf| && buf[k] == '$';
      var chunks := [buf[..k + 1], buf[k + 1..] + "$"];
      assert chunks[1..] == [chunks[1]] && [chunks[1]][1..] == [];
      assert Flat(chunks) == chunks[0] + (chunks[1] + Flat([]));
      assert chunks[0] + (chunks[1] + "") == buf + "$";
      assert CutOf(chunks, buf + "$");
      assert Received("", chunks) == "" + chunks[0];
      assert RecvBig(chunks) == buf[..k];
    }
  }
}
