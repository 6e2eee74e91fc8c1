/** The sections of scheduler code behind the protocol's steps, with their loops. */
module Scheduler {
  import opened MatrixModel
  import opened MatrixInvariant
  import opened MatrixBasics
  import opened MatrixExec
  import opened Chunks

  /** std::priority_queue under HighPriorityByDataSize: the top has the smallest size. */
  class TaskQueue {
    var items: seq<Item>

    constructor ()
      ensures items == []
    {
      items := [];
    }

    method Push(x: Item)
      modifies this
      ensures items == old(items) + [x]
    {
      items := items + [x];
    }

    method Pop() returns (x: Item)
      requires items != []
      modifies this
      ensures PoppedTops(old(items), [x], items) && |items| == |old(items)| - 1
    {
      hide PoppedTops;
      ghost var k := Smallest(items);
      assert IsSmallest(items, k);
      var i :| 0 <= i < |items| && IsSmallest(items, i);
      RemoveTop(items, i);
      x := items[i];
      items := items[..i] + items[i + 1..];
    }
  }

  class MatrixScheduler {
    const id: Sched
    const localQueue: TaskQueue
    const wsQueue: TaskQueue
    var waitQueue: seq<Item>
    var completeQueue: seq<Item>
    var localData: map<Name, Piece>
    var numTaskFin: int
    var prevNumTaskFin: int

    constructor (id: Sched)
      ensures this.id == id && localQueue != wsQueue && localQueue.items == [] && wsQueue.items == []
      ensures waitQueue == [] && completeQueue == [] && localData == map[] && numTaskFin == 0 && prevNumTaskFin == 0
    {
      this.id := id;
      localQueue := new TaskQueue();
      wsQueue := new TaskQueue();
      waitQueue, completeQueue, localData, numTaskFin, prevNumTaskFin := [], [], map[], 0, 0;
    }

    /** A steal takes half of the queue, rounded down, and leaves no task smaller than one it takes. */
    method SendTask() returns (taskVec: seq<Item>)
      modifies wsQueue
      ensures PoppedTops(old(wsQueue.items), taskVec, wsQueue.items)
      ensures |taskVec| == |old(wsQueue.items)| / 2
    {
      var numTaskToSend := |wsQueue.items| / 2;
      taskVec := [];
      for i := 0 to numTaskToSend
        invariant |taskVec| == i && |wsQueue.items| == |old(wsQueue.items)| - i
        invariant PoppedTops(old(wsQueue.items), taskVec, wsQueue.items)
      {
        ghost var rest := wsQueue.items;
        var x := wsQueue.Pop();
        PopMore(old(wsQueue.items), taskVec, rest, x, wsQueue.items);
        taskVec := taskVec + [x];
      }
    }

    method RecvTaskFromScheduler(tmVec: seq<Item>)
      modifies wsQueue
      ensures wsQueue.items == old(wsQueue.items) + tmVec
    {
      for j := 0 to |tmVec|
        invariant wsQueue.items == old(wsQueue.items) + tmVec[..j]
      {
        wsQueue.Push(tmVec[j]);
      }
      assert tmVec[..|tmVec|] == tmVec;
    }

    /** The maxSize smallest tasks stay local, the others migrate to the stealing queue. */
    method LocalQueueMonitor(maxSize: nat)
      requires localQueue != wsQueue
      modifies localQueue, wsQueue
      ensures maxSize == 0 || |old(localQueue.items)| <= maxSize ==>
                localQueue.items == old(localQueue.items) && wsQueue.items == old(wsQueue.items)
      ensures 0 < maxSize < |old(localQueue.items)| ==>
                && |localQueue.items| == maxSize
                && exists migrated :: PoppedTops(old(localQueue.items), localQueue.items, migrated)
                                      && wsQueue.items == old(wsQueue.items) + migrated
    {
      if maxSize == 0 {
        return;
      }
      if |localQueue.items| > maxSize {
        ghost var start := localQueue.items;
        var numTaskToMove := |localQueue.items| - maxSize;
        var vecRemain := PopMany(localQueue, maxSize);
        ghost var rest := localQueue.items;
        var vecMigrated := PopMany(localQueue, numTaskToMove);
        AllPopped(start, vecRemain, rest, vecMigrated, localQueue.items);
        for i := 0 to maxSize
          invariant localQueue.items == vecRemain[..i] && wsQueue.items == old(wsQueue.items)
        {
          localQueue.Push(vecRemain[i]);
        }
        assert vecRemain[..maxSize] == vecRemain;
        RecvTaskFromScheduler(vecMigrated);
      }
    }

    /** An executing thread prefers its local queue. */
    method PopReady() returns (r: Option<Item>)
      requires localQueue != wsQueue
      modifies localQueue, wsQueue
      ensures r.None? ==> old(localQueue.items) == [] && old(wsQueue.items) == []
      ensures r.None? ==> localQueue.items == [] && wsQueue.items == []
      ensures r.Some? && old(localQueue.items) != [] ==>
                PoppedTops(old(localQueue.items), [r.value], localQueue.items) && wsQueue.items == old(wsQueue.items)
      ensures r.Some? && old(localQueue.items) == [] ==>
                PoppedTops(old(wsQueue.items), [r.value], wsQueue.items) && localQueue.items == []
    {
      if |localQueue.items| > 0 {
        var x := localQueue.Pop();
        r := Some(x);
      } else if |wsQueue.items| > 0 {
        var x := wsQueue.Pop();
        r := Some(x);
      } else {
        r := None;
      }
    }

    /** The routing of a ready task is the one the protocol uses. */
    method TaskReadyProcess(c: Config, v: Value) returns (pc: CrtPc)
      requires |v.sizes| == |v.parents| == |v.names|
      ensures pc == Decide(c, id, v, localData)
    {
      if v.allSize <= c.threshold {
        return CrtDecided(ToWs, v.allSize);
      }
      var maxDataSize, found := NO_SIZE, None;
      for i := 0 to |v.sizes|
        invariant found == FirstMax(v.sizes[..i])
        invariant maxDataSize == if found.None? then NO_SIZE else v.sizes[found.value]
      {
        assert v.sizes[..i + 1][..i] == v.sizes[..i];
        if v.sizes[i] > maxDataSize {
          maxDataSize, found := v.sizes[i], Some(i);
        }
      }
      assert v.sizes[..|v.sizes|] == v.sizes;
      if found.None? {
        return CrtDecided(Lost, maxDataSize);
      }
      var maxDataScheduler, key := v.parents[found.value], v.names[found.value];
      if maxDataScheduler == id || key in localData {
        pc := CrtDecided(ToLocal, maxDataSize);
      } else {
        pc := CrtDecided(ToPeer(maxDataScheduler), maxDataSize);
      }
    }

    /** The loop body of the collection: a piece without data is skipped, one in localData used, any other fetched. */
    method GatherOne(v: Value, i: nat, data: seq<Piece>, remote: (Sched, Name) -> Piece) returns (data': seq<Piece>)
      requires i < |v.sizes| == |v.parents| == |v.names| && (v.parents[i] == id ==> v.names[i] in localData)
      modifies this`localData
      ensures v.sizes[i] <= 0 ==> data' == data && localData == old(localData)
      ensures v.sizes[i] > 0 && v.names[i] in old(localData) ==>
                data' == data + [old(localData)[v.names[i]]] && localData == old(localData)
      ensures v.sizes[i] > 0 && v.names[i] !in old(localData) ==>
                var piece := remote(v.parents[i], v.names[i]);
                data' == data + [piece] && localData == old(localData)[v.names[i] := piece]
    {
      data' := data;
      if v.sizes[i] > 0 {
        if v.parents[i] == id || v.names[i] in localData {
          data' := data + [localData[v.names[i]]];
        } else {
          var dataPiece := remote(v.parents[i], v.names[i]);
          data' := data + [dataPiece];
          localData := InsertNew(localData, v.names[i], dataPiece);
        }
      }
    }

    /**
      Collecting the inputs of a task.  When the caches tell the truth and every recorded holder
      answers, the data are the outputs of the notifying parents, in order, and the cache stays true.
    */
    method GatherData(c: Config, t: Task, v: Value, remote: (Sched, Name) -> Piece,
                      ghost es: seq<Edge>, ghost ranAt: Sites, ghost result: map<Task, Piece>)
                          returns (data: seq<Piece>)
      requires v == Replay(c, t, es, ranAt) && DataOk(localData, ranAt, result)
      requires forall i :: 0 <= i < |es| ==> es[i].p in ranAt && es[i].p in result
      requires forall i :: 0 <= i < |es| && SchedAt(ranAt, es[i].p) == id ==> Name(id, es[i].p) in localData
      requires forall i :: 0 <= i < |es| ==>
                 remote(SchedAt(ranAt, es[i].p), Name(SchedAt(ranAt, es[i].p), es[i].p)) == PieceAt(result, es[i].p)
      modifies this`localData
      ensures InputOk(c, es, result, |es|, data)
      ensures DataOk(localData, ranAt, result) && old(localData).Keys <= localData.Keys
      ensures forall i :: 0 <= i < |v.names| && v.sizes[i] > 0 ==> v.names[i] in localData
    {
      hide InputOk, DataOk;
      data := [];
      NoInputs(c, es, result);
      for i := 0 to |v.parents|
        invariant InputOk(c, es, result, i, data)
        invariant DataOk(localData, ranAt, result) && old(localData).Keys <= localData.Keys
        invariant forall j :: 0 <= j < i && v.sizes[j] > 0 ==> v.names[j] in localData
      {
        assert v.parents[i] == SchedAt(ranAt, es[i].p) && v.names[i] == Name(v.parents[i], es[i].p);
        NextInput(c, es, ranAt, result, i, data, localData);
        data := GatherOne(v, i, data, remote);
      }
    }

    /** One attempt of the report: the compare_swap, and what to try next if it fails. */
    method TryReport(ctr: Counter, numAllTask: int, seen: int) returns (ok: bool, left: bool, seen': int)
      modifies ctr
      ensures ok <==> old(ctr.value) == seen
      ensures ctr.value == if ok then seen + (numTaskFin - prevNumTaskFin) else old(ctr.value)
      ensures left <==> ok || ctr.value == numAllTask
      ensures seen' == if ok then seen else ctr.value
    {
      ok := ctr.CompareSwap(seen, seen + (numTaskFin - prevNumTaskFin));
      left, seen' := true, seen;
      if !ok {
        seen' := ctr.value;
        left := seen' == numAllTask;
      }
    }

    /** Adding this scheduler's new finishes to "num tasks done" against interfering schedulers. */
    method ReportDone(ctr: Counter, numAllTask: int, rounds: seq<int>) returns (tries: nat, broke: bool)
      requires forall i :: 0 <= i < |rounds| ==> rounds[i] >= 0
      modifies ctr, this`prevNumTaskFin
      ensures tries <= |rounds| && prevNumTaskFin == numTaskFin
      ensures !broke ==> ctr.value == old(ctr.value) + Sum(rounds[..tries]) + (numTaskFin - old(prevNumTaskFin))
      ensures broke ==> ctr.value == numAllTask && ctr.value == old(ctr.value) + Sum(rounds[..tries])
      ensures forall i :: 0 <= i < tries ==> rounds[i] != 0
    {
      tries, broke := 0, false;
      var seen := ctr.value;
      while true
        invariant tries <= |rounds| && seen == ctr.value == old(ctr.value) + Sum(rounds[..tries])
        invariant prevNumTaskFin == old(prevNumTaskFin)
        invariant forall i :: 0 <= i < tries ==> rounds[i] != 0
        decreases |rounds| - tries
      {
        if tries < |rounds| {
          ctr.value := ctr.value + rounds[tries];
          assert rounds[..tries + 1][..tries] == rounds[..tries];
        }
        var ok, left;
        ok, left, seen := TryReport(ctr, numAllTask, seen);
        if ok {
          break;
        }
        tries := tries + 1;
        if left {
          broke := true;
          break;
        }
      }
      prevNumTaskFin := numTaskFin;
    }
  }

  lemma NoInputs(c: Config, es: seq<Edge>, result: map<Task, Piece>)
    ensures InputOk(c, es, result, 0, [])
  {
  }

  /** The i-th input and what caching it does. */
  lemma NextInput(c: Config, es: seq<Edge>, ranAt: Sites, result: map<Task, Piece>, i: nat, data: seq<Piece>,
                  m: map<Name, Piece>)
    requires InputOk(c, es, result, i, data) && i < |es| && DataOk(m, ranAt, result) && es[i].p in ranAt
    ensures var nm := Name(SchedAt(ranAt, es[i].p), es[i].p);
            && (SizeList(c, es)[i] <= 0 ==> InputOk(c, es, result, i + 1, data))
            && (SizeList(c, es)[i] > 0 ==> InputOk(c, es, result, i + 1, data + [PieceAt(result, es[i].p)]))
            && (nm in m ==> m[nm] == PieceAt(result, es[i].p))
            && DataOk(InsertNew(m, nm, PieceAt(result, es[i].p)), ranAt, result)
            && m.Keys <= InsertNew(m, nm, PieceAt(result, es[i].p)).Keys
  {
  }

  class Counter {
    var value: int

    method CompareSwap(seen: int, newval: int) returns (ok: bool)
      modifies this
      ensures ok <==> old(value) == seen
      ensures value == if ok then newval else old(value)
    {
      ok := value == seen;
      if ok {
        value := newval;
      }
    }
  }

  method PopMany(q: TaskQueue, count: nat) returns (taken: seq<Item>)
    requires count <= |q.items|
    modifies q
    ensures PoppedTops(old(q.items), taken, q.items)
    ensures |taken| == count && |q.items| == |old(q.items)| - count
  {
    taken := [];
    for i := 0 to count
      invariant |taken| == i && |q.items| == |old(q.items)| - i
      invariant PoppedTops(old(q.items), taken, q.items)
    {
      ghost var rest := q.items;
      var x := q.Pop();
      PopMore(old(q.items), taken, rest, x, q.items);
      taken := taken + [x];
    }
  }

  lemma AllPopped(a: seq<Item>, taken: seq<Item>, rest: seq<Item>, migrated: seq<Item>, none: seq<Item>)
    requires PoppedTops(a, taken, rest) && PoppedTops(rest, migrated, none) && none == []
    ensures PoppedTops(a, taken, migrated)
  {
    assert multiset(rest) == multiset(migrated);
    forall j | 0 <= j < |migrated|
      ensures migrated[j] in rest
    {
      assert migrated[j] in multiset(migrated);
      assert migrated[j] in multiset(rest);
    }
  }

  // ---------- The compare_swap loop of notify_children ----------

  /** What one finished parent adds to a child's record. */
  datatype Note = Note(s: Sched, name: Name, size: int)

  function Noted(v: Value, n: Note): Value { NotifyChild(v, n.s, n.name, n.size) }

  function AllNoted(v: Value, ns: seq<Note>): Value {
    if ns == [] then v else Noted(AllNoted(v, ns[..|ns| - 1]), ns[|ns| - 1])
  }

  lemma {:induction false} AllNotedShape(v: Value, ns: seq<Note>)
    ensures |AllNoted(v, ns).parents| == |v.parents| + |ns| && AllNoted(v, ns).indegree == v.indegree - |ns|
  {
    if ns != [] { AllNotedShape(v, ns[..|ns| - 1]); }
  }

  lemma {:induction false} AllNotedConcat(v: Value, a: seq<Note>, b: seq<Note>)
    ensures AllNoted(v, a + b) == AllNoted(AllNoted(v, a), b)
  {
    if b == [] {
      assert a + b == a;
    } else {
      AllNotedConcat(v, a, b[..|b| - 1]);
      assert (a + b)[..|a + b| - 1] == a + b[..|b| - 1];
    }
  }

  lemma NothingMore(v: Value)
    ensures AllNoted(v, []) == v
  {
  }

  lemma NothingNoted(v: Value, rounds: seq<seq<Note>>)
    ensures AllNoted(v, Flat(rounds[..0])) == v
  {
    assert rounds[..0] == [];
  }

  lemma NotedIndegree(v: Value, note: Note)
    ensures Noted(v, note).indegree == v.indegree - 1
  {
  }

  /** The i-th round of notes on top of the earlier ones. */
  lemma NotedRound(v: Value, rounds: seq<seq<Note>>, i: nat)
    requires i < |rounds|
    ensures AllNoted(v, Flat(rounds[..i + 1])) == AllNoted(AllNoted(v, Flat(rounds[..i])), rounds[i])
  {
    hide AllNoted, Flat;
    AllNotedConcat(v, Flat(rounds[..i]), rounds[i]);
    FlatSnoc(rounds[..i], rounds[i]);
    assert rounds[..i + 1] == rounds[..i] + [rounds[i]];
  }

  class Record {
    var value: Value

    method CompareSwap(seen: Value, newval: Value) returns (ok: bool, query: Value)
      modifies this
      ensures ok <==> old(value) == seen
      ensures value == (if ok then newval else old(value)) && query == value
    {
      ok := value == seen;
      if ok {
        value := newval;
      }
      query := value;
    }
  }

  /**
    Before the i-th attempt other parents apply the notes rounds[i].  The loop retries exactly as long
    as they do, and applies its own note once, on top of all of theirs.
  */
  method NotifyOne(rec: Record, note: Note, rounds: seq<seq<Note>>) returns (fails: nat)
    modifies rec
    ensures fails <= |rounds| && (forall i :: 0 <= i < fails ==> rounds[i] != [])
            && (fails < |rounds| ==> rounds[fails] == [])
    ensures rec.value == Noted(AllNoted(old(rec.value), Flat(rounds[..fails])), note)
    ensures rec.value.indegree == old(rec.value).indegree - |Flat(rounds[..fails])| - 1
  {
    hide AllNoted, Flat, Noted;
    fails := 0;
    var seen := rec.value;
    ghost var v0 := rec.value;
    NothingNoted(v0, rounds);
    while true
      invariant fails <= |rounds| && forall i :: 0 <= i < fails ==> rounds[i] != []
      invariant seen == rec.value == AllNoted(v0, Flat(rounds[..fails]))
      decreases |rounds| - fails
    {
      if fails < |rounds| {
        rec.value := AllNoted(rec.value, rounds[fails]);
        NotedRound(v0, rounds, fails);
        AllNotedShape(seen, rounds[fails]);
        if rounds[fails] == [] { NothingMore(seen); }
      }
      var attempt := Noted(seen, note);
      var ok, query := rec.CompareSwap(seen, attempt);
      if ok {
        AllNotedShape(v0, Flat(rounds[..fails]));
        NotedIndegree(seen, note);
        break;
      }
      seen := query;
      fails := fails + 1;
    }
  }
}
