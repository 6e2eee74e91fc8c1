/** The requests a scheduler receives, and how proc_req tells them apart. */
module Requests {
  import opened Text
  import opened Codec
  import opened Chunks
  import opened Batch

  // ---------- The server ----------

  datatype Request =
    | ClientTasks(buf: string)   // recv_task_from_client reads on from here
    | QueryLoad
    | StealTask
    | PushTask(task: TaskMsg)
    | RequireData(name: string)
    | Unknown
    | Malformed                  // the original stops with an error

  function ProcReq(buf: string): Request {
    if "client send tasks" <= buf then ClientTasks(buf)
    else
      match DecodeMessage(buf)
      case None => Malformed
      case Some(mm) =>
        if mm.msgType == "query load" then QueryLoad
        else if mm.msgType == "steal task" then StealTask
        else if mm.msgType == "scheduler push task" then Pushed(mm)
        else if mm.msgType == "scheduler require data" then
          RequireData(if mm.extraInfo.Some? then mm.extraInfo.value else "")
        else Unknown
  }

  /** recv_pushing_task */
  function Pushed(mm: MatrixMsg): Request {
    if mm.tasks == [] then Malformed
    else
      match DecodeTask(mm.tasks[0])
      case None => Malformed
      case Some(t) => PushTask(t)
  }

  // ---------- The requests ----------

  /** find_most_loaded_neigh */
  const LOAD_QUERY := MatrixMsg("query load", None, None, [])

  /** steal_task */
  const STEAL_REQUEST := MatrixMsg("steal task", None, None, [])

  /** task_ready_process */
  function PushMessage(t: TaskMsg): MatrixMsg { MatrixMsg("scheduler push task", None, Some(1), [TaskText(t)]) }

  /** exec_a_task */
  function DataRequest(name: string): MatrixMsg { MatrixMsg("scheduler require data", Some(name), None, []) }

  // ---------- Each request reaches its handler ----------

  /** Only a message of type "client ..." can be taken for a client's batch. */
  lemma NotClient(mm: MatrixMsg)
    requires mm.msgType != "" && mm.msgType[0] != 'c'
    ensures !("client send tasks" <= MessageText(mm))
  {
    MessageStart(mm);
  }

  lemma PlainTypes()
    ensures Clean("query load", '&') && Clean("steal task", '&') && Clean("scheduler push task", '&')
            && Clean("scheduler require data", '&')
  {
  }

  lemma Recognized(mm: MatrixMsg)
    requires SafeMessage(mm) && mm.msgType[0] != 'c'
    ensures DecodeMessage(MessageText(mm)) == Some(mm) && !("client send tasks" <= MessageText(mm))
  {
    MessageRoundTrip(mm);
    NotClient(mm);
  }

  /** Queries, steals, pushes and data requests arrive as what they are, with the task or name they carry. */
  lemma RequestArrives(t: TaskMsg, name: string)
    requires PlainTask(t) && Clean(name, '&') && name != "noextrainfo"
    ensures ProcReq(MessageText(LOAD_QUERY)) == QueryLoad
    ensures ProcReq(MessageText(STEAL_REQUEST)) == StealTask
    ensures ProcReq(MessageText(PushMessage(t))) == PushTask(t)
    ensures ProcReq(MessageText(DataRequest(name))) == RequireData(name)
  {
    hide MessageText, DecodeMessage, TaskText, DecodeTask;
    PlainTypes();
    Recognized(LOAD_QUERY);
    Recognized(STEAL_REQUEST);
    Recognized(DataRequest(name));
    TaskTextFree(t, '!');
    TaskTextFree(t, '&');
    Recognized(PushMessage(t));
    PlainIsSafe(t);
    TaskRoundTrip(t);
  }

  /** Whatever the first read yields, if it has the length of the message type, the batch is taken for a client's. */
  lemma ClientBatchArrives(ts: seq<TaskMsg>, max: nat, first: string)
    requires max >= 1 && first <= Stream("client", ts, max) && |first| >= |"client send tasks"|
    ensures ProcReq(first) == ClientTasks(first)
  {
    StreamStart("client", ts, max);
    assert "client" + " send tasks" == "client send tasks";
  }

  /** Stolen tasks are never taken for a client's batch. */
  lemma StolenTasksDiffer(ts: seq<TaskMsg>, max: nat)
    requires max >= 1
    ensures !("client send tasks" <= Stream("scheduler", ts, max))
  {
    StreamStart("scheduler", ts, max);
    assert Stream("scheduler", ts, max)[0] == 's';
  }
}
