/** The run driver and session store of manager.py. The remote assistant
    service is abstract: the thread it would create, the run states it reports
    (one per poll), the messages it lists and the outcome of an upload are
    arguments, and the requests sent to it are results. */
module Manager {
  import opened Wrappers
  import OpenApiHelper

  // ------------------------------------------------------------- run states

  datatype ToolCall = ToolCall(id: string, functionName: string, arguments: string)
  datatype RequiredAction = RequiredAction(actionType: string, toolCalls: seq<ToolCall>)

  /** A run as the service reports it. */
  datatype Run = Run(id: string, status: string, requiredAction: Option<RequiredAction>)

  /** One entry of a tool-output batch; `None` is the `None` that `call_function` returns when every candidate failed. */
  datatype ToolOutput = ToolOutput(toolCallId: string, output: Option<string>)

  /** One call of `submit_tool_outputs_to_assistant_thread_run`. */
  datatype Submission = Submission(threadId: string, runId: string, toolOutputs: seq<ToolOutput>)

  /** The tool invoker: a function name and its JSON argument text to what calling it returns or raises. */
  type Invoker = (string, string) -> Result<Option<string>>

  /** How the poll loop ends on a finite trace of run states. */
  datatype PollResult =
    | Completed(submissions: seq<Submission>)
    | StillPolling(submissions: seq<Submission>)  // no "completed" in the trace: the loop goes on polling
    | Raised(error: Error, submissions: seq<Submission>)

  /** The outputs for one batch of tool calls, in call order; the first call that raises ends it. */
  function ToolOutputs(calls: seq<ToolCall>, invoke: Invoker): Result<seq<ToolOutput>> {
    if calls == [] then Ok([])
    else
      match ToolOutputs(calls[..|calls| - 1], invoke)
      case Err(e) => Err(e)
      case Ok(outs) =>
        var call := calls[|calls| - 1];
        match invoke(call.functionName, call.arguments)
        case Err(e) => Err(e)
        case Ok(result) => Ok(outs + [ToolOutput(call.id, result)])
  }

  /** A batch has one output per tool call, in the same order, keyed by that call's id. */
  lemma {:induction false} ToolOutputsComplete(calls: seq<ToolCall>, invoke: Invoker)
    ensures ToolOutputs(calls, invoke).Ok? <==>
      forall i :: 0 <= i < |calls| ==> invoke(calls[i].functionName, calls[i].arguments).Ok?
    ensures ToolOutputs(calls, invoke).Ok? ==> (|ToolOutputs(calls, invoke).value| == |calls| &&
      forall i :: 0 <= i < |calls| ==> (ToolOutputs(calls, invoke).value[i] ==
        ToolOutput(calls[i].id, invoke(calls[i].functionName, calls[i].arguments).value)))
  {
    if calls != [] {
      var n := |calls| - 1;
      ToolOutputsComplete(calls[..n], invoke);
      assert forall i :: 0 <= i < n ==> calls[..n][i] == calls[i];
    }
  }

  /** A batch that raises raises what its first raising tool call raised. */
  lemma {:induction false} ToolOutputsFirstError(calls: seq<ToolCall>, invoke: Invoker) returns (i: nat)
    requires ToolOutputs(calls, invoke).Err?
    ensures i < |calls|
    ensures invoke(calls[i].functionName, calls[i].arguments) == Err(ToolOutputs(calls, invoke).error)
    ensures forall j :: 0 <= j < i ==> invoke(calls[j].functionName, calls[j].arguments).Ok?
  {
    var n := |calls| - 1;
    if ToolOutputs(calls[..n], invoke).Err? {
      i := ToolOutputsFirstError(calls[..n], invoke);
      assert calls[..n][i] == calls[i];
      assert forall j :: 0 <= j < i ==> calls[..n][j] == calls[j];
    } else {
      i := n;
      ToolOutputsComplete(calls[..n], invoke);
      assert forall j :: 0 <= j < n ==> calls[..n][j] == calls[j];
    }
  }

  lemma {:induction false} ToolOutputsErrPrefix(calls: seq<ToolCall>, k: nat, invoke: Invoker)
    requires k <= |calls| && ToolOutputs(calls[..k], invoke).Err?
    ensures ToolOutputs(calls, invoke) == ToolOutputs(calls[..k], invoke)
    decreases |calls|
  {
    if k < |calls| {
      assert calls[..|calls| - 1][..k] == calls[..k];
      ToolOutputsErrPrefix(calls[..|calls| - 1], k, invoke);
    } else {
      assert calls[..k] == calls;
    }
  }

  /** The observation answers a `submit_tool_outputs` action. */
  predicate Qualifies(run: Run) {
    run.status == "requires_action" && run.requiredAction.Some? &&
    run.requiredAction.value.actionType == "submit_tool_outputs"
  }

  /** What one observation of a run that is not "completed" sends: a batch,
      nothing, or an exception (`required_action` is read without a check). */
  function Step(threadId: string, run: Run, invoke: Invoker): (r: Result<Option<Submission>>)
    ensures r.Ok? && r.value.Some? <==> Qualifies(run) && ToolOutputs(run.requiredAction.value.toolCalls, invoke).Ok?
  {
    if run.status == "requires_action" then
      match run.requiredAction
      case None => Err(AttributeError("type"))
      case Some(action) =>
        if action.actionType == "submit_tool_outputs" then
          match ToolOutputs(action.toolCalls, invoke)
          case Err(e) => Err(e)
          case Ok(outs) => Ok(Some(Submission(threadId, run.id, outs)))
        else Ok(None)
    else Ok(None)
  }

  function PrependAll(ss: seq<Submission>, r: PollResult): PollResult {
    match r
    case Completed(s) => Completed(ss + s)
    case StillPolling(s) => StillPolling(ss + s)
    case Raised(e, s) => Raised(e, ss + s)
  }

  function Prepend(s: Option<Submission>, r: PollResult): PollResult {
    match s
    case None => r
    case Some(x) => PrependAll([x], r)
  }

  /** The poll loop of `run_thread` over `trace`: `trace[0]` is the run as
      created and each later element is what the next poll returns. The loop
      leaves only on "completed"; every other status is polled again. */
  function Poll(threadId: string, trace: seq<Run>, invoke: Invoker): PollResult
    decreases |trace|
  {
    if trace == [] then StillPolling([])
    else if trace[0].status == "completed" then Completed([])
    else
      match Step(threadId, trace[0], invoke)
      case Err(e) => Raised(e, [])
      case Ok(s) => Prepend(s, Poll(threadId, trace[1..], invoke))
  }

  /** The index of the first "completed" status, or `|trace|` when there is none. */
  function FirstCompleted(trace: seq<Run>): (c: nat)
    ensures c <= |trace|
    ensures c < |trace| ==> trace[c].status == "completed"
    ensures forall j :: 0 <= j < c ==> trace[j].status != "completed"
  {
    if trace == [] then 0
    else if trace[0].status == "completed" then 0
    else 1 + FirstCompleted(trace[1..])
  }

  function CountQualifying(trace: seq<Run>): nat {
    if trace == [] then 0
    else (if Qualifies(trace[0]) then 1 else 0) + CountQualifying(trace[1..])
  }

  /** The loop only ever ends normally on a "completed" status. */
  lemma {:induction false} PollCompletesOnlyOnCompleted(threadId: string, trace: seq<Run>, invoke: Invoker)
    ensures Poll(threadId, trace, invoke).Completed? ==> FirstCompleted(trace) < |trace|
    decreases |trace|
  {
    if trace != [] && trace[0].status != "completed" {
      PollCompletesOnlyOnCompleted(threadId, trace[1..], invoke);
    }
  }

  /** A run that never reaches "completed" or "requires_action" (say it stays
      "failed") is polled again and again, and nothing is submitted. */
  lemma {:induction false} TerminalFailureKeepsPolling(threadId: string, trace: seq<Run>, invoke: Invoker)
    requires forall k :: 0 <= k < |trace| ==> trace[k].status != "completed" && trace[k].status != "requires_action"
    ensures Poll(threadId, trace, invoke) == StillPolling([])
    decreases |trace|
  {
    if trace != [] {
      assert forall k :: 0 <= k < |trace| - 1 ==> trace[1..][k] == trace[k + 1];
      TerminalFailureKeepsPolling(threadId, trace[1..], invoke);
    }
  }

  /** When no observation before the first "completed" raises, the loop
      completes, having sent exactly one batch per qualifying
      `requires_action` observation before it. */
  lemma {:induction false} PollSubmissionCount(threadId: string, trace: seq<Run>, invoke: Invoker)
    requires FirstCompleted(trace) < |trace|
    requires forall j :: 0 <= j < FirstCompleted(trace) ==> Step(threadId, trace[j], invoke).Ok?
    ensures Poll(threadId, trace, invoke).Completed?
    ensures |Poll(threadId, trace, invoke).submissions| == CountQualifying(trace[..FirstCompleted(trace)])
    decreases |trace|
  {
    if trace[0].status != "completed" {
      var c := FirstCompleted(trace);
      assert forall j :: 0 <= j < c - 1 ==> trace[1..][j] == trace[j + 1];
      PollSubmissionCount(threadId, trace[1..], invoke);
      assert trace[..c][1..] == trace[1..][..c - 1];
    } else {
      assert trace[..0] == [];
    }
  }

  /** The batches the observations `obs` call for, in order: one per
      qualifying observation whose tool calls all succeed. */
  function Batches(threadId: string, obs: seq<Run>, invoke: Invoker): seq<Submission> {
    if obs == [] then []
    else
      var run := obs[0];
      (if Qualifies(run) && ToolOutputs(run.requiredAction.value.toolCalls, invoke).Ok?
       then [Submission(threadId, run.id, ToolOutputs(run.requiredAction.value.toolCalls, invoke).value)]
       else []) + Batches(threadId, obs[1..], invoke)
  }

  /** When no observation before the first "completed" raises, the loop
      completes having sent exactly the batches of those observations, in
      trace order. */
  lemma {:induction false} PollIsBatches(threadId: string, trace: seq<Run>, invoke: Invoker)
    requires FirstCompleted(trace) < |trace|
    requires forall j :: 0 <= j < FirstCompleted(trace) ==> Step(threadId, trace[j], invoke).Ok?
    ensures Poll(threadId, trace, invoke) == Completed(Batches(threadId, trace[..FirstCompleted(trace)], invoke))
    decreases |trace|
  {
    var c := FirstCompleted(trace);
    if trace[0].status != "completed" {
      assert forall j :: 0 <= j < c - 1 ==> trace[1..][j] == trace[j + 1];
      PollIsBatches(threadId, trace[1..], invoke);
      assert trace[..c][0] == trace[0] && trace[..c][1..] == trace[1..][..c - 1];
    } else {
      assert trace[..c] == [];
    }
  }

  /** Every submitted batch answers a qualifying observation of the trace:
      it carries that run's id and one output per tool call. */
  lemma {:induction false} PollSubmissionsAnswerRuns(threadId: string, trace: seq<Run>, invoke: Invoker, i: nat)
    returns (k: nat)
    requires i < |Poll(threadId, trace, invoke).submissions|
    ensures k < |trace| && Qualifies(trace[k])
    ensures ToolOutputs(trace[k].requiredAction.value.toolCalls, invoke).Ok?
    ensures Poll(threadId, trace, invoke).submissions[i] ==
      Submission(threadId, trace[k].id, ToolOutputs(trace[k].requiredAction.value.toolCalls, invoke).value)
    decreases |trace|
  {
    var s := Step(threadId, trace[0], invoke);
    if s.value.Some? && i == 0 {
      k := 0;
    } else {
      var i' := if s.value.Some? then i - 1 else i;
      var k' := PollSubmissionsAnswerRuns(threadId, trace[1..], invoke, i');
      assert trace[1..][k'] == trace[k' + 1];
      k := k' + 1;
    }
  }

  /** A batch of one tool call. */
  lemma SingleCallBatch(call: ToolCall, invoke: Invoker)
    ensures ToolOutputs([call], invoke) ==
      match invoke(call.functionName, call.arguments)
      case Err(e) => Err(e)
      case Ok(result) => Ok([ToolOutput(call.id, result)])
  {
    var calls := [call];
    assert calls[..|calls| - 1] == [];
    var empty: seq<ToolOutput> := [];
    assert ToolOutputs(calls[..|calls| - 1], invoke) == Ok(empty);
    match invoke(call.functionName, call.arguments)
    case Err(e) =>
    case Ok(result) =>
      assert empty + [ToolOutput(call.id, result)] == [ToolOutput(call.id, result)];
  }

  /** The scenario in_progress, requires_action, in_progress, completed:
      exactly one batch, for the one tool call, and the loop completes. */
  lemma OneToolRoundTrip(threadId: string, runId: string, call: ToolCall, invoke: Invoker, result: Option<string>)
    requires invoke(call.functionName, call.arguments) == Ok(result)
    ensures Poll(threadId, [Run(runId, "in_progress", None),
                            Run(runId, "requires_action", Some(RequiredAction("submit_tool_outputs", [call]))),
                            Run(runId, "in_progress", None),
                            Run(runId, "completed", None)], invoke)
      == Completed([Submission(threadId, runId, [ToolOutput(call.id, result)])])
  {
    var trace := [Run(runId, "in_progress", None),
                  Run(runId, "requires_action", Some(RequiredAction("submit_tool_outputs", [call]))),
                  Run(runId, "in_progress", None),
                  Run(runId, "completed", None)];
    SingleCallBatch(call, invoke);
    var batch := Submission(threadId, runId, [ToolOutput(call.id, result)]);
    assert Poll(threadId, trace[3..], invoke) == Completed([]);
    assert trace[2..][1..] == trace[3..];
    assert Poll(threadId, trace[2..], invoke) == Completed([]);
    assert trace[1..][1..] == trace[2..];
    assert Step(threadId, trace[1], invoke) == Ok(Some(batch));
    assert Poll(threadId, trace[1..], invoke) == Completed([batch]);
  }

  /** The inner loop of `run_thread`: one output per tool call, in call order,
      until a call raises. */
  method CollectToolOutputs(toolCalls: seq<ToolCall>, invoke: Invoker) returns (r: Result<seq<ToolOutput>>)
    ensures r == ToolOutputs(toolCalls, invoke)
  {
    var toolOutputList: seq<ToolOutput> := [];
    for c := 0 to |toolCalls|
      invariant ToolOutputs(toolCalls[..c], invoke) == Ok(toolOutputList)
    {
      var toolCall := toolCalls[c];
      var functionCallResult := invoke(toolCall.functionName, toolCall.arguments);
      assert toolCalls[..c + 1][..c] == toolCalls[..c];
      if functionCallResult.Err? {
        ToolOutputsErrPrefix(toolCalls, c + 1, invoke);
        return Err(functionCallResult.error);
      }
      toolOutputList := toolOutputList + [ToolOutput(toolCall.id, functionCallResult.value)];
    }
    assert toolCalls[..|toolCalls|] == toolCalls;
    r := Ok(toolOutputList);
  }

  /** One poll of a run that has not completed: its step, then the rest of the trace. */
  lemma PollUnfold(threadId: string, trace: seq<Run>, k: nat, invoke: Invoker)
    requires k < |trace| && trace[k].status != "completed"
    ensures Poll(threadId, trace[k..], invoke) ==
      match Step(threadId, trace[k], invoke)
      case Err(e) => Raised(e, [])
      case Ok(s) => Prepend(s, Poll(threadId, trace[k + 1..], invoke))
  {
    assert trace[k..][1..] == trace[k + 1..];
  }

  lemma PrependAllSnoc(ss: seq<Submission>, s: Submission, r: PollResult)
    ensures PrependAll(ss, Prepend(Some(s), r)) == PrependAll(ss + [s], r)
  {
    assert ss + ([s] + r.submissions) == (ss + [s]) + r.submissions;
  }

  /** The polling loop of `run_thread`, over the statuses the service reports. */
  method PollRun(threadId: string, trace: seq<Run>, invoke: Invoker) returns (result: PollResult)
    ensures result == Poll(threadId, trace, invoke)
  {
    var submissions: seq<Submission> := [];
    var k := 0;
    while k < |trace| && trace[k].status != "completed"
      invariant 0 <= k <= |trace|
      invariant Poll(threadId, trace, invoke) == PrependAll(submissions, Poll(threadId, trace[k..], invoke))
      decreases |trace| - k
    {
      var run := trace[k];
      PollUnfold(threadId, trace, k, invoke);
      if run.status == "requires_action" {
        if run.requiredAction.None? {
          return Raised(AttributeError("type"), submissions);
        }
        var action := run.requiredAction.value;
        if action.actionType == "submit_tool_outputs" {
          var toolOutputList := CollectToolOutputs(action.toolCalls, invoke);
          if toolOutputList.Err? {
            return Raised(toolOutputList.error, submissions);
          }
          var submission := Submission(threadId, run.id, toolOutputList.value);
          PrependAllSnoc(submissions, submission, Poll(threadId, trace[k + 1..], invoke));
          submissions := submissions + [submission];
        }
      }
      k := k + 1;
    }
    if k == |trace| {
      assert trace[k..] == [];
      return StillPolling(submissions);
    }
    result := Completed(submissions);
  }

  // --------------------------------------------------------- message output

  datatype Content = TextContent(value: string) | ImageFileContent(fileId: string)
  datatype ThreadMessage = ThreadMessage(role: string, content: seq<Content>)

  /** One `{message_value, message_role}` entry of `run_thread`'s result. */
  datatype MessageInfo = MessageInfo(messageValue: string, messageRole: string)

  /** `content[0].text.value` and `role` of every message, in the service's
      order; empty content raises `IndexError`, non-text content `AttributeError`. */
  function MessageInfos(raw: seq<ThreadMessage>): (r: Result<seq<MessageInfo>>)
    ensures r.Ok? <==> forall i :: 0 <= i < |raw| ==> raw[i].content != [] && raw[i].content[0].TextContent?
    ensures r.Ok? ==> (|r.value| == |raw| && forall i :: 0 <= i < |raw| ==>
      r.value[i] == MessageInfo(raw[i].content[0].value, raw[i].role))
  {
    if raw == [] then Ok([])
    else
      var m := raw[0];
      if m.content == [] then Err(IndexError)
      else if !m.content[0].TextContent? then Err(AttributeError("text"))
      else
        match MessageInfos(raw[1..])
        case Err(e) => Err(e)
        case Ok(rest) =>
          assert forall i :: 0 < i < |raw| ==> raw[i] == raw[1..][i - 1];
          Ok([MessageInfo(m.content[0].value, m.role)] + rest)
  }

  /** What `run_thread` gives its caller. */
  datatype RunThreadResult =
    | Replied(messages: seq<MessageInfo>)
    | Failed(error: Error)
    | NeverReturns  // the trace ended before "completed": the loop is still polling

  function ReplyOf(poll: PollResult, threadMessages: seq<ThreadMessage>): RunThreadResult {
    match poll
    case StillPolling(_) => NeverReturns
    case Raised(e, _) => Failed(e)
    case Completed(_) =>
      match MessageInfos(threadMessages)
      case Err(e) => Failed(e)
      case Ok(infos) => Replied(infos)
  }

  // ------------------------------------------------------------ session store

  /** session id -> assistant id -> thread id. */
  type SessionContainer = map<string, map<string, string>>

  function ThreadOf(c: SessionContainer, session: string, assistant: string): Option<string> {
    if session in c && assistant in c[session] then Some(c[session][assistant]) else None
  }

  /** The container after `run_thread` has made sure of a thread for the pair:
      the stored thread when there is one, `created` otherwise; every other pair
      keeps its entry. */
  function WithThread(c: SessionContainer, session: string, assistant: string, created: string): (r: SessionContainer)
    ensures ThreadOf(r, session, assistant) == Some(ThreadOf(c, session, assistant).GetOr(created))
    ensures forall s, a :: (s != session || a != assistant) ==> ThreadOf(r, s, a) == ThreadOf(c, s, a)
    ensures r.Keys == c.Keys + {session}
    ensures forall s :: s in c ==> c[s].Keys <= r[s].Keys
  {
    if session !in c then c[session := map[assistant := created]]
    else if assistant !in c[session] then c[session := c[session][assistant := created]]
    else c
  }

  /** A second call for the same pair creates nothing and changes nothing. */
  lemma WithThreadIdempotent(c: SessionContainer, session: string, assistant: string, t1: string, t2: string)
    ensures WithThread(WithThread(c, session, assistant, t1), session, assistant, t2) ==
      WithThread(c, session, assistant, t1)
  {
  }

  /** `uploaded_files.get(assistant_id, [])`. */
  function FilesFor(files: map<string, seq<string>>, assistant: string): seq<string> {
    if assistant in files then files[assistant] else []
  }

  /** `track_assistant_file_for_messages`: the id is appended, already present or not. */
  function Tracked(files: map<string, seq<string>>, assistant: string, fileId: string): (r: map<string, seq<string>>)
    ensures FilesFor(r, assistant) == FilesFor(files, assistant) + [fileId]
    ensures forall a :: a != assistant ==> FilesFor(r, a) == FilesFor(files, a)
    ensures r.Keys == files.Keys + {assistant}
  {
    files[assistant := FilesFor(files, assistant) + [fileId]]
  }

  /** Tracking the same id twice lists it twice: the store is a list, not a set. */
  lemma TrackingKeepsDuplicates(files: map<string, seq<string>>, assistant: string, fileId: string)
    ensures var twice := FilesFor(Tracked(Tracked(files, assistant, fileId), assistant, fileId), assistant);
      |twice| == |FilesFor(files, assistant)| + 2 &&
      multiset(twice)[fileId] == multiset(FilesFor(files, assistant))[fileId] + 2
  {
    var f := FilesFor(files, assistant);
    assert FilesFor(Tracked(Tracked(files, assistant, fileId), assistant, fileId), assistant) == f + [fileId] + [fileId];
  }

  // ------------------------------------------------------- the tool invoker

  /** What line 114 of manager.py does: `OpenAPIHelper.call_function` called on
      the class with three arguments binds the function name to `self`, so
      reading `self.function_dict` raises `AttributeError` for every call. */
  function StaticCallInvoker(): Invoker {
    (functionName: string, functionArgs: string) => Err(AttributeError("function_dict"))
  }

  /** With the call as written, the first tool call of the first qualifying
      observation aborts `run_thread`; no output is ever submitted. */
  lemma StaticCallAbortsRun(threadId: string, runId: string, calls: seq<ToolCall>, rest: seq<Run>)
    requires calls != []
    ensures Poll(threadId, [Run(runId, "requires_action", Some(RequiredAction("submit_tool_outputs", calls)))] + rest,
                 StaticCallInvoker()) == Raised(AttributeError("function_dict"), [])
  {
    ToolOutputsComplete(calls, StaticCallInvoker());
    assert !StaticCallInvoker()(calls[0].functionName, calls[0].arguments).Ok?;
    var i := ToolOutputsFirstError(calls, StaticCallInvoker());
  }

  /** The call on a helper instance: the argument text decoded by `decode`
      (`None` when it is not JSON), the candidates shuffled by `shuffle`, HTTP answered by `http`. */
  function HelperInvoker(h: OpenApiHelper.Helper, decode: string -> Option<map<string, string>>,
                         shuffle: seq<string> -> seq<string>, http: OpenApiHelper.Request -> OpenApiHelper.Response): Invoker
  {
    (functionName: string, functionArgs: string) => OpenApiHelper.CallOutcome(h, functionName, decode(functionArgs), shuffle, http)
  }

  /** With the instance call, a tool call for a registered function whose
      arguments decode and whose URLs can be planned is answered, with the
      body of the first candidate that answered 200 (or `None`). */
  lemma HelperInvokerAnswers(h: OpenApiHelper.Helper, decode: string -> Option<map<string, string>>,
                             shuffle: seq<string> -> seq<string>, http: OpenApiHelper.Request -> OpenApiHelper.Response,
                             call: ToolCall)
    requires call.functionName in h.functionDict && decode(call.arguments).Some?
    requires OpenApiHelper.CallUrls(h.serverList, h.functionDict[call.functionName], decode(call.arguments).value).Ok?
    ensures ToolOutputs([call], HelperInvoker(h, decode, shuffle, http)) ==
      Ok([ToolOutput(call.id, OpenApiHelper.FirstSuccess(
        shuffle(OpenApiHelper.CallUrls(h.serverList, h.functionDict[call.functionName], decode(call.arguments).value).value),
        h.functionDict[call.functionName].httpMethod, decode(call.arguments).value, http))])
  {
    var args := decode(call.arguments).value;
    var entry := h.functionDict[call.functionName];
    var urls := OpenApiHelper.CallUrls(h.serverList, entry, args).value;
    assert HelperInvoker(h, decode, shuffle, http)(call.functionName, call.arguments) ==
      Ok(OpenApiHelper.FirstSuccess(shuffle(urls), entry.httpMethod, args, http));
    SingleCallBatch(call, HelperInvoker(h, decode, shuffle, http));
  }

  // ------------------------------------------------------------------ manager

  /** A chat message as the pages keep it: `{"role": ..., "content": ...}`. */
  datatype ChatMessage = ChatMessage(role: string, content: string)

  /** The message `run_thread` posts to the thread. */
  datatype PostedMessage = PostedMessage(threadId: string, role: string, content: string, fileIds: seq<string>)

  /** The run `run_thread` starts. */
  datatype RunRequest = RunRequest(threadId: string, assistantId: string, instructions: string)

  class Manager {
    const sessionId: string
    var sessionContainer: SessionContainer
    var messageList: map<string, seq<ChatMessage>>
    var uploadedFiles: map<string, seq<string>>
    const apiResponseSleepTime: nat

    /** Every list or inner map is created together with its first entry, so none is empty. */
    ghost predicate Valid()
      reads this
    {
      && (forall s :: s in sessionContainer ==> sessionContainer[s] != map[])
      && (forall a :: a in messageList ==> messageList[a] != [])
      && (forall a :: a in uploadedFiles ==> uploadedFiles[a] != [])
    }

    constructor (sessionId: string)
      ensures Valid()
      ensures this.sessionId == sessionId && apiResponseSleepTime == 1
      ensures sessionContainer == map[] && messageList == map[] && uploadedFiles == map[]
    {
      this.sessionId := sessionId;
      sessionContainer := map[];
      messageList := map[];
      uploadedFiles := map[];
      apiResponseSleepTime := 1;
    }

    /** `get_message_list`: `None` for an assistant with no messages yet. */
    function GetMessageList(assistantId: string): (r: Option<seq<ChatMessage>>)
      reads this
      ensures r.Some? <==> assistantId in messageList
      ensures r.Some? ==> r.value == messageList[assistantId]
    {
      if assistantId in messageList then Some(messageList[assistantId]) else None
    }

    /** `get_message_list_length`: the length of that list, 0 for an unknown
        assistant; in a valid manager 0 means exactly that there is no list. */
    function GetMessageListLength(assistantId: string): (n: nat)
      reads this
      ensures n == |GetMessageList(assistantId).GetOr([])|
      ensures Valid() ==> (n == 0 <==> GetMessageList(assistantId).None?)
    {
      if assistantId in messageList then |messageList[assistantId]| else 0
    }

    /** `append_message`: the message goes at the end of that assistant's list. */
    method AppendMessage(message: ChatMessage, assistantId: string)
      requires Valid()
      modifies this
      ensures Valid()
      ensures GetMessageList(assistantId) == Some(old(GetMessageList(assistantId)).GetOr([]) + [message])
      ensures GetMessageListLength(assistantId) == old(GetMessageListLength(assistantId)) + 1
      ensures forall a :: a != assistantId ==> GetMessageList(a) == old(GetMessageList(a))
      ensures messageList.Keys == old(messageList.Keys) + {assistantId}
      ensures sessionContainer == old(sessionContainer) && uploadedFiles == old(uploadedFiles)
    {
      if assistantId !in messageList {
        messageList := messageList[assistantId := []];
      }
      messageList := messageList[assistantId := messageList[assistantId] + [message]];
    }

    /** The first lines of `run_thread`: the thread stored for the pair,
        created and stored when the pair has none. */
    method EnsureThread(userSessionId: string, assistantId: string, createdThread: string) returns (thread: string)
      requires Valid()
      modifies this
      ensures Valid()
      ensures sessionContainer == WithThread(old(sessionContainer), userSessionId, assistantId, createdThread)
      ensures thread == ThreadOf(old(sessionContainer), userSessionId, assistantId).GetOr(createdThread)
      ensures messageList == old(messageList) && uploadedFiles == old(uploadedFiles)
    {
      if userSessionId !in sessionContainer {
        sessionContainer := sessionContainer[userSessionId := map[assistantId := createdThread]];
      } else {
        var threads := sessionContainer[userSessionId];
        if assistantId !in threads {
          sessionContainer := sessionContainer[userSessionId := threads[assistantId := createdThread]];
        }
      }
      thread := sessionContainer[userSessionId][assistantId];
    }

    /** `run_thread`: make sure of the thread, post the prompt with the tracked
        files, start the run, drive the poll loop, then list the messages.
        `createdThread` is the thread the service would create. */
    method RunThread(userSessionId: string, prompt: string, assistantId: string, createdThread: string,
                     trace: seq<Run>, invoke: Invoker, threadMessages: seq<ThreadMessage>)
      returns (posted: PostedMessage, started: RunRequest, submissions: seq<Submission>, result: RunThreadResult)
      requires Valid()
      modifies this
      ensures Valid()
      ensures sessionContainer == WithThread(old(sessionContainer), userSessionId, assistantId, createdThread)
      ensures messageList == old(messageList) && uploadedFiles == old(uploadedFiles)
      ensures posted == PostedMessage(ThreadOf(old(sessionContainer), userSessionId, assistantId).GetOr(createdThread),
                                      "user", prompt, FilesFor(uploadedFiles, assistantId))
      ensures started == RunRequest(posted.threadId, assistantId, "Be good")
      ensures submissions == Poll(posted.threadId, trace, invoke).submissions
      ensures result == ReplyOf(Poll(posted.threadId, trace, invoke), threadMessages)
    {
      var thread := EnsureThread(userSessionId, assistantId, createdThread);
      var assistantFileIds := FilesFor(uploadedFiles, assistantId);
      posted := PostedMessage(thread, "user", prompt, assistantFileIds);
      started := RunRequest(thread, assistantId, "Be good");
      var poll := PollRun(thread, trace, invoke);
      submissions := poll.submissions;
      if poll.Completed? {
        var messageInfo := MessageInfos(threadMessages);
        result := if messageInfo.Ok? then Replied(messageInfo.value) else Failed(messageInfo.error);
      } else if poll.Raised? {
        result := Failed(poll.error);
      } else {
        result := NeverReturns;
      }
    }

    /** `upload_file`, given what the service's upload reported: the file id
        when it was processed, `None` otherwise. */
    method UploadFile(upload: Option<string>) returns (uploadSuccess: bool, fileId: Option<string>)
      ensures uploadSuccess <==> upload.Some?
      ensures fileId == upload
    {
      uploadSuccess := upload.Some?;
      fileId := upload;
    }

    /** `track_assistant_file_for_messages`. */
    method TrackAssistantFileForMessages(assistantId: string, fileId: string)
      requires Valid()
      modifies this
      ensures Valid()
      ensures uploadedFiles == Tracked(old(uploadedFiles), assistantId, fileId)
      ensures sessionContainer == old(sessionContainer) && messageList == old(messageList)
    {
      if assistantId !in uploadedFiles {
        uploadedFiles := uploadedFiles[assistantId := []];
      }
      uploadedFiles := uploadedFiles[assistantId := uploadedFiles[assistantId] + [fileId]];
    }

    /** `upload_file_for_assistant_messages`: the file is tracked only when the upload succeeded. */
    method UploadFileForAssistantMessages(assistantId: string, upload: Option<string>)
      returns (uploadSuccess: bool, fileId: Option<string>)
      requires Valid()
      modifies this
      ensures Valid()
      ensures uploadSuccess <==> upload.Some?
      ensures fileId == upload
      ensures uploadedFiles == if uploadSuccess then Tracked(old(uploadedFiles), assistantId, upload.value)
                               else old(uploadedFiles)
      ensures sessionContainer == old(sessionContainer) && messageList == old(messageList)
    {
      uploadSuccess, fileId := UploadFile(upload);
      if uploadSuccess {
        TrackAssistantFileForMessages(assistantId, fileId.value);
      }
    }

    /** `upload_file_to_assistant`, given the upload outcome and whether the
        service attached the file to the assistant: `None` when either step
        failed, `(True, file_id)` otherwise. Nothing is tracked. */
    method UploadFileToAssistant(assistantId: string, upload: Option<string>, attached: bool)
      returns (r: Option<(bool, string)>)
      ensures r.Some? <==> upload.Some? && attached
      ensures r.Some? ==> r.value == (true, upload.value)
    {
      var uploadSuccess, fileId := UploadFile(upload);
      var uploadToAssistant := false;
      if uploadSuccess {
        if attached {
          uploadToAssistant := true;
        } else {
          return None;
        }
      } else {
        return None;
      }
      r := Some((uploadToAssistant, fileId.value));
    }
  }
}
