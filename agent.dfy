/**
 * agent.py: the parameter summary written to the transcript (get_params)
 * and the agent loop of `main`. The language model and the tool dispatch
 * are inputs: the model gives the reply to each invocation, by its index
 * and the conversation sent with it (the tool catalog it is also given
 * never changes during a run), and dispatch gives what each tool call
 * does, by its index, the tool name and the decoded arguments.
 */
module Agent {
  import opened Wrappers
  import opened PyText
  import opened Tools

  /** Decoded tool arguments, in iteration order: each key with `str()` of its value. */
  type Args = seq<(string, string)>

  datatype Role = System | User
  datatype Message = Message(role: Role, content: string)

  datatype ToolCall = ToolCall(name: string, args: Args)

  /** One reply of the model: its content (`None` when absent) and its proposed tool calls
      (`None` when absent, which differs from an empty list). */
  datatype Reply = Reply(content: Option<string>, toolCalls: Option<seq<ToolCall>>)

  /** The language model as one run sees it: the reply to the i-th invocation (counting from
      zero) given the conversation sent with it. The service samples its replies, so two
      invocations with the same conversation may be answered differently; the index tells
      them apart. */
  type Model = (nat, seq<Message>) -> Reply

  /** Tool dispatch as one run sees it: what the k-th tool call (counting from zero) does with
      the name and arguments the model chose. Tools read and write files that earlier calls may
      have changed, so the same call may do different things at different points of the run. */
  type Dispatcher = (nat, string, Args) -> ToolOutcome

  /** The loop's variables: the two counters, the conversation and the transcript text. */
  datatype State = State(invocations: nat, toolCalls: nat, messages: seq<Message>, log: string)

  datatype Reason = SaidDone | BudgetExhausted

  /** How a run ends: the loop exits (and the transcript is written), or an exception escapes it. */
  datatype Outcome = Finished(reason: Reason, final: State) | Aborted(error: string)

  datatype LogFile = LogFile(name: string, content: string)

  const Budget := 10
  const DoneSentinel := "Done."
  const ValueLimit := 50
  /** The message of the IndexError raised by indexing an empty list of tool calls. */
  const EmptyIndexError := "list index out of range"

  // ---------------------------------------------------------------------
  // get_params
  // ---------------------------------------------------------------------

  /** The summary of one argument: its key and the first 50 characters of its value. */
  function Segment(key: string, value: string): (seg: string)
    ensures |seg| == |"Parameter "| + |key| + 1 + Min(|value|, ValueLimit) + 2
  {
    "Parameter " + key + "=" + Slice(value, ValueLimit) + ", "
  }

  /** The summary of all arguments: their segments, in iteration order. */
  function ParamsSummary(args: Args): (params: string)
    ensures |params| >= 13 * |args|
    ensures params == [] <==> args == []
  {
    if args == [] then "" else Segment(args[0].0, args[0].1) + ParamsSummary(args[1..])
  }

  lemma {:induction false} ParamsSummaryAppend(a: Args, b: Args)
    ensures ParamsSummary(a + b) == ParamsSummary(a) + ParamsSummary(b)
  {
    if a == [] {
      assert a + b == b;
    } else {
      assert (a + b)[1..] == a[1..] + b;
      ParamsSummaryAppend(a[1..], b);
    }
  }

  lemma ParamsSummarySingle(arg: (string, string))
    ensures ParamsSummary([arg]) == Segment(arg.0, arg.1)
  {
    assert [arg][1..] == [];
  }

  /** Iteration order: the summary of the first i + 1 arguments extends that of the
      first i by exactly the i-th argument's segment. */
  lemma ParamsSummaryExtend(args: Args, i: nat)
    requires i < |args|
    ensures ParamsSummary(args[..i + 1]) == ParamsSummary(args[..i]) + Segment(args[i].0, args[i].1)
  {
    assert args[..i + 1] == args[..i] + [args[i]];
    ParamsSummaryAppend(args[..i], [args[i]]);
    ParamsSummarySingle(args[i]);
  }

  /** Reading a segment back: the fixed text, the key, then a value part of length
      min(|value|, 50) that is a prefix of the value, and the whole value when it is short. */
  lemma SegmentLayout(key: string, value: string)
    ensures var seg := Segment(key, value);
      var start := |"Parameter "| + |key| + 1;
      && |seg| == start + Min(|value|, ValueLimit) + 2
      && seg[..|"Parameter "|] == "Parameter "
      && seg[|"Parameter "|..start - 1] == key
      && seg[start - 1] == '='
      && seg[start..|seg| - 2] == value[..Min(|value|, ValueLimit)]
      && (|value| <= ValueLimit ==> seg[start..|seg| - 2] == value)
      && seg[|seg| - 2..] == ", "
  {
    var seg := Segment(key, value);
    var w := Slice(value, ValueLimit);
    assert seg == "Parameter " + key + "=" + w + ", ";
    var start := |"Parameter "| + |key| + 1;
    assert seg[start..|seg| - 2] == w;
  }

  /** get_params: builds the summary by appending one segment per argument. */
  method GetParams(args: Args) returns (params: string)
    ensures params == ParamsSummary(args)
    ensures args == [] ==> params == ""
  {
    params := "";
    for i := 0 to |args|
      invariant params == ParamsSummary(args[..i])
    {
      var (key, value) := args[i];
      params := params + "Parameter " + key + "=";
      params := params + Slice(value, ValueLimit);
      params := params + ", ";
      ParamsSummaryExtend(args, i);
    }
    assert args[..|args|] == args;
  }

  // ---------------------------------------------------------------------
  // The conversation and the transcript
  // ---------------------------------------------------------------------

  // The six system instructions the conversation starts with, named so that proofs about
  // the conversation's structure need not look inside them.
  const Persona := "You are a helpful AI assitant."
  const TaskNotice := "You need to perform a task for the user."
  const ResourcesNotice := "You might also recieve a list of file resources related to the task."
  const ToolsNotice := "You might need to use tools to complete the task."
  const RetryNotice := "If a program that you wrote fails to execute, you should regenerate the program."
  const DoneNotice := "When you are done, you should say 'Done.'. This is the only way you should respond if you are done."

  const TaskHeader := "The task is:\n"
  const ResourcesHeader := "The file resources are:\n"

  /** The eight messages the conversation starts with: six system instructions, the task and
      the rendered list of file resources. */
  function InitialMessages(query: string, resources: string): (ms: seq<Message>)
    ensures |ms| == 8
    ensures forall i :: 0 <= i < 6 ==> ms[i].role == System
    ensures ms[6].role == User && ms[7].role == User
    ensures |TaskHeader| <= |ms[6].content| && ms[6].content[|TaskHeader|..] == query
    ensures |ResourcesHeader| <= |ms[7].content| && ms[7].content[|ResourcesHeader|..] == resources
  {
    [ Message(System, Persona),
      Message(System, TaskNotice),
      Message(System, ResourcesNotice),
      Message(System, ToolsNotice),
      Message(System, RetryNotice),
      Message(System, DoneNotice),
      Message(User, TaskHeader + query),
      Message(User, ResourcesHeader + resources) ]
  }

  function InitialState(query: string, resources: string): State
  {
    State(0, 0, InitialMessages(query, resources), "")
  }

  // The fixed pieces of the report message and of the transcript markers.
  const ReportOpening := "Tool "
  const ReportMiddle := " returned: "
  const EnterOpening := "**Entering agent "
  const EnterClosing := "**\n"
  const LeaveOpening := "**Leaving agent "
  const LeaveClosing := "**\n\n"

  /** The message that reports a tool's result back to the model. */
  function ToolMessage(name: string, result: string): Message
  {
    Message(User, ReportOpening + name + ReportMiddle + result)
  }

  function EnterMarker(name: string): string
  {
    EnterOpening + name + EnterClosing
  }

  function LeaveMarker(name: string): string
  {
    LeaveOpening + name + LeaveClosing
  }

  /** The transcript text of one tool call: entering marker, parameter summary, the result
      for the execution tool only, and leaving marker. */
  function Block(name: string, args: Args, result: string): string
  {
    EnterMarker(name) + (ParamsSummary(args) + "\n")
      + (if name == ExecuteToolName then result + "\n" else "")
      + LeaveMarker(name)
  }

  /** Reading a block back: the entering marker, the parameter summary and a newline; then the
      result and a newline for the execution tool only; then the leaving marker. */
  lemma BlockLayout(name: string, args: Args, result: string)
    ensures var b := Block(name, args, result);
      var head := EnterMarker(name) + ParamsSummary(args) + "\n";
      var leave := LeaveMarker(name);
      && |head| + |leave| <= |b|
      && b[..|head|] == head
      && b[|b| - |leave|..] == leave
      && (name == ExecuteToolName ==> b[|head|..|b| - |leave|] == result + "\n")
      && (name != ExecuteToolName ==> |b| == |head| + |leave|)
  {
  }

  function LogFileName(queryName: string): (fileName: string)
    ensures |fileName| == 4 + |queryName| && fileName[..4] == "log_" && fileName[4..] == queryName
  {
    "log_" + queryName
  }

  // ---------------------------------------------------------------------
  // The loop, as a specification
  // ---------------------------------------------------------------------

  datatype StepResult = Next(state: State) | Stop(state: State) | Crash(error: string)

  /** One iteration of the loop body, given the model's reply to the current conversation.
      The iteration stops the loop exactly on "Done."; only a tool call can fail; otherwise it
      counts one invocation and at most one tool call. */
  function Step(s: State, reply: Reply, dispatch: Dispatcher): (r: StepResult)
    ensures r.Stop? <==> reply.content == Some(DoneSentinel)
    ensures r.Crash? ==> reply.toolCalls.Some?
    ensures !r.Crash? ==>
      r.state.invocations == s.invocations + 1 && s.toolCalls <= r.state.toolCalls <= s.toolCalls + 1
  {
    var counted := s.(invocations := s.invocations + 1);
    if reply.content == Some(DoneSentinel) then Stop(counted)
    else if reply.toolCalls.None? then Next(counted)
    else if reply.toolCalls.value == [] then Crash(EmptyIndexError)
    else
      var call := reply.toolCalls.value[0];
      match dispatch(s.toolCalls, call.name, call.args)
      case Raised(e) => Crash(e)
      case Returned(result) =>
        Next(State(counted.invocations, s.toolCalls + 1,
                   s.messages + [ToolMessage(call.name, result)],
                   s.log + Block(call.name, call.args, result)))
  }

  /** The loop from state s on: iterate while both counters are below the budget. Every run
      ends, and a finished run has counted no fewer invocations and tool calls than s. */
  function RunFrom(s: State, model: Model, dispatch: Dispatcher): (o: Outcome)
    ensures o.Finished? ==> s.invocations <= o.final.invocations && s.toolCalls <= o.final.toolCalls
    decreases Budget - s.invocations
  {
    if !(s.invocations < Budget && s.toolCalls < Budget) then Finished(BudgetExhausted, s)
    else
      match Step(s, model(s.invocations, s.messages), dispatch)
      case Stop(t) => Finished(SaidDone, t)
      case Crash(e) => Aborted(e)
      case Next(t) => RunFrom(t, model, dispatch)
  }

  /** One turn of the loop: while the guard holds, the run from s is decided by the reply to
      the current conversation and, for a tool call, by what the call does. */
  lemma RunFromUnfold(s: State, model: Model, dispatch: Dispatcher)
    requires s.invocations < Budget && s.toolCalls < Budget
    ensures var reply := model(s.invocations, s.messages);
      var counted := s.(invocations := s.invocations + 1);
      if reply.content == Some(DoneSentinel) then RunFrom(s, model, dispatch) == Finished(SaidDone, counted)
      else if reply.toolCalls.None? then RunFrom(s, model, dispatch) == RunFrom(counted, model, dispatch)
      else if reply.toolCalls.value == [] then RunFrom(s, model, dispatch) == Aborted(EmptyIndexError)
      else
        var call := reply.toolCalls.value[0];
        match dispatch(s.toolCalls, call.name, call.args)
        case Raised(e) => RunFrom(s, model, dispatch) == Aborted(e)
        case Returned(result) =>
          RunFrom(s, model, dispatch) ==
            RunFrom(State(s.invocations + 1, s.toolCalls + 1, s.messages + [ToolMessage(call.name, result)],
                          s.log + Block(call.name, call.args, result)), model, dispatch)
  {
  }

  /** An iteration whose reply is "Done." only counts the invocation: no message, no
      transcript text and no dispatch, whatever tool calls the reply also proposes. */
  lemma StepDone(s: State, reply: Reply, dispatch: Dispatcher)
    requires reply.content == Some(DoneSentinel)
    ensures Step(s, reply, dispatch) == Stop(s.(invocations := s.invocations + 1))
  {
  }

  /** An iteration whose reply is neither "Done." nor a tool call only counts the invocation. */
  lemma StepNoToolCalls(s: State, reply: Reply, dispatch: Dispatcher)
    requires reply.content != Some(DoneSentinel) && reply.toolCalls.None?
    ensures Step(s, reply, dispatch) == Next(s.(invocations := s.invocations + 1))
  {
  }

  /** An iteration with tool calls runs the first call only. When it returns, the iteration
      appends one user message reporting the result, extends the transcript by that call's
      block, and counts one invocation and one tool call; when it raises, the run ends with
      its error. An empty list of calls ends the run with an IndexError. */
  lemma StepToolCall(s: State, reply: Reply, dispatch: Dispatcher)
    requires reply.content != Some(DoneSentinel) && reply.toolCalls.Some?
    ensures reply.toolCalls.value == [] ==> Step(s, reply, dispatch) == Crash(EmptyIndexError)
    ensures reply.toolCalls.value != [] ==>
      var call := reply.toolCalls.value[0];
      match dispatch(s.toolCalls, call.name, call.args)
      case Raised(e) => Step(s, reply, dispatch) == Crash(e)
      case Returned(result) =>
        Step(s, reply, dispatch) == Next(State(s.invocations + 1, s.toolCalls + 1,
          s.messages + [ToolMessage(call.name, result)],
          s.log + Block(call.name, call.args, result)))
  {
  }

  /** A program run by the execution tool that raises an `Exception` is reported, not fatal:
      the conversation gains the "Error: " text, the tool counter rises by one, and the
      transcript ends with that text followed by the leaving marker. */
  lemma ExecuteFailureReported(s: State, reply: Reply, dispatch: Dispatcher, file: FileRead,
                               exec: string -> ExecOutcome)
    requires reply.content != Some(DoneSentinel) && reply.toolCalls.Some? && reply.toolCalls.value != []
    requires reply.toolCalls.value[0].name == ExecuteToolName
    requires dispatch(s.toolCalls, ExecuteToolName, reply.toolCalls.value[0].args) == ExecuteProgram(file, exec)
    requires file.Read? && exec(file.text).Threw?
    ensures Step(s, reply, dispatch).Next?
    ensures var t := Step(s, reply, dispatch).state;
      var report := ErrorPrefix + exec(file.text).message;
      var tail := report + "\n" + LeaveMarker(ExecuteToolName);
      && t.invocations == s.invocations + 1
      && t.toolCalls == s.toolCalls + 1
      && t.messages == s.messages + [ToolMessage(ExecuteToolName, report)]
      && |s.log| + |tail| <= |t.log|
      && t.log[..|s.log|] == s.log
      && t.log[|t.log| - |tail|..] == tail
  {
    var args := reply.toolCalls.value[0].args;
    var report := ErrorPrefix + exec(file.text).message;
    var tail := report + "\n" + LeaveMarker(ExecuteToolName);
    var head := EnterMarker(ExecuteToolName) + (ParamsSummary(args) + "\n");
    var t := Step(s, reply, dispatch).state;
    assert Block(ExecuteToolName, args, report) == head + tail;
    assert t.log == s.log + head + tail;
  }

  /** Appending two sequences one after the other appends their concatenation. */
  lemma AppendThree<T>(a: seq<T>, b: seq<T>, c: seq<T>)
    ensures a + b + c == a + (b + c)
  {
  }

  /** Appending four pieces of text one after the other appends their concatenation. */
  lemma AppendInPieces(log: string, a: string, b: string, c: string, d: string)
    ensures log + a + b + c + d == log + (a + b + c + d)
  {
  }

  // ---------------------------------------------------------------------
  // Properties of the loop
  // ---------------------------------------------------------------------

  /** The counters: the tool counter never overtakes the invocation counter, neither passes the
      budget, and the loop can only run out of budget through the invocation counter, so the
      guard on the tool counter never decides the exit. */
  lemma {:induction false} RunFromCounters(s: State, model: Model, dispatch: Dispatcher)
    requires s.toolCalls <= s.invocations <= Budget
    ensures RunFrom(s, model, dispatch).Finished? ==>
      var f := RunFrom(s, model, dispatch).final;
      && s.invocations <= f.invocations
      && s.toolCalls <= f.toolCalls <= f.invocations <= Budget
      && (RunFrom(s, model, dispatch).reason == BudgetExhausted ==> f.invocations == Budget)
    decreases Budget - s.invocations
  {
    if s.invocations < Budget && s.toolCalls < Budget {
      match Step(s, model(s.invocations, s.messages), dispatch)
      case Stop(t) =>
      case Crash(e) =>
      case Next(t) => RunFromCounters(t, model, dispatch);
    }
  }

  /** The conversation only grows: what was there stays as a prefix, and one user message is
      appended per tool call and nothing else. */
  lemma RunFromGrows(s: State, model: Model, dispatch: Dispatcher)
    ensures RunFrom(s, model, dispatch).Finished? ==>
      var f := RunFrom(s, model, dispatch).final;
      && s.toolCalls <= f.toolCalls
      && |f.messages| == |s.messages| + (f.toolCalls - s.toolCalls)
      && f.messages[..|s.messages|] == s.messages
      && (forall i :: |s.messages| <= i < |f.messages| ==> f.messages[i].role == User)
  {
    RunFromTranscript(s, model, dispatch);
    if RunFrom(s, model, dispatch).Finished? {
      var f := RunFrom(s, model, dispatch).final;
      assert f.messages[..|s.messages|] == s.messages;
      forall i | |s.messages| <= i < |f.messages| ensures f.messages[i].role == User {
        assert f.messages[i] == Reports(CallsFrom(s, model, dispatch))[i - |s.messages|];
      }
    }
  }

  /** A tool call that returned: its name, its arguments and the text it returned. */
  datatype CallRecord = CallRecord(name: string, args: Args, result: string)

  /** The tool call an iteration completes, if any: the first proposed call, when the reply is
      not "Done." and the call returns. */
  function Dispatched(s: State, reply: Reply, dispatch: Dispatcher): Option<CallRecord>
  {
    if reply.content == Some(DoneSentinel) || reply.toolCalls.None? || reply.toolCalls.value == [] then None
    else
      var call := reply.toolCalls.value[0];
      match dispatch(s.toolCalls, call.name, call.args)
      case Raised(_) => None
      case Returned(result) => Some(CallRecord(call.name, call.args, result))
  }

  /** An iteration that goes on either completes no tool call and only counts the invocation,
      or completes one, whose report and block it appends. */
  lemma StepDispatched(s: State, reply: Reply, dispatch: Dispatcher)
    requires Step(s, reply, dispatch).Next?
    ensures var t := Step(s, reply, dispatch).state;
      match Dispatched(s, reply, dispatch)
      case None => t == s.(invocations := s.invocations + 1)
      case Some(c) =>
        t == State(s.invocations + 1, s.toolCalls + 1, s.messages + [ToolMessage(c.name, c.result)],
                   s.log + Block(c.name, c.args, c.result))
  {
  }

  /** The tool calls that the loop from state s on completes, in order. */
  function CallsFrom(s: State, model: Model, dispatch: Dispatcher): seq<CallRecord>
    decreases Budget - s.invocations
  {
    if !(s.invocations < Budget && s.toolCalls < Budget) then []
    else
      var reply := model(s.invocations, s.messages);
      match Step(s, reply, dispatch)
      case Next(t) => Completed(Dispatched(s, reply, dispatch)) + CallsFrom(t, model, dispatch)
      case _ => []
  }

  /** A completed call as a list of at most one call. */
  function Completed(c: Option<CallRecord>): seq<CallRecord>
  {
    match c
    case Some(call) => [call]
    case None => []
  }

  /** The transcript text of completed tool calls: their blocks, in order. */
  function Transcript(calls: seq<CallRecord>): string
  {
    if calls == [] then "" else Block(calls[0].name, calls[0].args, calls[0].result) + Transcript(calls[1..])
  }

  /** The messages that report completed tool calls to the model, in order. */
  function Reports(calls: seq<CallRecord>): (reports: seq<Message>)
    ensures |reports| == |calls|
    ensures forall i :: 0 <= i < |calls| ==> reports[i] == ToolMessage(calls[i].name, calls[i].result)
  {
    if calls == [] then [] else [ToolMessage(calls[0].name, calls[0].result)] + Reports(calls[1..])
  }

  lemma TranscriptCons(c: CallRecord, rest: seq<CallRecord>)
    ensures Transcript([c] + rest) == Block(c.name, c.args, c.result) + Transcript(rest)
    ensures Reports([c] + rest) == [ToolMessage(c.name, c.result)] + Reports(rest)
  {
    assert ([c] + rest)[1..] == rest;
  }

  /** Appending one completed call's report and block to state s, and counting it, adds what
      that call contributes at the head of the reports and the transcript of a list of calls. */
  lemma AppendCall(s: State, t: State, c: CallRecord, rest: seq<CallRecord>)
    requires t == State(s.invocations + 1, s.toolCalls + 1, s.messages + [ToolMessage(c.name, c.result)],
                        s.log + Block(c.name, c.args, c.result))
    ensures t.toolCalls + |rest| == s.toolCalls + |[c] + rest|
    ensures t.messages + Reports(rest) == s.messages + Reports([c] + rest)
    ensures t.log + Transcript(rest) == s.log + Transcript([c] + rest)
  {
    TranscriptCons(c, rest);
    var b := Block(c.name, c.args, c.result);
    var m := ToolMessage(c.name, c.result);
    AppendThree(s.log, b, Transcript(rest));
    AppendThree(s.messages, [m], Reports(rest));
  }

  /** One iteration that goes on from state s to state t: what it adds to the conversation and
      the transcript is what its completed call, if any, contributes to the reports and the
      transcript, and it counts that call. */
  lemma StepContributes(s: State, reply: Reply, dispatch: Dispatcher, rest: seq<CallRecord>)
    requires Step(s, reply, dispatch).Next?
    ensures var t := Step(s, reply, dispatch).state;
      var calls := Completed(Dispatched(s, reply, dispatch)) + rest;
      && t.toolCalls + |rest| == s.toolCalls + |calls|
      && t.messages + Reports(rest) == s.messages + Reports(calls)
      && t.log + Transcript(rest) == s.log + Transcript(calls)
  {
    StepDispatched(s, reply, dispatch);
    match Dispatched(s, reply, dispatch)
    case None =>
      assert Completed(None) + rest == rest;
    case Some(c) =>
      AppendCall(s, Step(s, reply, dispatch).state, c, rest);
  }

  /** What a run adds is exactly its completed tool calls: one report per call appended to the
      conversation, one block per call appended to the transcript, and one count per call on
      the tool counter. */
  lemma {:induction false} RunFromTranscript(s: State, model: Model, dispatch: Dispatcher)
    ensures RunFrom(s, model, dispatch).Finished? ==>
      var f := RunFrom(s, model, dispatch).final;
      var calls := CallsFrom(s, model, dispatch);
      && f.toolCalls == s.toolCalls + |calls|
      && f.messages == s.messages + Reports(calls)
      && f.log == s.log + Transcript(calls)
    decreases Budget - s.invocations
  {
    if s.invocations < Budget && s.toolCalls < Budget {
      var reply := model(s.invocations, s.messages);
      match Step(s, reply, dispatch)
      case Stop(t) =>
        assert Reports([]) == [];
      case Crash(e) =>
      case Next(t) =>
        RunFromTranscript(t, model, dispatch);
        StepContributes(s, reply, dispatch, CallsFrom(t, model, dispatch));
    } else {
      assert Reports([]) == [];
    }
  }

  /** The loop ends with SaidDone exactly when the model answered "Done." to the final
      conversation, and with BudgetExhausted only when a counter reached the budget. */
  lemma {:induction false} RunFromExit(s: State, model: Model, dispatch: Dispatcher)
    ensures RunFrom(s, model, dispatch).Finished? && RunFrom(s, model, dispatch).reason == SaidDone ==>
      var f := RunFrom(s, model, dispatch).final;
      1 <= f.invocations && model(f.invocations - 1, f.messages).content == Some(DoneSentinel)
    ensures RunFrom(s, model, dispatch).Finished? && RunFrom(s, model, dispatch).reason == BudgetExhausted ==>
      !(RunFrom(s, model, dispatch).final.invocations < Budget && RunFrom(s, model, dispatch).final.toolCalls < Budget)
    decreases Budget - s.invocations
  {
    if s.invocations < Budget && s.toolCalls < Budget {
      match Step(s, model(s.invocations, s.messages), dispatch)
      case Stop(t) =>
        assert t == s.(invocations := s.invocations + 1);
      case Crash(e) =>
      case Next(t) => RunFromExit(t, model, dispatch);
    }
  }

  /** The run aborts only with an IndexError from an empty list of tool calls or with an
      exception that a dispatched tool raised: the loop adds no error of its own. */
  lemma {:induction false} RunFromAborted(s: State, model: Model, dispatch: Dispatcher)
    ensures RunFrom(s, model, dispatch).Aborted? ==>
      var e := RunFrom(s, model, dispatch).error;
      e == EmptyIndexError || exists k, name, args :: dispatch(k, name, args) == Raised(e)
    decreases Budget - s.invocations
  {
    if s.invocations < Budget && s.toolCalls < Budget {
      var reply := model(s.invocations, s.messages);
      match Step(s, reply, dispatch)
      case Stop(t) =>
      case Crash(e) =>
        if e != EmptyIndexError {
          var call := reply.toolCalls.value[0];
          assert dispatch(s.toolCalls, call.name, call.args) == Raised(e);
        }
      case Next(t) => RunFromAborted(t, model, dispatch);
    }
  }

  /** A model that never answers "Done." and always proposes a tool call, with tools that
      never raise, makes the loop call a tool in every iteration until both counters reach
      the budget. */
  lemma {:induction false} RunFromAlwaysCalling(s: State, model: Model, dispatch: Dispatcher)
    requires forall i, ms :: model(i, ms).content != Some(DoneSentinel)
    requires forall i, ms :: model(i, ms).toolCalls.Some? && model(i, ms).toolCalls.value != []
    requires forall k, name, args :: dispatch(k, name, args).Returned?
    requires s.toolCalls == s.invocations <= Budget
    ensures RunFrom(s, model, dispatch).Finished?
    ensures RunFrom(s, model, dispatch).reason == BudgetExhausted
    ensures RunFrom(s, model, dispatch).final.invocations == RunFrom(s, model, dispatch).final.toolCalls == Budget
    ensures |RunFrom(s, model, dispatch).final.messages| == |s.messages| + (Budget - s.toolCalls)
    ensures |CallsFrom(s, model, dispatch)| == Budget - s.toolCalls
    ensures RunFrom(s, model, dispatch).final.log == s.log + Transcript(CallsFrom(s, model, dispatch))
    decreases Budget - s.invocations
  {
    if s.invocations < Budget {
      var reply := model(s.invocations, s.messages);
      var call := reply.toolCalls.value[0];
      assert dispatch(s.toolCalls, call.name, call.args).Returned?;
      RunFromAlwaysCalling(Step(s, reply, dispatch).state, model, dispatch);
    }
    RunFromTranscript(s, model, dispatch);
  }

  /** Replies are told apart by invocation: a plain-text reply followed by "Done." ends the
      run after two invocations, with the conversation and the transcript unchanged. */
  lemma TextThenDone(seed: seq<Message>, text: string, model: Model, dispatch: Dispatcher)
    requires text != DoneSentinel
    requires model(0, seed) == Reply(Some(text), None)
    requires model(1, seed).content == Some(DoneSentinel)
    ensures RunFrom(State(0, 0, seed, ""), model, dispatch) == Finished(SaidDone, State(2, 0, seed, ""))
  {
  }

  /** A model that never answers "Done." and never proposes a tool call is asked until the
      invocation budget is spent; the conversation and the transcript stay as they were. */
  lemma {:induction false} RunFromNeverCalling(s: State, model: Model, dispatch: Dispatcher)
    requires forall i, ms :: model(i, ms).content != Some(DoneSentinel) && model(i, ms).toolCalls.None?
    requires s.invocations <= Budget && s.toolCalls < Budget
    ensures RunFrom(s, model, dispatch) == Finished(BudgetExhausted, s.(invocations := Budget))
    decreases Budget - s.invocations
  {
    if s.invocations < Budget {
      RunFromNeverCalling(s.(invocations := s.invocations + 1), model, dispatch);
    }
  }

  // ---------------------------------------------------------------------
  // The loop, as main runs it
  // ---------------------------------------------------------------------

  /**
   * The transcript lines of one tool call, appended to the transcript as the loop body
   * appends them. The entering marker and the parameter line come before the dispatch in
   * the loop; a dispatch that raises ends the run without writing the transcript, so
   * appending them once the result is known leaves the written transcript unchanged.
   */
  method AppendBlock(log: string, name: string, args: Args, result: string) returns (newLog: string)
    ensures newLog == log + Block(name, args, result)
  {
    newLog := log + EnterMarker(name);
    var params := GetParams(args);
    newLog := newLog + (params + "\n");
    ghost var resultLine := "";
    if name == ExecuteToolName {
      newLog := newLog + (result + "\n");
      resultLine := result + "\n";
    }
    newLog := newLog + LeaveMarker(name);
    AppendInPieces(log, EnterMarker(name), params + "\n", resultLine, LeaveMarker(name));
  }

  /**
   * The agent logic of `main`: the loop, from a seeded conversation, with both
   * counters at zero and an empty transcript.
   */
  method RunLoop(seed: seq<Message>, model: Model, dispatch: Dispatcher) returns (outcome: Outcome)
    ensures outcome == RunFrom(State(0, 0, seed, ""), model, dispatch)
    ensures outcome.Finished? ==> outcome.final.toolCalls <= outcome.final.invocations <= Budget
    ensures outcome.Finished? && outcome.reason == SaidDone ==>
      1 <= outcome.final.invocations &&
      model(outcome.final.invocations - 1, outcome.final.messages).content == Some(DoneSentinel)
    ensures outcome.Finished? && outcome.reason == BudgetExhausted ==> outcome.final.invocations == Budget
  {
    ghost var start := State(0, 0, seed, "");
    var messages := seed;
    var invocations: nat := 0;
    var toolCalls: nat := 0;
    var log := "";
    var saidDone := false;
    while invocations < Budget && toolCalls < Budget
      invariant toolCalls <= invocations <= Budget
      invariant !saidDone
      invariant RunFrom(State(invocations, toolCalls, messages, log), model, dispatch) == RunFrom(start, model, dispatch)
    {
      ghost var before := State(invocations, toolCalls, messages, log);
      var res := model(invocations, messages);
      RunFromUnfold(before, model, dispatch);
      invocations := invocations + 1;
      if res.content == Some(DoneSentinel) {
        saidDone := true;
        break;
      } else if res.toolCalls != None {
        var calls := res.toolCalls.value;
        if calls == [] {
          return Aborted(EmptyIndexError);
        }
        var name := calls[0].name;
        var args := calls[0].args;
        var toolResult := dispatch(toolCalls, name, args);
        if toolResult.Raised? {
          return Aborted(toolResult.error);
        }
        messages := messages + [ToolMessage(name, toolResult.text)];
        log := AppendBlock(log, name, args, toolResult.text);
        toolCalls := toolCalls + 1;
        assert State(invocations, toolCalls, messages, log) ==
          State(before.invocations + 1, before.toolCalls + 1, before.messages + [ToolMessage(name, toolResult.text)],
                before.log + Block(name, args, toolResult.text));
      }
    }
    outcome := Finished(if saidDone then SaidDone else BudgetExhausted, State(invocations, toolCalls, messages, log));
    RunFromCounters(start, model, dispatch);
    RunFromExit(start, model, dispatch);
  }

  /**
   * `main` after the run descriptor and the task text have been read: seed the
   * conversation, run the loop, and produce the transcript file, which is written
   * only when no exception escaped the loop. `resources` is the rendered list of
   * file resources.
   */
  method RunAgent(queryName: string, query: string, resources: string, model: Model, dispatch: Dispatcher)
    returns (outcome: Outcome, logFile: Option<LogFile>)
    ensures outcome == RunFrom(InitialState(query, resources), model, dispatch)
    ensures outcome.Finished? ==>
      && |InitialMessages(query, resources)| <= |outcome.final.messages|
      && outcome.final.messages[..|InitialMessages(query, resources)|] == InitialMessages(query, resources)
    ensures outcome.Finished? ==> logFile == Some(LogFile(LogFileName(queryName), outcome.final.log))
    ensures outcome.Aborted? ==> logFile == None
  {
    var messages := InitialMessages(query, resources);
    outcome := RunLoop(messages, model, dispatch);
    RunFromGrows(InitialState(query, resources), model, dispatch);
    if outcome.Finished? {
      logFile := Some(LogFile(LogFileName(queryName), outcome.final.log));
    } else {
      logFile := None;
    }
  }
}
