# Data-analysis agent: loop, transcript and tool catalog

This project models the core of a small LLM agent. The agent is given a task and a list of
file resources. It then repeatedly asks a language model what to do next, until the model
answers `"Done."` or a budget of ten model invocations or ten tool calls is spent. When a
reply proposes tool calls, only the first of them is run, and its result is fed back to the
model as a message; the other proposed calls are ignored. A transcript of the tool calls
that were run is written to `log_<query name>`.

The model is in four modules.

- `Agent` (`agent.dfy`) covers agent.py.
  - `GetParams` is the parameter summary, proved equal to `ParamsSummary`.
  - The loop of `main` has two forms:
    - `RunLoop` is a method with a `while` loop over the two counters, the conversation and the transcript. It is proved equal to the function `RunFrom`, which specifies one iteration at a time through `Step`.
    - `RunAgent` seeds the conversation with the eight initial messages, runs the loop and produces the transcript file.
  - The language model is a function from the invocation's index (counting from zero) and the conversation sent with it to the reply. Dispatching a tool is a function from the tool call's index, the tool name and its decoded arguments to a `ToolOutcome`: either a returned text or an exception that escapes.
  - The indices let the model describe every run the program can make. The service samples its replies, so the same conversation may get a plain text once and `"Done."` the next time. A tool may also do something different the second time, because an earlier call, such as `write_file`, changed the files it reads. Any such run is one choice of the two functions.
  - `CallsFrom` lists the tool calls a run completes. The conversation gains exactly one report per call (`Reports`), and the transcript gains exactly one block per call (`Transcript`).
- `Tools` (`tools.dfy`) covers tools.py.
  - The catalog is the literal data of `get_tools_list`, with the docstrings as a parameter.
  - The fence clean-up of `generate_analysis_program` is modelled.
  - So is the result contract of `execute_Python_program`. In that model, reading the file and running the program are inputs.
- `PyText` (`pytext.dfy`) holds the Python string operations the core uses:
  - `removeprefix`, `removesuffix` and `strip`, with `str.isspace` as the whitespace set;
  - slicing to a length.
- `Wrappers` (`wrappers.dfy`) holds `Option`, which stands for Python's `None`.

The model follows the code rather than the documented design where the two differ:

- Dispatch has no `try` around it (agent.py:94). A tool that raises, an unknown tool name (the `NameError` from `eval`) and arguments that do not fit the tool all end the run with that exception. Nothing turns them into an `"Error: ..."` message. Only `execute_Python_program` turns the `Exception`s of the program it runs into text (tools.py:157-161).
- When the run is ended by an exception, no transcript file is written.
- Every appended message has role `user` (agent.py:96). The model has no separate tool-result role.
- A reply whose `tool_calls` is an empty list makes `res.tool_calls[0]` raise `IndexError` (agent.py:89). This ends the run.
- The catalog's third entry is named `Internet_search_attribute`. Two of its `required` lists name parameters the entry does not declare. See "## Findings".

## Model

| member | source | states |
|---|---|---|
| PyText.RemovePrefix | tools.py:142 | when the text starts with the prefix, the result is what follows it; otherwise the text is unchanged |
| PyText.RemoveSuffix | tools.py:143 | when the text ends with the suffix, the result is what precedes it; otherwise the text is unchanged |
| PyText.Strip | tools.py:144 | the result is a contiguous piece of the text with only whitespace around it; it neither starts nor ends with whitespace; it is empty exactly when the text is all whitespace |
| PyText.StripStart | tools.py:144 | the result is a suffix of the text, preceded only by whitespace, and does not start with whitespace |
| PyText.StripEnd | tools.py:144 | the result is a prefix of the text, followed only by whitespace, and does not end with whitespace |
| PyText.StripKeepsTrimmed | tools.py:144 | a text with no whitespace at either end is left unchanged by strip |
| PyText.TrimmedUnique | tools.py:144 | only one piece of a text is cut out by whitespace-only margins and neither starts nor ends with whitespace |
| PyText.StripPadded | tools.py:144 | strip of a piece with whitespace around it, where the piece neither starts nor ends with whitespace, is that piece |
| PyText.Slice | agent.py:14 | `[:n]` gives the first min(length, n) characters, and the whole text when it is no longer than n |
| Agent.Segment | agent.py:13-15 | a segment's length is the fixed text, the key, `=`, min(length of the value, 50) and `, ` |
| Agent.ParamsSummary | agent.py:12-15 | the summary has at least 13 characters per argument, and it is empty exactly when there are no arguments |
| Agent.ParamsSummaryAppend | agent.py:12-15 | the summary of two argument lists joined is the two summaries joined |
| Agent.ParamsSummarySingle | agent.py:13-15 | the summary of one argument is its segment |
| Agent.ParamsSummaryExtend | agent.py:12-15 | the summary of the first i + 1 arguments is that of the first i followed by the i-th argument's segment |
| Agent.SegmentLayout | agent.py:13-15 | a segment is `Parameter `, the key, `=`, then a value part of length min(length, 50) that is a prefix of the value (the whole value when it has at most 50 characters), then `, ` |
| Agent.GetParams | agent.py:10-17 | the loop builds exactly the segments of all arguments in iteration order; no arguments give the empty text |
| Agent.InitialMessages | agent.py:39-72 | the conversation starts with eight messages: six with role system, then the task and the resources, both with role user; after their headers, the last two hold exactly the task text and the rendered resources |
| Agent.BlockLayout | agent.py:91-101 | a tool call's block is the entering marker, the parameter summary and a newline; then, for the execution tool only, the result and a newline; then the leaving marker; for any other tool nothing lies between the two parts |
| Agent.LogFileName | agent.py:105 | the log file name is `log_` followed by the query name, unchanged |
| Agent.Step | agent.py:80-102 | an iteration stops the loop exactly when the reply is `"Done."`; only a reply with tool calls can end the run with an exception; otherwise it counts one invocation and at most one tool call |
| Agent.RunFrom | agent.py:79-102 | a finished run has counted no fewer invocations and tool calls than it started with |
| Agent.RunFromUnfold | agent.py:79-102 | while the guard holds, one turn decides the run: `"Done."` finishes it, a reply without calls goes on with the invocation counted, an empty call list ends it with an IndexError, a raising call ends it with that exception, and a returned call goes on with its report, its block and both counts added |
| Agent.StepDone | agent.py:85-87 | a `"Done."` reply stops the loop and counts the invocation; nothing else changes, even when the reply also proposes tool calls |
| Agent.StepNoToolCalls | agent.py:85-88 | a reply that is not `"Done."` and proposes no tool calls only counts the invocation |
| Agent.StepToolCall | agent.py:88-102 | only the first proposed call is run. If it raises, the run ends with its exception. Otherwise one user message `Tool <name> returned: <result>` is appended, the transcript gains that call's block, and both counters rise by one. An empty list of calls ends the run with an IndexError |
| Agent.StepDispatched | agent.py:85-102 | an iteration that goes on either completes no call and only counts the invocation, or completes the first proposed call and appends exactly its report and its block |
| Agent.ExecuteFailureReported | agent.py:94-102 | a program that raises an `Exception` under the execution tool is reported as `Error: <message>` in the new user message. The tool counter rises by one. The transcript keeps its old text as a prefix and ends with the error text and the leaving marker |
| Agent.RunFromCounters | agent.py:79-102 | neither counter decreases; the tool counter never passes the invocation counter; neither passes 10; when the budget ends the loop, the invocation counter is 10, so the guard on the tool counter never decides the exit |
| Agent.Reports | agent.py:95-98 | there is one report per completed call, in order, and the i-th is `Tool <name> returned: <result>` for the i-th call |
| Agent.TranscriptCons | agent.py:91-101 | the transcript of a list of calls is the first call's block followed by the transcript of the rest, and the same holds for the reports |
| Agent.AppendCall | agent.py:91-102 | appending one completed call's report and block to a state, and counting it, gives what that call contributes at the head of a list of calls |
| Agent.StepContributes | agent.py:85-102 | what one iteration adds to the counters, the conversation and the transcript is what its completed call, if any, contributes |
| Agent.RunFromTranscript | agent.py:79-102 | a finished run adds exactly its completed calls: the tool counter rises by their number, the conversation gains their reports in order, and the transcript gains their blocks in order |
| Agent.RunFromGrows | agent.py:95-98 | the conversation keeps its earlier messages as a prefix; it gains exactly one message per tool call; every gained message has role user |
| Agent.RunFromExit | agent.py:79-87 | the loop ends with SaidDone only when the model's reply to the last invocation, with the final conversation, is `"Done."`; it ends with BudgetExhausted only when a counter has reached 10 |
| Agent.RunFromAborted | agent.py:89-94 | a run ends with an exception only through the IndexError of an empty call list or an exception raised by a dispatched tool |
| Agent.RunFromAlwaysCalling | agent.py:79-102 | a model that always proposes a call, with tools that never raise, makes the run end by budget with 10 invocations, 10 tool calls and one new message per call; from the start, exactly 10 calls complete and the transcript is their 10 blocks in order |
| Agent.RunFromNeverCalling | agent.py:79-88 | a model that never says `"Done."` and never proposes a call is invoked 10 times; the conversation and the transcript are unchanged |
| Agent.TextThenDone | agent.py:79-87 | a plain-text reply and then `"Done."` to the same conversation end the run after two invocations, with no tool call and the conversation and the transcript unchanged |
| Agent.AppendBlock | agent.py:91-101 | the lines the loop body appends for one tool call are exactly that call's block |
| Agent.RunLoop | agent.py:74-102 | the `while` loop computes exactly `RunFrom` from both counters at zero and an empty transcript; at exit the tool counter is at most the invocation counter, which is at most 10; SaidDone means the reply to the last invocation was `"Done."`; BudgetExhausted means 10 invocations |
| Agent.RunAgent | agent.py:39-106 | the run from the eight initial messages is `RunFrom`; a finished run keeps those messages first and writes its transcript to `log_<query name>`; a run ended by an exception writes no file |
| Tools.Catalog | tools.py:172-294 | the catalog has five entries |
| Tools.CatalogNames | tools.py:180-294 | the entry names, in order, are `extract_entities_from_file`, `Internet_search_attribute`, `Internet_search_attribute`, `execute_Python_program`, `write_file`; no entry is named `generate_analysis_program` |
| Tools.CatalogShape | tools.py:173-187 | every entry is of type `function` with an `object` parameter block; the i-th entry's description is the i-th docstring |
| Tools.CatalogPropertiesAreStrings | tools.py:188-289 | every declared property has type `string` |
| Tools.ExecuteEntryParameters | tools.py:256-271 | the execution entry declares only `program_file`, and that is its required list |
| Tools.CatalogRequiredMatch | tools.py:198-269 | the first, second and fourth entries require exactly the parameters they declare |
| Tools.GenerateEntryRequiredUndeclared | tools.py:229-252 | the analysis entry requires `analysis_request`, which it does not declare |
| Tools.WriteFileEntryRequiredUndeclared | tools.py:279-290 | the write_file entry requires `entity` and `attribute`, and declares neither |
| Tools.CorrectedCatalog | tools.py:223-293 | the repaired catalog has five entries; it leaves the first, second and fourth entries as they are; every entry requires exactly its declared parameters |
| Tools.CorrectedCatalogConsistent | tools.py:223-293 | in the repaired catalog every required parameter is declared, the third entry is named `generate_analysis_program`, and the five names are distinct |
| Tools.StripCodeFences | tools.py:141-144 | the cleaned program neither starts nor ends with whitespace and is no longer than the reply |
| Tools.StripCodeFencesUnfenced | tools.py:141-144 | a reply that neither starts with the opening fence nor ends with the closing fence is only stripped |
| Tools.StripCodeFencesWrapped | tools.py:141-144 | a program wrapped in one fenced block comes back stripped |
| Tools.StripCodeFencesOneLayer | tools.py:141-144 | only one layer of fences is removed: a doubly fenced program comes back with its inner fences |
| Tools.StripCodeFencesTrailingNewline | tools.py:142-144 | a fenced reply followed by a newline keeps its closing fence: the program comes back ending in it |
| Tools.StripCodeFencesTolerant | tools.py:141-144 | the clean-up with whitespace stripped first: the program neither starts nor ends with whitespace and is no longer than the reply |
| Tools.StripCodeFencesTolerantPadded | tools.py:141-144 | a fenced program with whitespace around the fences comes back stripped |
| Tools.ExecuteProgram | tools.py:147-161 | the call raises exactly when the file cannot be read or the program raises something that is not an `Exception`; a completed program gives `Successfully executed.`, and one that raises an `Exception` gives `Error: ` followed by its message |
| Tools.ExecuteProgramReported | tools.py:157-161 | a returned text identifies the outcome: the success text never starts with `Error: `, and a failure text carries the exception's message unchanged |

## Left out

- The language model service (agent.py:30-36, 80-84; tools.py:54, 85, 139) is not modelled. It is the parameter `model`: a function from the invocation's index and the conversation to the reply. The tool catalog it is also given never changes during a run, so it is folded into that function. Failures of the service are not modelled.
- The tools that call the model or the web search (`extract_entities_from_file`, `Internet_search_attribute`, the prompt of `generate_analysis_program`) are inside the parameter `dispatch`. Only the fence clean-up of the reply is modelled.
- `eval(tool_name)(**tool_args)` is the parameter `dispatch`, indexed by the tool call. It stands for the lookup by name, the keyword binding and the tool's own run. Rendering the tool's return value with `str()` is part of it, so that `write_file` returning `None` becomes the text `None`.
- JSON decoding of the arguments (agent.py:90) is not modelled. The arguments arrive decoded, as an ordered list of key and `str()`-rendered value pairs. An exception raised by `json.loads` is not modelled.
- File input and output are not modelled. This covers the run descriptor, the query file, the program file and the output files (agent.py:22-26, 105-106; tools.py:25-26, 154-155, 168-169). Only the computed log file name and the transcript text are kept. Reading the program file is an input (`FileRead`).
- `exec` of the generated program (tools.py:158) is the parameter `exec`. It yields an outcome: completed, raised an `Exception`, or raised a `BaseException` that is not an `Exception`.
- The docstrings placed in the catalog are a parameter (`Docstrings`). Their exact text depends on the Python version, which may dedent them.
- Environment and credential setup (agent.py:28-36; tools.py:8-15) is not modelled.
- The file resources are given as the text that the f-string at agent.py:70 renders.
- The log file name `log_` + query name (agent.py:105) is computed. Directory components in the query name are not interpreted.
- Calls that never return are not modelled. `exec` of a program that loops forever, a model or search service that blocks, and a tool that hangs all stop the program for good, since nothing sets a timeout. Such a program never writes the transcript. In the model every invocation and every dispatch returns, so `RunFrom` always ends.
- AppendBlock: the loop body appends the entering marker and the parameter line before the dispatch, and the rest after it. The model appends the whole block once the result is known. A dispatch that raises ends the run without writing the transcript, so the written transcript is the same.

## Findings

| source | as written | input that shows it | evidently intended | confidence | as-written member | corrected member |
|---|---|---|---|---|---|---|
| tools.py:226 | the entry commented `generate_analysis_program` is named `Internet_search_attribute` | any run: the model is offered two tools with the same name and none named `generate_analysis_program` | the name `generate_analysis_program` | high, not executed | Tools.CatalogNames | Tools.CorrectedCatalogConsistent |
| tools.py:252 | the required list starts with `analysis_request` | the declared parameters are `query_description`, `input_file`, `columns`, `row_example` and `output_file` | `query_description`, the parameter the function takes | high, not executed | Tools.GenerateEntryRequiredUndeclared | Tools.CorrectedCatalogConsistent |
| tools.py:290 | the write_file entry requires `entity` and `attribute` | the declared parameters are `file_content` and `output_file` | `file_content` and `output_file` | high, not executed | Tools.WriteFileEntryRequiredUndeclared | Tools.CorrectedCatalogConsistent |
| tools.py:142-144 | the fences are removed before the surrounding whitespace is stripped | the reply `` ```python\nx\n```\n `` gives `` x\n``` ``, with the closing fence left in the program | strip the whitespace first, so that the fenced program comes back alone | medium, not executed | Tools.StripCodeFencesTrailingNewline | Tools.StripCodeFencesTolerantPadded |
