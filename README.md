# A verified model of the code_agent reason-then-execute loop

The code_agent repository runs a language model in a loop. It asks the model
for a *thought* and a piece of Python *code*, executes the code, writes the
outcome back into the chat history as an *observation*, and stops once the
executed code prints the final-answer sentinel
`<SYSTEM>Final answer is ...<SYSTEM>`. This project models that core in
Dafny and proves properties of the model. The core is:

- the reply parser and code validator (`_parse_llm_response`,
  `_validate_llm_code`, `check_not_empty`);
- final-answer detection (`_parse_final_answer_str`) together with the
  `final_answer` tool that prints the sentinel;
- the three agent loops and the transcripts they keep:
  - the webapp `CodeAgent`;
  - the webapp `JupyterCodeAgent`;
  - the single-step command-line `CodeAgent`;
- `JupyterKernelManager`:
  - the `kernel_id`/`ws_url` lifecycle;
  - the readiness poll;
  - the fold of websocket frames into `{output, error, exit_code}`;
- the tool-list rendering of the system prompt (`_generate_tools_string`);
- the chat-history formatter (`format_chat_history`).

Modules, one concept each:

| module | file | models |
|---|---|---|
| `Text` | text.dfy | the Python `str` operations the code uses: `find`, slicing, `strip`, `split`, `join`, `replace`, `upper` |
| `Protocol` | protocol.dfy | messages, roles, the parsed step, exceptions, the model and executor replies |
| `ResponseParser` | response_parser.dfy | both forms of `_parse_llm_response`, and `CodeAgentResponse` validation |
| `CodeBlock` | code_block.dfy | `_validate_llm_code`, with the fence regular expression written out in backtracking order |
| `FinalAnswer` | final_answer.dfy | the final-answer regular expression under `re.search` semantics, and the sentinel round trip |
| `AgentLoop` | agent_loop.dfy | `for _ in range(max_iter)` with a re-raise and an early exit, generic in what one iteration does |
| `WebAgent` | webapp_agent.dfy | the webapp `CodeAgent` class |
| `JupyterAgent` | jupyter_agent.dfy | the `JupyterCodeAgent` class |
| `JupyterKernel` | jupyter_kernel.dfy | the `JupyterKernelManager` class |
| `SingleStepAgent` | agent_single.dfy | the command-line `CodeAgent` class |
| `ExecutorClient` | executor_client.dfy | `CodeExecutorClient.__call__` as its callers see it |
| `ToolsPrompt` | tools_prompt.dfy | `_generate_tools_string` |
| `ChatFormatter` | chat_formatter.dfy | `format_chat_history` |

The Python classes become Dafny classes whose `messages`, `systemPrompt`,
`kernelId` and `wsUrl` fields their methods update in place. Each loop method
is proved equal to a specification function. For example, the invariant of
`WebAgent.CodeAgent.ProcessMessage` is that the rest of the loop from the
current history and iteration equals `WebLoop` on the original history. The
transcript properties are proved once, about the generic `AgentLoop.Run`, and
then applied to each agent.

Everything outside the core is a parameter:

- The language model is a function from the iteration number and the history
  to a `Completion`. Any scripted sequence of replies is a special case.
  The Jupyter agent calls `chat_completion_sync`, which its client does not
  define (see "## Findings"). `JupyterAgent.AsWrittenNeverAnswers` covers that
  call as written. The rest of the Jupyter model takes the oracle to be the
  synchronous completion that was evidently intended.
- The code executor is a function from the iteration number and the code to
  an `ExecOutcome`.
- `json.loads` followed by the pydantic constructor is an oracle of type `Json`.
- `ast.parse` is an oracle of type `Syntax`.
- The kernel's websocket is the list of frames it delivers (a `Connection`).
- The gateway's HTTP answers are values (`post`, `poll`, `delete`).

Where the code and its documented intent disagree, the model follows the code:

- A text reply whose code is an empty fenced block is accepted with empty
  code. The non-empty validator runs before fence extraction, and
  `ast.parse("")` succeeds (`ResponseParser.EmptyCodeAccepted`).
- The webapp loop stops on a final answer even when the executor also
  reported an error. In that case the error observation is written and no
  final answer is stored (`WebAgent.ErrorWithAnswerStops`).

## Model

| member | source | states |
|---|---|---|
| ResponseParser.CheckNotEmpty | webapp/agent/agent.py:32-37 | succeeds exactly when the value is non-blank after stripping, and returns the stripped value; otherwise raises `ValueError("Field cannot be empty")` |
| ResponseParser.EmptyFields | webapp/agent/agent.py:32-37 | the validation error names `thought`, `code`, or both, exactly when that field's validator fails |
| ResponseParser.BuildResponse | webapp/agent/agent.py:24-37 | the response model is built exactly when both fields are non-blank, with both stripped; otherwise a `ValidationError` names the failing fields |
| ResponseParser.SliceFields | webapp/agent/agent.py:206-213 | no slice exactly when a marker is missing; both slices are stripped; the code is the stripped text after the first `Code:` |
| ResponseParser.ParseResponse | webapp/agent/agent.py:198-218 | an accepted reply has a non-blank, stripped thought; a text reply's code passed the syntax check; a JSON reply is just the response model built from its fields |
| ResponseParser.ParseJupyter | webapp/agent/jupyter_agent.py:143-158 | JSON fields are taken as they are and a rejection propagates; a text reply fails with `ValueError` exactly when a marker is missing, otherwise it yields the two slices |
| ResponseParser.CheckNotEmptyIdempotent | webapp/agent/agent.py:32-37 | a value the validator accepted passes it again unchanged |
| ResponseParser.BuildResponseIdempotent | webapp/agent/agent.py:24-37 | building the response model from a built response gives the same response |
| ResponseParser.ValidationErrorNamesBlankFields | webapp/agent/agent.py:32-37 | a validation error names at least one field, and exactly the blank ones |
| ResponseParser.MissingMarkers | webapp/agent/agent.py:206-210 | a text reply fails with the markers `LLMCodeParseError` if and only if `Thought:` or `Code:` is absent |
| ResponseParser.CodeBeforeThought | webapp/agent/agent.py:206-215 | when `Code:` comes before `Thought:` the thought slice is empty and validation rejects `thought` |
| ResponseParser.StructuredSkipsValidation | webapp/agent/agent.py:200-202 | on the JSON path, non-blank fields come back stripped, with no fence extraction and no syntax check |
| ResponseParser.MarkersInAssistantContent | webapp/agent/agent.py:158 | in the assistant message the loop writes, `Thought:` is found at 0 and `Code:` right after the thought |
| ResponseParser.SliceAssistantContent | webapp/agent/agent.py:206-213 | slicing the assistant message gives back the stripped thought and code |
| ResponseParser.AssistantContentReparses | webapp/agent/agent.py:158 | the assistant message re-parses, under both parsers, to the step it was written from, when that step is one a text reply can produce |
| ResponseParser.TextReply | agent/agent.py:109-121 | a text reply with both markers parses to its two slices, checked by the validator and then by code validation |
| ResponseParser.ParsersFailTogether | webapp/agent/jupyter_agent.py:147-153 | on a text reply both parsers fail on the same replies: those missing a marker |
| ResponseParser.ParsersAgreeOnText | webapp/agent/jupyter_agent.py:147-158 | when the code agents accept a text reply, the Jupyter parser yields the same thought, and code that validates to the same code |
| ResponseParser.EmptyCodeAccepted | webapp/agent/agent.py:212-216 | a reply whose code is an empty fenced block is accepted with empty code |
| CodeBlock.BodyEnd | webapp/agent/agent.py:232 | the lazy body ends at the first closing fence after its start, and there is none when no closing fence follows |
| CodeBlock.SpaceRun | webapp/agent/agent.py:232 | greedy `\s*` takes the longest run of whitespace |
| CodeBlock.TryNewlineAt | webapp/agent/agent.py:232 | a body found after `\s*\n` holds no closing fence |
| CodeBlock.FenceAt | webapp/agent/agent.py:232-233 | a match at a position starts with three backticks, and its body holds no closing fence |
| CodeBlock.FirstBlockFrom | webapp/agent/agent.py:233-236 | with no block at any later position the result is none; a block found is the match at the leftmost position from which the pattern matches, and holds no closing fence |
| CodeBlock.FirstBlock | webapp/agent/agent.py:232-236 | `code_blocks[0]`: none exactly when the pattern matches nowhere, otherwise the match at the leftmost matching position |
| CodeBlock.ValidateCode | webapp/agent/agent.py:219-243 | the candidate is the stripped first block when there is one, else the input; it is accepted, and returned, exactly when it passes the syntax check; a rejection is `LLMCodeParseError("Invalid Python code: " + the syntax error)` |
| CodeBlock.NoClosingNoBlock | webapp/agent/agent.py:232-236 | text without a closing fence has no block |
| CodeBlock.ValidateIdempotent | webapp/agent/agent.py:219-243 | validating validated code returns it unchanged |
| CodeBlock.PlainFenceAt | webapp/agent/agent.py:232 | an untagged fence matches with the body it encloses |
| CodeBlock.PyFenceAt | webapp/agent/agent.py:232 | a fence tagged `py` matches with the body it encloses |
| CodeBlock.PythonFenceAt | webapp/agent/agent.py:232 | a fence tagged `python` matches: `py` is tried first and fails on the `t` |
| CodeBlock.FencedBlockFound | webapp/agent/agent.py:232-236 | a fenced block with no backtick before it is the first block, and its body is extracted exactly |
| CodeBlock.ValidateFencedBlock | agent/agent.py:136-146 | validating such a block yields its stripped body when that parses |
| CodeBlock.ValidateWithoutBlock | agent/agent.py:140-148 | without a fence the code comes back unchanged when it parses; otherwise the syntax error is reported |
| CodeBlock.EmptyBlockAccepted | webapp/agent/agent.py:235-241 | an empty fenced block validates to empty code |
| FinalAnswer.CloseFrom | webapp/agent/agent.py:18 | the lazy payload ends at the first closing tag, and fails at a newline before it |
| FinalAnswer.MatchAt | webapp/agent/agent.py:18 | at a position, the shortest match, if there is any match there |
| FinalAnswer.SearchFrom | webapp/agent/agent.py:195 | the leftmost match, with its shortest payload, or none when nothing matches |
| FinalAnswer.ParseFinalAnswer | webapp/agent/agent.py:194-196 | none exactly when nothing matches; otherwise the payload of the match `re.search` reports |
| FinalAnswer.PayloadIsOneTagFreeLine | webapp/agent/jupyter_agent.py:139-141 | a payload never contains a newline or the closing tag |
| FinalAnswer.SentinelRoundTrip | service/code_executor/server.py:25-26 | what the `final_answer` tool prints is detected as its answer, whatever surrounds it, when the text before it holds no opening tag and the answer is one line without the closing tag |
| FinalAnswer.FortyTwo | service/jupyter_kernel/tools.py:73-79 | the tool's own line for `42` yields `42` |
| FinalAnswer.NoTagNoAnswer | webapp/agent/agent.py:194-196 | output without the closing tag has no final answer |
| FinalAnswer.MissingCloseTag | webapp/agent/agent.py:194-196 | a sentinel whose closing tag is missing yields no answer |
| AgentLoop.Passes | webapp/agent/agent.py:145-178 | a loop with iterations left runs between 1 and `max_iter` of them |
| AgentLoop.RunExtends | webapp/agent/agent.py:145-183 | the loop only appends: the history it started from is a prefix of the one it ends with, whether or not it raised |
| AgentLoop.LaterIterationsIrrelevant | webapp/agent/agent.py:177-178 | once an iteration ends the loop, a larger `max_iter` changes nothing |
| AgentLoop.RunExhausted | webapp/agent/agent.py:185-187 | a normal end without a final answer ran all `max_iter` iterations, and with `max_iter > 0` it has a last response |
| AgentLoop.RunLength | webapp/agent/agent.py:145-178 | a normal end appended two messages per iteration, plus the extra messages of a final one |
| AgentLoop.RunAlternates | webapp/agent/agent.py:158-175 | the appended messages alternate assistant and system |
| WebAgent.Respond | webapp/agent/agent.py:165-175 | a final answer is stored exactly when there is no error and the output holds a non-empty answer; the observation is stored exactly when the answer is not |
| WebAgent.Observe | webapp/agent/agent.py:158-178 | an iteration that ran appends the assistant message and one system message, and ends the loop exactly when the output holds a non-empty answer |
| WebAgent.WebIteration | webapp/agent/agent.py:146-183 | a failing iteration appends at most the assistant message; one that goes on appends the assistant and a system message |
| WebAgent.CodeAgent.constructor | webapp/agent/agent.py:45-55 | a new agent keeps `max_iter` and the prompt, with an empty history |
| WebAgent.CodeAgent.Create | webapp/agent/agent.py:45-58 | `max_iter <= 0` fails the assertion; a prompt that fails to load raises the wrapped loading error; otherwise the agent has an empty history |
| WebAgent.CodeAgent.AddMessage | webapp/agent/agent.py:98-100 | appends exactly the one message |
| WebAgent.CodeAgent.Iterate | webapp/agent/agent.py:146-178 | the iteration returns and appends exactly what `WebIteration` says |
| WebAgent.CodeAgent.ObserveStep | webapp/agent/agent.py:158-178 | the part after parsing appends and returns what `Observe` says |
| WebAgent.CodeAgent.ProcessMessage | webapp/agent/agent.py:131-187 | the loop's history and its result or re-raised `ValueError` are those of `WebLoop` |
| WebAgent.CodeAgent.AnswerQuestion | webapp/agent/agent.py:120-128 | on a normal end it returns the loop's history started with the prompt and the question, and clears the history; on an exception it leaves the history as the loop left it |
| WebAgent.ErrorWithAnswerStops | webapp/agent/agent.py:165-178 | an error together with a final answer writes the error observation, stores no answer, and still ends the loop |
| WebAgent.ErrorContinues | webapp/agent/agent.py:167-169 | an error without an answer writes `Observation: Error: ... Exit code: ...` and goes on |
| WebAgent.ExitCodeAloneIsNoError | webapp/agent/agent.py:164-175 | a non-zero exit code with an empty error is observed as plain output |
| WebAgent.AnswerWithoutError | webapp/agent/agent.py:170-172 | a final answer without an error writes `Final Answer: ...` and ends the loop |
| WebAgent.SentinelEndsLoop | webapp/agent/agent.py:164-178 | a printed sentinel ends the loop with its answer |
| WebAgent.WebTranscript | webapp/agent/agent.py:120-187 | a normal end keeps the start, appends two alternating messages per iteration, ran all `max_iter` iterations unless it found an answer, and has a last response |
| WebAgent.WebRunAlternates | webapp/agent/agent.py:180-183 | even a run that raised keeps its start and alternates roles |
| JupyterAgent.Observe | webapp/agent/jupyter_agent.py:111-128 | a kernel error writes one observation and goes on; a clean output writes the observation, and then the answer when there is one, which ends the loop |
| JupyterAgent.JupyterIteration | webapp/agent/jupyter_agent.py:100-133 | a failing iteration appends at most the assistant message; a final one appends three messages |
| JupyterAgent.JupyterCodeAgent.constructor | webapp/agent/jupyter_agent.py:22-27 | `max_iter` is not checked; there is no prompt and the history is empty |
| JupyterAgent.JupyterCodeAgent.AddMessage | webapp/agent/jupyter_agent.py:87-90 | appends exactly the one message |
| JupyterAgent.JupyterCodeAgent.Initialize | webapp/agent/jupyter_agent.py:29-48 | a kernel failure propagates; a reported error raises `Failed to get tools: ...`; otherwise the loaded prompt is stored; the history is untouched; in sum, it raises `InitPrompt`'s exception or stores `InitPrompt`'s prompt |
| JupyterAgent.JupyterCodeAgent.Iterate | webapp/agent/jupyter_agent.py:101-128 | the iteration returns and appends exactly what `JupyterIteration` says, and leaves the prompt alone |
| JupyterAgent.JupyterCodeAgent.ObserveStep | webapp/agent/jupyter_agent.py:111-128 | the part after parsing appends and returns what `Observe` says for the kernel's answer |
| JupyterAgent.JupyterCodeAgent.RunLoop | webapp/agent/jupyter_agent.py:100-133 | the loop's history and its result or re-raised `ValueError` are those of `JupyterLoop` |
| JupyterAgent.JupyterCodeAgent.AnswerQuestion | webapp/agent/jupyter_agent.py:92-137 | the prompt is built only when there is none. On the first call, an `initialize` failure raises that exact exception and changes nothing; otherwise the prompt built from the kernel's tool list is stored and written before the question. On a normal end it returns the loop's history and clears it; on an exception from the loop the history is as the loop left it |
| JupyterAgent.ErrorSkipsAnswer | webapp/agent/jupyter_agent.py:116-118 | a kernel error is observed as `Error: ...` and the output is not searched for an answer |
| JupyterAgent.AnswerAfterObservation | webapp/agent/jupyter_agent.py:119-128 | a final answer is written after the observation, and the loop stops |
| JupyterAgent.SentinelEndsLoop | webapp/agent/jupyter_agent.py:119-128 | a printed sentinel in a clean run ends the loop with its answer |
| JupyterAgent.AsWrittenNeverAnswers | webapp/agent/jupyter_agent.py:101-108 | with the completion called as written, a loop of at least one iteration raises `Error processing message: 'OpenRouter' object has no attribute 'chat_completion_sync'` and leaves the history at its start |
| JupyterAgent.JupyterTranscript | webapp/agent/jupyter_agent.py:92-137 | a normal end keeps the start and appends two alternating messages per iteration, plus one for a final answer; it ran all iterations unless it found an answer; with `max_iter <= 0` it is exactly the start |
| JupyterKernel.StreamTexts | webapp/agent/jupyter_kernel.py:104-105 | no more texts than frames |
| JupyterKernel.ReplyAt | webapp/agent/jupyter_kernel.py:94-110 | the position of the first `execute_reply` frame, or none |
| JupyterKernel.PollsFrom | webapp/agent/jupyter_kernel.py:32-52 | the poll count stays within the 30-poll bound |
| JupyterKernel.KernelManager.constructor | webapp/agent/jupyter_kernel.py:11-14 | no kernel id and no websocket URL |
| JupyterKernel.KernelManager.ExecuteCode | webapp/agent/jupyter_kernel.py:59-120 | without a kernel it raises the `RuntimeError`; otherwise the frame fold gives `Execution`; the exit code is 1 exactly when an error was recorded |
| JupyterKernel.KernelManager.WaitUntilIdle | webapp/agent/jupyter_kernel.py:32-52 | the poll stops at the first `idle` status within 30 polls; every other answer counts one poll |
| JupyterKernel.KernelManager.CreateKernel | webapp/agent/jupyter_kernel.py:16-57 | a failed request changes nothing; otherwise the id and the channels URL are stored, and the result is the id, or the timeout when the poll ran out |
| JupyterKernel.KernelManager.ShutdownKernel | webapp/agent/jupyter_kernel.py:128-142 | nothing happens without a kernel id; a failed request keeps both fields; otherwise both are cleared |
| JupyterKernel.ExitCodeIsErrorFlag | webapp/agent/jupyter_kernel.py:113-117 | the exit code is 1 exactly when an error frame was read, and 0 exactly when none was |
| JupyterKernel.LastErrorIsSomeErrorFrame | webapp/agent/jupyter_kernel.py:106-107 | an error is recorded exactly when some error frame was read |
| JupyterKernel.LastErrorWins | webapp/agent/jupyter_kernel.py:106-107 | the recorded error is `ename: evalue` of the last error frame |
| JupyterKernel.StreamTextsAppend | webapp/agent/jupyter_kernel.py:104-105 | stream texts are collected in arrival order |
| JupyterKernel.OnlyStreamsAddText | webapp/agent/jupyter_kernel.py:104-110 | frames other than stream frames add no text |
| JupyterKernel.AfterReplyIgnored | webapp/agent/jupyter_kernel.py:108-110 | frames after the first `execute_reply` are never read |
| JupyterKernel.SingleStream | webapp/agent/jupyter_kernel.py:104-117 | one stream frame and the reply give its text, no error and exit code 0 |
| JupyterKernel.SecondErrorOverwrites | webapp/agent/jupyter_kernel.py:106-107 | a second error frame overwrites the first |
| JupyterKernel.PollStopsAtFirstIdle | webapp/agent/jupyter_kernel.py:41-43 | the poll count is the position of the first `idle` status |
| JupyterKernel.NeverIdleTimesOut | webapp/agent/jupyter_kernel.py:44-55 | a `dead` kernel does not stop the poll; thirty non-idle answers reach the timeout |
| SingleStepAgent.ProcessExchange | agent/agent.py:47-96 | user message first; success means the model replied, the reply parsed to the returned step, and the executor answered, and it appends the assistant message and `Observation: ...` with the observation built from that answer; a failure raises a `ValueError` whose text starts with `Error processing message: `, and the last message written is `Error: ` followed by that text |
| SingleStepAgent.CodeAgent.constructor | agent/agent.py:33-41 | the history is exactly the system prompt |
| SingleStepAgent.CodeAgent.AddMessage | agent/agent.py:43-45 | appends exactly the one message |
| SingleStepAgent.CodeAgent.ProcessMessage | agent/agent.py:47-96 | appends and returns exactly what `ProcessExchange` says |
| SingleStepAgent.CodeAgent.Execute | agent/agent.py:75-90 | the execution half appends the assistant message and then the observation or the error |
| SingleStepAgent.ExitCodeIgnored | agent/agent.py:81-88 | the exit code changes neither the history nor the response |
| ExecutorClient.Call | service/code_executor/client.py:19-39 | the reply's output, error and exit code; an `RpcError` becomes `("", str(e), 1)`; any other exception propagates; a result comes back exactly when nothing else was raised |
| ExecutorClient.ExecuteCodeAsWritten | agent/agent.py:81 | the `execute_code` lookup raises `AttributeError` for any code |
| Protocol.Wrapped | agent/agent.py:92-96 | the re-raised `ValueError`'s text is `Error processing message: ` followed by the original text, which can be read back after the prefix |
| SingleStepAgent.Observation | agent/agent.py:82-85 | a non-empty error is observed as `Error: ...`; otherwise the output is observed |
| SingleStepAgent.AsWrittenAlwaysFails | agent/agent.py:81 | with the client as written, every reply that parses ends in the attribute error |
| SingleStepAgent.ClientCallObserved | service/code_executor/client.py:19-39 | with the client's `__call__`, a reply that parses is observed; an `RpcError` reads as `Error: ...`, or as empty output when its text is empty |
| SingleStepAgent.ConversationGrows | agent/agent.py:43-45 | across calls the history only grows, by at least two messages per call |
| SingleStepAgent.ConversationKeepsPrompt | agent/agent.py:41 | the system prompt stays first |
| ToolsPrompt.ParamTexts | webapp/agent/agent.py:65 | one `name: type` per input, in order |
| ToolsPrompt.ToolBlocks | webapp/agent/agent.py:63-75 | one stub per tool, in order |
| ToolsPrompt.GenerateToolsString | webapp/agent/agent.py:60-77 | the loop builds the blocks joined by a blank line |
| ToolsPrompt.BlockLines | webapp/agent/agent.py:64-75 | a single-line tool's stub is four lines: signature, quotes, description, quotes |
| ToolsPrompt.BlockApart | webapp/agent/agent.py:69-75 | such a stub has no blank line and ends with the closing quotes |
| ToolsPrompt.ToolsStringSplits | webapp/agent/jupyter_agent.py:50-67 | the rendering splits back at blank lines into one stub per tool, in order |
| ToolsPrompt.EveryToolListed | webapp/agent/jupyter_agent.py:53-67 | every tool's stub and `def name(` appear in the rendering |
| ChatFormatter.Indented | utils/chat_formatter.py:34-35 | each line gets a two-space prefix, and no line is added or lost |
| ChatFormatter.AppendIndented | utils/chat_formatter.py:43-44 | the loop appends the indented lines |
| ChatFormatter.AppendSections | utils/chat_formatter.py:32-40 | the section loops append the `Thought:` header, the indented thought, the `Code:` header and the indented code |
| ChatFormatter.AppendMessage | utils/chat_formatter.py:17-46 | the loop body appends exactly the lines of one message |
| ChatFormatter.FormatChatHistory | utils/chat_formatter.py:3-48 | the banner and then every message's lines in order, joined by newlines |
| ChatFormatter.EmptyHistory | utils/chat_formatter.py:12-15 | an empty history is the banner alone |
| ChatFormatter.BodyLinesAppend | webapp/utils/chat_formatter.py:17 | messages are rendered in input order: the lines of `a + b` are those of `a`, then those of `b` |
| ChatFormatter.SectionLinesWide | utils/chat_formatter.py:33-40 | every section line is at least two characters wide |
| ChatFormatter.ContentLinesWide | utils/chat_formatter.py:26-44 | every content line is at least two characters wide |
| ChatFormatter.MessageFrame | utils/chat_formatter.py:18-23 | a message starts with `[ROLE]` and an underline two longer than the role, and ends with an 80-dash rule |
| ChatFormatter.PlainContentShown | utils/chat_formatter.py:41-44 | plain content is shown line by line, and its lines, unindented and joined, are the content |
| ChatFormatter.ReplaceHead | utils/chat_formatter.py:29 | removing `Thought:` from an assistant message's head leaves the thought |
| ChatFormatter.AssistantSections | webapp/utils/chat_formatter.py:26-30 | an assistant message splits into its stripped thought and code |
| ChatFormatter.AssistantShownAsSections | webapp/utils/chat_formatter.py:26-40 | an assistant message is shown as its thought and code sections, line by line |

## Left out

- The language model client, the gRPC executor client of the webapp, and HTTP and websocket transport: the model sees only their answers, as parameters.
- `temperature`, `top_p` and the model name passed to the model client: they do not affect the loop.
- `async`/`await`: calls are sequential.
- Logging, and the console printing in `add_message` of the webapp agent: output only.
- `time.sleep` in the readiness poll: only the counting is modelled.
- Closing the websocket and `close()` on the agents: resource release only.
- Reading the prompt template file and `str.format`: the webapp agent receives the outcome as the `prompt` argument of `Create`.
- The `eval` of the kernel's printed tool registry, and the template that builds the Jupyter prompt: combined into the `loadPrompt` parameter of `Initialize`.
- `json.loads`, pydantic's construction from a dictionary, and `ast.parse`: oracles. The text of a pydantic `ValidationError` is reduced to `Field cannot be empty` plus the fields that failed.
- JSON decoding of kernel frames: a frame that is missing `header` or `content` keys is not modelled; frames arrive decoded.
- The tool registries and their reflection: the model starts from the tool list.
- The FastAPI entry points and the manager: these are outside the core.
- JupyterKernel.StreamTexts: its own contract only bounds the count. The order and content are stated by `StreamTextsAppend`, `OnlyStreamsAddText` and `SingleStream`.
- JupyterKernel.PollsFrom: its own contract only states the bound. Where the poll stops is stated by `PollStopsAtFirstIdle` and `NeverIdleTimesOut`.

## Findings

| source | as written | input that shows it | evidently intended | confidence | as-written member | corrected member |
|---|---|---|---|---|---|---|
| agent/agent.py:81 | `self.code_executor.execute_code(agent_response.code)`, but `CodeExecutorClient` defines only `__call__` (service/code_executor/client.py:19), so the lookup raises `AttributeError` | any model reply that parses, e.g. `Thought: t` newline `Code: print(1)` | `self.code_executor(agent_response.code)`, as the webapp agent does at webapp/agent/agent.py:164 | not executed | SingleStepAgent.AsWrittenAlwaysFails | SingleStepAgent.ClientCallObserved |
| webapp/agent/jupyter_agent.py:103 | `self.llm.chat_completion_sync(...)`, but `OpenRouter` defines only the asynchronous `chat_completion` (webapp/llm/openrouter.py:43), so the lookup raises `AttributeError`, which the loop re-raises as `ValueError` | any question with `max_iter >= 1` | a synchronous completion call returning the reply text | not executed | JupyterAgent.AsWrittenNeverAnswers | JupyterAgent.JupyterTranscript |
