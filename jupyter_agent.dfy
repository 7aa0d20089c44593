/** `JupyterCodeAgent` (webapp/agent/jupyter_agent.py): the same
    reason-then-execute loop, run through a `KernelManager`. It does not
    check `max_iter`, builds its prompt once from the kernel's tool list,
    observes an error without looking for a final answer, and on a final
    answer writes the observation and then the answer. */
module JupyterAgent {
  import opened Wrappers
  import opened Text
  import opened Protocol
  import opened FinalAnswer
  import opened ResponseParser
  import opened AgentLoop
  import opened JupyterKernel

  const ToolsFailurePrefix: string := "Failed to get tools: "

  /** The code `initialize` runs in the kernel to print the tool registry. */
  const InitCode: string :=
    "\n# Import and set up tools manually\nimport sys\nimport os\nsys.path.append('/home/jupyter')\n\n"
    + "from tools import tool_registry\nprint(tool_registry.get_tools())\n"

  /** The language model and the kernel's answers: call `k` of the loop gets
      `llm(k, history)`, and executing `code` in iteration `k` meets
      `kernel(k, code)`. */
  datatype Env = Env(
    llm: (nat, seq<Message>) -> Completion,
    json: Json,
    kernel: (nat, string) -> Connection)

  /** `JupyterCodeAgentResponse` after an iteration. */
  datatype JupyterResponse = JupyterResponse(step: Step, observation: string, finalAnswer: Option<string>)

  /** `if result["error"]`: an error string that is present and non-empty. */
  predicate ReportsError(result: KernelResult) {
    result.error.Some? && result.error.value != ""
  }

  /** What `initialize` yields when the kernel answers the registry dump
      over `conn`: the prompt built by `loadPrompt` from the printed
      registry, or the exception it raises. */
  function InitPrompt(wsUrl: Option<string>, conn: Connection, loadPrompt: string -> Result<string, Exception>): Result<string, Exception> {
    match Execution(wsUrl, conn)
    case Failure(e) => Failure(e)
    case Success(result) =>
      if ReportsError(result) then Failure(Error(ToolsFailurePrefix + result.error.value))
      else loadPrompt(result.output)
  }

  /** The rest of an iteration once `step` was parsed and the assistant
      message written: what the kernel answered. */
  function Observe(step: Step, execution: Result<KernelResult, Exception>): (r: Iteration<JupyterResponse>)
    ensures r.Raised? <==> execution.Failure?
    ensures r.Raised? ==> r.added == [Message(Assistant, AssistantContent(step))]
    ensures r.Continue? ==> |r.added| == 2 && r.added[0] == Message(Assistant, AssistantContent(step)) && r.added[1].role == System
    ensures r.Done? ==> |r.added| == 3 && r.added[0] == Message(Assistant, AssistantContent(step))
    ensures r.Done? ==> r.added[1] == Message(System, "Observation: " + execution.value.output)
    ensures r.Done? <==> execution.Success? && !ReportsError(execution.value) && HasAnswer(ParseFinalAnswer(execution.value.output))
  {
    var assistant := Message(Assistant, AssistantContent(step));
    match execution
    case Failure(e) => Raised([assistant], e)
    case Success(result) =>
      if ReportsError(result) then
        var observation := "Error: " + result.error.value;
        Continue([assistant, Message(System, "Observation: " + observation)], JupyterResponse(step, observation, None))
      else
        var seen := Message(System, "Observation: " + result.output);
        var answer := ParseFinalAnswer(result.output);
        if HasAnswer(answer) then
          Done([assistant, seen, Message(System, "Final Answer: " + answer.value)], JupyterResponse(step, result.output, answer))
        else Continue([assistant, seen], JupyterResponse(step, result.output, None))
  }

  /** Iteration `k` of the loop in `answer_question`, with the kernel's
      `ws_url` being `wsUrl`. */
  function JupyterIteration(h: seq<Message>, k: nat, env: Env, wsUrl: Option<string>): (r: Iteration<JupyterResponse>)
    ensures RaisesCleanly(r) && ContinuesWithPair(r)
    ensures r.Done? ==> |r.added| == 3 && r.added[0].role == Assistant && r.added[1].role == System
  {
    match env.llm(k, h)
    case CompletionFailed(e) => Raised([], e)
    case Reply(text) =>
      match ParseJupyter(text, env.json)
      case Failure(e) => Raised([], e)
      case Success(step) => Observe(step, Execution(wsUrl, env.kernel(k, step.code)))
  }

  function JupyterStep(env: Env, wsUrl: Option<string>): Pass<JupyterResponse> {
    (h: seq<Message>, k: nat) => JupyterIteration(h, k, env, wsUrl)
  }

  /** The loop of `answer_question` on history `h` with `max_iter = n`. */
  function JupyterLoop(h: seq<Message>, n: int, env: Env, wsUrl: Option<string>): Outcome<JupyterResponse> {
    Run(JupyterStep(env, wsUrl), h, 0, n, None)
  }

  class JupyterCodeAgent {
    const maxIter: int
    var systemPrompt: Option<string>
    var messages: seq<Message>

    /** `__init__`: no check on `max_iter`, no prompt yet. */
    constructor(maxIter: int)
      ensures this.maxIter == maxIter && systemPrompt == None && messages == []
    {
      this.maxIter := maxIter;
      systemPrompt := None;
      messages := [];
    }

    /** `if not self.system_prompt`. */
    predicate NeedsPrompt()
      reads this
    {
      systemPrompt.None? || systemPrompt.value == ""
    }

    method AddMessage(role: Role, content: string)
      modifies this
      ensures messages == old(messages) + [Message(role, content)]
      ensures systemPrompt == old(systemPrompt)
    {
      messages := messages + [Message(role, content)];
    }

    /** `initialize`: run the registry dump in the kernel; an error there
      fails, otherwise `loadPrompt` (the `eval` of the printed registry and
      the template, both outside the core) yields the prompt. */
    method Initialize(kernel: KernelManager, conn: Connection, loadPrompt: string -> Result<string, Exception>)
      returns (r: Result<(), Exception>)
      modifies this
      ensures messages == old(messages)
      ensures var execution := Execution(kernel.wsUrl, conn);
        && (execution.Failure? ==> r == Failure(execution.error) && systemPrompt == old(systemPrompt))
        && (execution.Success? && ReportsError(execution.value) ==>
            r == Failure(Error(ToolsFailurePrefix + execution.value.error.value)) && systemPrompt == old(systemPrompt))
        && (execution.Success? && !ReportsError(execution.value) ==>
            match loadPrompt(execution.value.output)
            case Failure(e) => r == Failure(e) && systemPrompt == old(systemPrompt)
            case Success(p) => r == Success(()) && systemPrompt == Some(p))
      ensures var p := InitPrompt(kernel.wsUrl, conn, loadPrompt);
        && (p.Failure? ==> r == Failure(p.error) && systemPrompt == old(systemPrompt))
        && (p.Success? ==> r.Success? && systemPrompt == Some(p.value))
    {
      var result := kernel.ExecuteCode(InitCode, conn);
      if result.Failure? {
        return Failure(result.error);
      }
      if ReportsError(result.value) {
        return Failure(Error(ToolsFailurePrefix + result.value.error.value));
      }
      var prompt := loadPrompt(result.value.output);
      if prompt.Failure? {
        return Failure(prompt.error);
      }
      systemPrompt := Some(prompt.value);
      return Success(());
    }

    /** The body of the `try` in the loop. */
    method Iterate(k: nat, env: Env, kernel: KernelManager) returns (it: Iteration<JupyterResponse>)
      modifies this
      ensures it == JupyterIteration(old(messages), k, env, kernel.wsUrl)
      ensures messages == old(messages) + it.added
      ensures systemPrompt == old(systemPrompt)
    {
      var completion := env.llm(k, messages);
      if completion.CompletionFailed? {
        return Raised([], completion.raised);
      }
      var parsed := ParseJupyter(completion.text, env.json);
      if parsed.Failure? {
        return Raised([], parsed.error);
      }
      it := ObserveStep(parsed.value, env.kernel(k, parsed.value.code), kernel);
    }

    /** The rest of an iteration once `step` was parsed: the assistant
        message, the execution, and what the loop records of it. */
    method ObserveStep(step: Step, conn: Connection, kernel: KernelManager) returns (it: Iteration<JupyterResponse>)
      modifies this
      ensures it == Observe(step, Execution(kernel.wsUrl, conn))
      ensures messages == old(messages) + it.added
      ensures systemPrompt == old(systemPrompt)
    {
      var h := messages;
      var assistant := Message(Assistant, AssistantContent(step));
      AddMessage(Assistant, AssistantContent(step));
      var result := kernel.ExecuteCode(step.code, conn);
      if result.Failure? {
        return Raised([assistant], result.error);
      }
      var res := result.value;
      if ReportsError(res) {
        var observation := "Error: " + res.error.value;
        AddMessage(System, "Observation: " + observation);
        assert messages == h + [assistant, Message(System, "Observation: " + observation)];
        return Continue([assistant, Message(System, "Observation: " + observation)], JupyterResponse(step, observation, None));
      }
      var seen := Message(System, "Observation: " + res.output);
      AddMessage(System, "Observation: " + res.output);
      assert messages == h + [assistant, seen];
      var answer := ParseFinalAnswer(res.output);
      if HasAnswer(answer) {
        AddMessage(System, "Final Answer: " + answer.value);
        assert messages == h + [assistant, seen, Message(System, "Final Answer: " + answer.value)];
        return Done([assistant, seen, Message(System, "Final Answer: " + answer.value)], JupyterResponse(step, res.output, answer));
      }
      return Continue([assistant, seen], JupyterResponse(step, res.output, None));
    }

    /** The `for _ in range(self.max_iter)` loop with its `break`. */
    method RunLoop(env: Env, kernel: KernelManager) returns (r: Result<(), Exception>)
      modifies this
      ensures r.Failure? ==> JupyterLoop(old(messages), maxIter, env, kernel.wsUrl) == Outcome.Failed(messages, r.error)
      ensures r.Success? ==> JupyterLoop(old(messages), maxIter, env, kernel.wsUrl).Returned?
      ensures r.Success? ==> JupyterLoop(old(messages), maxIter, env, kernel.wsUrl).history == messages
      ensures systemPrompt == old(systemPrompt)
    {
      var k: nat := 0;
      var last: Option<JupyterResponse> := None;
      while k < maxIter
        invariant systemPrompt == old(systemPrompt)
        invariant Run(JupyterStep(env, kernel.wsUrl), messages, k, maxIter, last)
          == JupyterLoop(old(messages), maxIter, env, kernel.wsUrl)
        decreases maxIter - k
      {
        var h := messages;
        var it := Iterate(k, env, kernel);
        RunUnfold(JupyterStep(env, kernel.wsUrl), it, h, k, maxIter, last);
        match it {
          case Raised(_, e) =>
            return Failure(Wrapped(e));
          case Done(_, _) =>
            return Success(());
          case Continue(_, response) =>
            last := Some(response);
        }
        k := k + 1;
      }
      return Success(());
    }

    /** `answer_question`: build the prompt if there is none yet (an
      exception from that leaves everything as it was), write the prompt
      and the question, run the loop, and on a normal end hand back the
      history and clear it. */
    method AnswerQuestion(message: string, kernel: KernelManager, initConn: Connection,
                          loadPrompt: string -> Result<string, Exception>, env: Env)
      returns (r: Result<seq<Message>, Exception>)
      modifies this
      ensures !old(NeedsPrompt()) ==> systemPrompt == old(systemPrompt)
      ensures r.Success? ==> messages == [] && systemPrompt.Some?
      ensures r.Failure? && !old(NeedsPrompt()) ==>
        var start := old(messages) + [Message(System, systemPrompt.value), Message(User, message)];
        JupyterLoop(start, maxIter, env, kernel.wsUrl) == Outcome.Failed(messages, r.error)
      ensures old(NeedsPrompt()) ==>
        var p := InitPrompt(kernel.wsUrl, initConn, loadPrompt);
        && (p.Failure? ==> r == Failure(p.error) && messages == old(messages) && systemPrompt == old(systemPrompt))
        && (p.Success? ==> systemPrompt == Some(p.value))
      ensures r.Failure? && (!old(NeedsPrompt()) || InitPrompt(kernel.wsUrl, initConn, loadPrompt).Success?) ==>
        var start := old(messages) + [Message(System, systemPrompt.value), Message(User, message)];
        JupyterLoop(start, maxIter, env, kernel.wsUrl) == Outcome.Failed(messages, r.error)
      ensures r.Failure? ==>
        || (old(NeedsPrompt()) && messages == old(messages) && systemPrompt == old(systemPrompt))
        || (systemPrompt.Some? &&
            var start := old(messages) + [Message(System, systemPrompt.value), Message(User, message)];
            JupyterLoop(start, maxIter, env, kernel.wsUrl) == Outcome.Failed(messages, r.error))
      ensures r.Success? ==>
        var start := old(messages) + [Message(System, systemPrompt.value), Message(User, message)];
        JupyterLoop(start, maxIter, env, kernel.wsUrl).Returned? && JupyterLoop(start, maxIter, env, kernel.wsUrl).history == r.value
    {
      if NeedsPrompt() {
        var init := Initialize(kernel, initConn, loadPrompt);
        if init.Failure? {
          return Failure(init.error);
        }
      }
      // a prompt that loads as "" is written as it is
      assert systemPrompt.Some?;
      var start0 := messages;
      AddMessage(System, systemPrompt.value);
      AddMessage(User, message);
      assert messages == start0 + [Message(System, systemPrompt.value), Message(User, message)];
      var result := RunLoop(env, kernel);
      if result.Failure? {
        return Failure(result.error);
      }
      var copy := messages;
      messages := [];
      return Success(copy);
    }
  }

  // ---------------------------------------------------------------------
  // Lemmas

  /** An error is observed as `"Error: ..."` and the loop goes on, whatever
      the output says: a final answer in it is not looked for. */
  lemma ErrorSkipsAnswer(step: Step, result: KernelResult)
    requires ReportsError(result)
    ensures Observe(step, Success(result)) == Continue(
      [Message(Assistant, AssistantContent(step)), Message(System, "Observation: Error: " + result.error.value)],
      JupyterResponse(step, "Error: " + result.error.value, None))
  {
    assert "Observation: " + ("Error: " + result.error.value) == "Observation: Error: " + result.error.value;
  }

  /** A final answer in an error-free output is written after the
      observation, and the loop stops. */
  lemma AnswerAfterObservation(step: Step, result: KernelResult)
    requires !ReportsError(result) && HasAnswer(ParseFinalAnswer(result.output))
    ensures Observe(step, Success(result)) == Done(
      [Message(Assistant, AssistantContent(step)),
       Message(System, "Observation: " + result.output),
       Message(System, "Final Answer: " + ParseFinalAnswer(result.output).value)],
      JupyterResponse(step, result.output, ParseFinalAnswer(result.output)))
  {
  }

  /** The printed sentinel in a clean run ends the loop with its answer. */
  lemma SentinelEndsLoop(step: Step, before: string, answer: string, after: string)
    requires !Contains(before, Open) && answer != ""
    requires '\n' !in answer && !Contains(answer, Close)
    ensures var output := before + Sentinel(answer) + after;
      Observe(step, Success(KernelResult(output, None, 0))) == Done(
        [Message(Assistant, AssistantContent(step)),
         Message(System, "Observation: " + output),
         Message(System, "Final Answer: " + answer)],
        JupyterResponse(step, output, Some(answer)))
  {
    SentinelRoundTrip(before, answer, after);
  }

  /** The client has no `chat_completion_sync` attribute (it offers only
      the asynchronous `chat_completion`): looking it up raises
      `AttributeError` with this text. */
  const MissingSyncMessage: string := "'OpenRouter' object has no attribute 'chat_completion_sync'"

  /** `self.llm.chat_completion_sync(...)` as written, whatever the
      iteration and the history. */
  function CompletionAsWritten(k: nat, h: seq<Message>): Completion {
    CompletionFailed(AttributeError(MissingSyncMessage))
  }

  /** With the completion called as written, the first pass of the loop
      raises: the history is the start, unanswered, and the wrapped
      attribute error leaves. */
  lemma AsWrittenNeverAnswers(start: seq<Message>, n: int, env: Env, wsUrl: Option<string>)
    requires n > 0
    requires forall k, h :: env.llm(k, h) == CompletionAsWritten(k, h)
    ensures JupyterLoop(start, n, env, wsUrl) == Outcome.Failed(start, ValueError(ProcessingPrefix + MissingSyncMessage))
  {
    assert JupyterIteration(start, 0, env, wsUrl) == Raised([], AttributeError(MissingSyncMessage));
    assert start + [] == start;
  }

  /** The transcript `answer_question` hands back after a normal end: the
      prompt and the question, then assistant and system messages
      alternately, two per iteration, plus the `"Final Answer: ..."`
      message when an iteration found one; without one all `max_iter`
      iterations ran, and with `max_iter <= 0` none did. */
  lemma JupyterTranscript(start: seq<Message>, n: int, env: Env, wsUrl: Option<string>)
    requires JupyterLoop(start, n, env, wsUrl).Returned?
    ensures var h := JupyterLoop(start, n, env, wsUrl).history;
      var step := JupyterStep(env, wsUrl);
      var passes := Passes(step, start, 0, n);
      && |h| == |start| + 2 * passes + (if EndsDone(step, start, 0, n) then 1 else 0)
      && h[..|start|] == start
      && (forall t :: |start| <= t < |start| + 2 * passes ==> h[t].role == RoleAt(t - |start|))
      && (!EndsDone(step, start, 0, n) ==> passes == if n > 0 then n else 0)
      && (n > 0 ==> JupyterLoop(start, n, env, wsUrl).last.Some?)
      && (n <= 0 ==> h == start)
  {
    var step := JupyterStep(env, wsUrl);
    assert forall g, j :: step(g, j) == JupyterIteration(g, j, env, wsUrl);
    RunExtends(step, start, 0, n, None);
    RunLength(step, 3, start, 0, n, None);
    RunAlternates(step, start, 0, n, None);
    RunExhausted(step, start, 0, n, None);
  }
}
