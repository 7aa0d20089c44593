/** The webapp `CodeAgent` (webapp/agent/agent.py): the reason-then-execute
    loop of `_process_message` and the transcript bookkeeping of
    `answer_question`. The language model and the gRPC code executor are
    scripted: call `k` of the loop gets `llm(k, history)` and
    `executor(k, code)`. */
module WebAgent {
  import opened Wrappers
  import opened Text
  import opened Protocol
  import opened FinalAnswer
  import opened CodeBlock
  import opened ResponseParser
  import opened AgentLoop

  const AssertMessage: string := "Assistant needs at least 1 step to give the final answer!"
  const LoadPromptPrefix: string := "Error loading code agent system prompt: "

  /** Everything outside the core that the loop consults. */
  datatype Env = Env(
    llm: (nat, seq<Message>) -> Completion,
    json: Json,
    syntax: Syntax,
    executor: (nat, string) -> ExecOutcome)

  /** `CodeAgentResponse` after an iteration: the parsed step, and the
      observation or the final answer the loop stored in it. */
  datatype AgentResponse = AgentResponse(step: Step, observation: Option<string>, finalAnswer: Option<string>)

  /** What the loop stores for one executor result, by priority: an error
      first, then a final answer, then the plain output. */
  function Respond(step: Step, output: string, error: string, exitCode: int): (r: AgentResponse)
    ensures r.step == step
    ensures r.finalAnswer.Some? <==> error == "" && HasAnswer(ParseFinalAnswer(output))
    ensures r.observation.Some? <==> r.finalAnswer.None?
  {
    var answer := ParseFinalAnswer(output);
    if error != "" then AgentResponse(step, Some("Error: " + error + ". Exit code: " + IntToString(exitCode)), None)
    else if HasAnswer(answer) then AgentResponse(step, None, answer)
    else AgentResponse(step, Some(output), None)
  }

  /** The system message written for a response. */
  function ObservationMessage(r: AgentResponse): Message
    requires r.observation.Some? || r.finalAnswer.Some?
  {
    if r.finalAnswer.Some? then Message(System, "Final Answer: " + r.finalAnswer.value)
    else Message(System, "Observation: " + r.observation.value)
  }

  /** The rest of an iteration once `step` was parsed: the assistant
      message, then the executor's answer. */
  function Observe(step: Step, outcome: ExecOutcome): (r: Iteration<AgentResponse>)
    ensures r.Raised? ==> r.added == [Message(Assistant, AssistantContent(step))]
    ensures !r.Raised? ==> |r.added| == 2 && r.added[0] == Message(Assistant, AssistantContent(step))
    ensures !r.Raised? ==> r.added[1].role == System && r.response.step == step
    ensures r.Done? <==> outcome.Executed? && HasAnswer(ParseFinalAnswer(outcome.output))
  {
    var assistant := Message(Assistant, AssistantContent(step));
    match outcome
    case ExecFailed(e) => Raised([assistant], e)
    case Executed(output, error, exitCode) =>
      var response := Respond(step, output, error, exitCode);
      var added := [assistant, ObservationMessage(response)];
      if HasAnswer(ParseFinalAnswer(output)) then Done(added, response) else Continue(added, response)
  }

  /** Iteration `k` of `_process_message` on history `h`. */
  function WebIteration(h: seq<Message>, k: nat, env: Env): (r: Iteration<AgentResponse>)
    ensures RaisesCleanly(r) && ContinuesWithPair(r)
    ensures r.Done? ==> |r.added| == 2 && r.added[0].role == Assistant && r.added[1].role == System
  {
    match env.llm(k, h)
    case CompletionFailed(e) => Raised([], e)
    case Reply(text) =>
      match ParseResponse(text, env.json, env.syntax)
      case Failure(e) => Raised([], e)
      case Success(step) => Observe(step, env.executor(k, step.code))
  }

  function WebStep(env: Env): Pass<AgentResponse> {
    (h: seq<Message>, k: nat) => WebIteration(h, k, env)
  }

  /** `_process_message` on history `h` with `max_iter = n`. */
  function WebLoop(h: seq<Message>, n: int, env: Env): Outcome<AgentResponse> {
    Run(WebStep(env), h, 0, n, None)
  }

  class CodeAgent {
    const maxIter: int
    const systemPrompt: string
    var messages: seq<Message>

    constructor(maxIter: int, systemPrompt: string)
      requires maxIter > 0
      ensures this.maxIter == maxIter && this.systemPrompt == systemPrompt && messages == []
    {
      this.maxIter := maxIter;
      this.systemPrompt := systemPrompt;
      messages := [];
    }

    /** `__init__`: the assertion on `max_iter`, then the prompt, which
      `_load_system_prompt` reads from the template and the tool list
      (`prompt` is the outcome of that). */
    static method Create(maxIter: int, prompt: Result<string, Exception>) returns (r: Result<CodeAgent, Exception>)
      ensures maxIter <= 0 ==> r == Failure(AssertionError(AssertMessage))
      ensures maxIter > 0 && prompt.Failure? ==> r == Failure(Error(LoadPromptPrefix + prompt.error.message))
      ensures maxIter > 0 && prompt.Success? ==>
        && r.Success? && fresh(r.value)
        && r.value.maxIter == maxIter && r.value.systemPrompt == prompt.value && r.value.messages == []
    {
      if maxIter <= 0 {
        return Failure(AssertionError(AssertMessage));
      }
      if prompt.Failure? {
        return Failure(Error(LoadPromptPrefix + prompt.error.message));
      }
      var agent := new CodeAgent(maxIter, prompt.value);
      return Success(agent);
    }

    /** `add_message`: append only (the console echo is left out). */
    method AddMessage(role: Role, content: string)
      modifies this
      ensures messages == old(messages) + [Message(role, content)]
    {
      messages := messages + [Message(role, content)];
    }

    /** The body of the `try` in `_process_message`: ask the model, parse,
      record the step, execute it and record what came back. An exception
      raised on the way is returned for the loop to re-raise. */
    method Iterate(k: nat, env: Env) returns (it: Iteration<AgentResponse>)
      modifies this
      ensures it == WebIteration(old(messages), k, env)
      ensures messages == old(messages) + it.added
    {
      var completion := env.llm(k, messages);
      if completion.CompletionFailed? {
        return Raised([], completion.raised);
      }
      var parsed := ParseResponse(completion.text, env.json, env.syntax);
      if parsed.Failure? {
        return Raised([], parsed.error);
      }
      it := ObserveStep(parsed.value, env.executor(k, parsed.value.code));
    }

    /** The rest of an iteration once `step` was parsed: the assistant
        message, then the observation or the final answer. */
    method ObserveStep(step: Step, outcome: ExecOutcome) returns (it: Iteration<AgentResponse>)
      modifies this
      ensures it == Observe(step, outcome)
      ensures messages == old(messages) + it.added
    {
      var h := messages;
      var assistant := Message(Assistant, AssistantContent(step));
      AddMessage(Assistant, AssistantContent(step));
      if outcome.ExecFailed? {
        return Raised([assistant], outcome.raised);
      }
      var answer := ParseFinalAnswer(outcome.output);
      var response := Respond(step, outcome.output, outcome.error, outcome.exitCode);
      var observation: Message;
      if outcome.error != "" {
        observation := Message(System, "Observation: " + response.observation.value);
      } else if HasAnswer(answer) {
        observation := Message(System, "Final Answer: " + response.finalAnswer.value);
      } else {
        observation := Message(System, "Observation: " + response.observation.value);
      }
      AddMessage(observation.role, observation.content);
      assert messages == h + [assistant, observation];
      if HasAnswer(answer) {
        return Done([assistant, observation], response);
      }
      return Continue([assistant, observation], response);
    }

    /** `_process_message`: run the loop on the current history. */
    method ProcessMessage(message: string, env: Env) returns (r: Result<Option<AgentResponse>, Exception>)
      modifies this
      ensures r.Failure? ==> WebLoop(old(messages), maxIter, env) == Failed(messages, r.error)
      ensures r.Success? ==> WebLoop(old(messages), maxIter, env) == Returned(messages, r.value)
    {
      var k: nat := 0;
      var last: Option<AgentResponse> := None;
      while k < maxIter
        invariant Run(WebStep(env), messages, k, maxIter, last) == WebLoop(old(messages), maxIter, env)
        decreases maxIter - k
      {
        var h := messages;
        var it := Iterate(k, env);
        RunUnfold(WebStep(env), it, h, k, maxIter, last);
        match it {
          case Raised(_, e) =>
            return Failure(Wrapped(e));
          case Done(_, response) =>
            return Success(Some(response));
          case Continue(_, response) =>
            last := Some(response);
        }
        k := k + 1;
      }
      return Success(last);
    }

    /** `answer_question`: the system prompt and the question, then the
      loop; on normal exit the history is handed back and cleared, on an
      exception it stays as it is. */
    method AnswerQuestion(question: string, env: Env) returns (r: Result<seq<Message>, Exception>)
      modifies this
      ensures var start := old(messages) + [Message(System, systemPrompt), Message(User, question)];
        r.Failure? ==> WebLoop(start, maxIter, env) == Failed(messages, r.error)
      ensures var start := old(messages) + [Message(System, systemPrompt), Message(User, question)];
        r.Success? ==> WebLoop(start, maxIter, env).Returned? && r.value == WebLoop(start, maxIter, env).history
      ensures r.Success? ==> messages == []
    {
      AddMessage(System, systemPrompt);
      AddMessage(User, question);
      assert messages == old(messages) + [Message(System, systemPrompt), Message(User, question)];
      var result := ProcessMessage(question, env);
      if result.Failure? {
        return Failure(result.error);
      }
      var copy := messages;
      messages := [];
      return Success(copy);
    }
  }

  // ---------------------------------------------------------------------
  // Lemmas

  /** An executor error does not keep the loop from ending on a final
      answer in the same output: the error observation is written, no final
      answer is stored, and the iteration ends the loop. */
  lemma ErrorWithAnswerStops(step: Step, output: string, error: string, exitCode: int)
    requires error != "" && HasAnswer(ParseFinalAnswer(output))
    ensures var r := Observe(step, Executed(output, error, exitCode));
      && r.Done?
      && r.response.finalAnswer == None
      && r.added[1] == Message(System, "Observation: Error: " + error + ". Exit code: " + IntToString(exitCode))
  {
    assert "Observation: " + ("Error: " + error + ". Exit code: " + IntToString(exitCode))
      == "Observation: Error: " + error + ". Exit code: " + IntToString(exitCode);
  }

  /** An error without a final answer is observed and the loop goes on. */
  lemma ErrorContinues(step: Step, output: string, error: string, exitCode: int)
    requires error != "" && !HasAnswer(ParseFinalAnswer(output))
    ensures var r := Observe(step, Executed(output, error, exitCode));
      && r.Continue?
      && r.added[1] == Message(System, "Observation: Error: " + error + ". Exit code: " + IntToString(exitCode))
  {
    assert "Observation: " + ("Error: " + error + ". Exit code: " + IntToString(exitCode))
      == "Observation: Error: " + error + ". Exit code: " + IntToString(exitCode);
  }

  /** A non-zero exit code with an empty error string counts as success:
      the output is observed as it is. */
  lemma ExitCodeAloneIsNoError(step: Step, output: string, exitCode: int)
    requires !HasAnswer(ParseFinalAnswer(output))
    ensures Observe(step, Executed(output, "", exitCode)) == Continue(
      [Message(Assistant, AssistantContent(step)), Message(System, "Observation: " + output)],
      AgentResponse(step, Some(output), None))
  {
  }

  /** A final answer without an error ends the loop with
      `"Final Answer: ..."`. */
  lemma AnswerWithoutError(step: Step, output: string, exitCode: int)
    requires HasAnswer(ParseFinalAnswer(output))
    ensures Observe(step, Executed(output, "", exitCode)) == Done(
      [Message(Assistant, AssistantContent(step)), Message(System, "Final Answer: " + ParseFinalAnswer(output).value)],
      AgentResponse(step, None, ParseFinalAnswer(output)))
  {
  }

  /** The printed sentinel ends the loop with its answer. */
  lemma SentinelEndsLoop(step: Step, before: string, answer: string, after: string, exitCode: int)
    requires !Contains(before, Open) && answer != ""
    requires '\n' !in answer && !Contains(answer, Close)
    ensures Observe(step, Executed(before + Sentinel(answer) + after, "", exitCode)) == Done(
      [Message(Assistant, AssistantContent(step)), Message(System, "Final Answer: " + answer)],
      AgentResponse(step, None, Some(answer)))
  {
    SentinelRoundTrip(before, answer, after);
  }

  /** The transcript `answer_question` hands back after a normal end: the
      system prompt and the question, then assistant and system messages
      alternately, two per iteration; all `max_iter` iterations ran unless
      the last one found a final answer. */
  lemma WebTranscript(start: seq<Message>, n: int, env: Env)
    requires WebLoop(start, n, env).Returned?
    ensures var h := WebLoop(start, n, env).history;
      var passes := Passes(WebStep(env), start, 0, n);
      && |h| == |start| + 2 * passes
      && h[..|start|] == start
      && (forall t :: |start| <= t < |h| ==> h[t].role == RoleAt(t - |start|))
      && (!EndsDone(WebStep(env), start, 0, n) ==> passes == if n > 0 then n else 0)
      && (n > 0 ==> WebLoop(start, n, env).last.Some?)
  {
    var step := WebStep(env);
    assert forall g, j :: step(g, j) == WebIteration(g, j, env);
    RunExtends(step, start, 0, n, None);
    RunLength(step, 2, start, 0, n, None);
    RunAlternates(step, start, 0, n, None);
    RunExhausted(step, start, 0, n, None);
  }

  /** Every run, even one that raised, keeps the history it started from
      and appends alternately; a failing run appended at most the assistant
      message of its last iteration. */
  lemma WebRunAlternates(start: seq<Message>, n: int, env: Env)
    ensures var h := WebLoop(start, n, env).history;
      && |start| <= |h| && h[..|start|] == start
      && forall t :: |start| <= t < |h| && t < |start| + 2 * Passes(WebStep(env), start, 0, n) ==>
           h[t].role == RoleAt(t - |start|)
  {
    var step := WebStep(env);
    assert forall g, j :: step(g, j) == WebIteration(g, j, env);
    RunExtends(step, start, 0, n, None);
    RunAlternates(step, start, 0, n, None);
  }
}
