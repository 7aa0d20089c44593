/** The command-line `CodeAgent` (agent/agent.py): one model call and one
    execution per `process_message`, over a history that starts with the
    system prompt and is never cleared. It parses replies exactly like the
    web agent (`ResponseParser.ParseResponse`). */
module SingleStepAgent {
  import opened Wrappers
  import opened Text
  import opened Protocol
  import opened CodeBlock
  import opened ResponseParser
  import opened ExecutorClient

  /** The language model, the JSON decoder with the response model, the
      syntax check, and the code executor as `process_message` calls them. */
  datatype Env = Env(
    llm: seq<Message> -> Completion,
    json: Json,
    syntax: Syntax,
    executor: string -> ExecOutcome)

  /** `CodeAgentResponse` as `process_message` returns it. */
  datatype StepResponse = StepResponse(step: Step, observation: string)

  /** The messages one `process_message` appends, and what it returns or
      raises. */
  datatype Exchange = Exchange(added: seq<Message>, result: Result<StepResponse, Exception>)

  /** `"Error: {error}"` when the executor reported an error, else the
      output; the exit code plays no part. */
  function Observation(output: string, error: string): (o: string)
    ensures error != "" ==> o == "Error: " + error
    ensures error == "" ==> o == output
  {
    if error != "" then "Error: " + error else output
  }

  /** The `except` branch: the history gets `"Error: Error processing
      message: ..."` as an assistant message and the wrapped error leaves. */
  function Abort(added: seq<Message>, e: Exception): (x: Exchange)
    ensures x.result == Failure(Wrapped(e))
    ensures x.added == added + [Message(Assistant, "Error: " + Wrapped(e).message)]
  {
    Exchange(added + [Message(Assistant, "Error: " + Wrapped(e).message)], Failure(Wrapped(e)))
  }

  /** One `process_message(message)` on history `h`. */
  function ProcessExchange(h: seq<Message>, message: string, env: Env): (x: Exchange)
    ensures 2 <= |x.added| <= 3 && x.added[0] == Message(User, message)
    ensures x.result.Success? ==> |x.added| == 3 && x.added[1].role == Assistant
    ensures x.result.Success? ==>
      x.added[1] == Message(Assistant, AssistantContent(x.result.value.step))
      && x.added[2] == Message(System, "Observation: " + x.result.value.observation)
    ensures x.result.Failure? ==>
      x.result.error.ValueError?
      && x.added[|x.added| - 1] == Message(Assistant, "Error: " + x.result.error.message)
    ensures x.result.Failure? ==> x.result.error.ValueError? && StartsAt(x.result.error.message, 0, ProcessingPrefix)
    ensures x.result.Success? ==>
      var reply := env.llm(h + [Message(User, message)]);
      && reply.Reply?
      && ParseResponse(reply.text, env.json, env.syntax) == Success(x.result.value.step)
      && var o := env.executor(x.result.value.step.code);
         o.Executed? && x.result.value.observation == Observation(o.output, o.error)
  {
    var user := Message(User, message);
    match env.llm(h + [user])
    case CompletionFailed(e) => Abort([user], e)
    case Reply(text) => ReplyExchange(user, text, env)
  }

  /** The part of `process_message` after the model replied `text`: the
      parse, then the execution. */
  function ReplyExchange(user: Message, text: string, env: Env): (x: Exchange)
    ensures 2 <= |x.added| <= 3 && x.added[0] == user
    ensures x.result.Failure? ==> x.result.error.ValueError? && StartsAt(x.result.error.message, 0, ProcessingPrefix)
    ensures x.result.Failure? ==> x.added[|x.added| - 1] == Message(Assistant, "Error: " + x.result.error.message)
    ensures x.result.Success? ==>
      && |x.added| == 3
      && ParseResponse(text, env.json, env.syntax) == Success(x.result.value.step)
      && x.added[1] == Message(Assistant, AssistantContent(x.result.value.step))
      && x.added[2] == Message(System, "Observation: " + x.result.value.observation)
      && var o := env.executor(x.result.value.step.code);
         o.Executed? && x.result.value.observation == Observation(o.output, o.error)
  {
    match ParseResponse(text, env.json, env.syntax)
    case Failure(e) => Abort([user], e)
    case Success(step) => ExecuteExchange(user, step, env.executor)
  }

  /** The part of `process_message` after a reply parsed: the assistant
      message, the execution, and the observation or the error. */
  function ExecuteExchange(user: Message, step: Step, executor: string -> ExecOutcome): (x: Exchange)
    ensures |x.added| == 3 && x.added[0] == user && x.added[1] == Message(Assistant, AssistantContent(step))
    ensures executor(step.code).ExecFailed? ==> x.result == Failure(Wrapped(executor(step.code).raised))
    ensures executor(step.code).Executed? ==>
      x.result == Success(StepResponse(step, Observation(executor(step.code).output, executor(step.code).error)))
      && x.added[2] == Message(System, "Observation: " + x.result.value.observation)
  {
    var assistant := Message(Assistant, AssistantContent(step));
    match executor(step.code)
    case ExecFailed(e) => Abort([user, assistant], e)
    case Executed(output, error, _) =>
      var obs := Observation(output, error);
      Exchange([user, assistant, Message(System, "Observation: " + obs)], Success(StepResponse(step, obs)))
  }

  /** The history after a series of `process_message` calls, each with its
      own message and its own replies, whether or not they raised. */
  function Conversation(h: seq<Message>, calls: seq<(string, Env)>): seq<Message>
    decreases |calls|
  {
    if calls == [] then h
    else Conversation(h + ProcessExchange(h, calls[0].0, calls[0].1).added, calls[1..])
  }

  class CodeAgent {
    const systemPrompt: string
    var messages: seq<Message>

    /** `__init__`: the history starts as the system prompt. */
    constructor(systemPrompt: string)
      ensures this.systemPrompt == systemPrompt
      ensures messages == [Message(System, systemPrompt)]
    {
      this.systemPrompt := systemPrompt;
      messages := [Message(System, systemPrompt)];
    }

    method AddMessage(role: Role, content: string)
      modifies this
      ensures messages == old(messages) + [Message(role, content)]
    {
      messages := messages + [Message(role, content)];
    }

    /** `process_message`. */
    method ProcessMessage(message: string, env: Env) returns (r: Result<StepResponse, Exception>)
      modifies this
      ensures var x := ProcessExchange(old(messages), message, env);
        messages == old(messages) + x.added && r == x.result
    {
      var h := messages;
      var user := Message(User, message);
      AddMessage(User, message);
      var completion := env.llm(messages);
      if completion.CompletionFailed? {
        var e := Wrapped(completion.raised);
        AddMessage(Assistant, "Error: " + e.message);
        assert messages == h + Abort([user], completion.raised).added;
        return Failure(e);
      }
      var parsed := ParseResponse(completion.text, env.json, env.syntax);
      if parsed.Failure? {
        var e := Wrapped(parsed.error);
        AddMessage(Assistant, "Error: " + e.message);
        assert messages == h + Abort([user], parsed.error).added;
        return Failure(e);
      }
      assert ProcessExchange(h, message, env) == ExecuteExchange(user, parsed.value, env.executor);
      r := Execute(h, user, parsed.value, env.executor);
    }

    /** The execution half of `process_message`, once `user` is recorded
        after `h`. */
    method Execute(ghost h: seq<Message>, user: Message, step: Step, executor: string -> ExecOutcome) returns (r: Result<StepResponse, Exception>)
      requires messages == h + [user]
      modifies this
      ensures var x := ExecuteExchange(user, step, executor);
        messages == h + x.added && r == x.result
    {
      var assistant := Message(Assistant, AssistantContent(step));
      AddMessage(Assistant, AssistantContent(step));
      assert messages == h + [user, assistant];
      var outcome := executor(step.code);
      if outcome.ExecFailed? {
        var e := Wrapped(outcome.raised);
        AddMessage(Assistant, "Error: " + e.message);
        assert messages == h + Abort([user, assistant], outcome.raised).added;
        return Failure(e);
      }
      var obs := Observation(outcome.output, outcome.error);
      AddMessage(System, "Observation: " + obs);
      assert messages == h + [user, assistant, Message(System, "Observation: " + obs)];
      return Success(StepResponse(step, obs));
    }
  }

  // ---------------------------------------------------------------------
  // Lemmas

  /** The exit code never reaches the history or the response. */
  lemma ExitCodeIgnored(h: seq<Message>, message: string, env: Env, output: string, error: string, c1: int, c2: int)
    ensures ProcessExchange(h, message, env.(executor := _ => Executed(output, error, c1)))
         == ProcessExchange(h, message, env.(executor := _ => Executed(output, error, c2)))
  {
  }

  /** With the executor as the code calls it, an exchange whose reply
      parses still fails: the user message and the assistant message are
      written, then the error. */
  lemma AsWrittenAlwaysFails(h: seq<Message>, message: string, env: Env)
    requires forall code :: env.executor(code) == ExecuteCodeAsWritten(code)
    requires env.llm(h + [Message(User, message)]).Reply?
    requires ParseResponse(env.llm(h + [Message(User, message)]).text, env.json, env.syntax).Success?
    ensures var x := ProcessExchange(h, message, env);
      && x.result == Failure(ValueError(ProcessingPrefix + MissingAttributeMessage))
      && |x.added| == 3
      && x.added[2] == Message(Assistant, "Error: " + ProcessingPrefix + MissingAttributeMessage)
  {
    assert "Error: " + (ProcessingPrefix + MissingAttributeMessage) == "Error: " + ProcessingPrefix + MissingAttributeMessage;
  }

  /** With the client called as `CodeExecutorClient.__call__`, a reply
      that parses is executed and observed; an `RpcError` is observed as
      `"Error: ..."` (an empty `str(e)` would read as an empty output) and
      the call still succeeds. */
  lemma ClientCallObserved(h: seq<Message>, message: string, env: Env, rpc: Rpc)
    requires forall code :: env.executor(code) == Call(rpc)
    requires env.llm(h + [Message(User, message)]).Reply?
    requires ParseResponse(env.llm(h + [Message(User, message)]).text, env.json, env.syntax).Success?
    ensures var x := ProcessExchange(h, message, env);
      && (x.result.Success? <==> !rpc.OtherFailure?)
      && (rpc.RpcError? && rpc.text != "" ==> x.result.value.observation == "Error: " + rpc.text)
      && (rpc.RpcError? && rpc.text == "" ==> x.result.value.observation == "")
      && (rpc.Response? ==> x.result.value.observation == Observation(rpc.output, rpc.error))
  {
  }

  /** Every call appends at least the user message and the outcome, and
      leaves what was there untouched: the history only grows. */
  lemma {:induction false} ConversationGrows(h: seq<Message>, calls: seq<(string, Env)>)
    ensures |Conversation(h, calls)| >= |h| + 2 * |calls|
    ensures Conversation(h, calls)[..|h|] == h
    decreases |calls|
  {
    if calls != [] {
      var g := h + ProcessExchange(h, calls[0].0, calls[0].1).added;
      ConversationGrows(g, calls[1..]);
      assert Conversation(h, calls)[..|h|] == Conversation(h, calls)[..|g|][..|h|];
    }
  }

  /** A conversation that starts at a fresh agent keeps the system prompt
      first. */
  lemma {:induction false} ConversationKeepsPrompt(prompt: string, calls: seq<(string, Env)>)
    ensures var c := Conversation([Message(System, prompt)], calls);
      |c| >= 1 && c[0] == Message(System, prompt)
  {
    ConversationGrows([Message(System, prompt)], calls);
    var c := Conversation([Message(System, prompt)], calls);
    assert c[0] == c[..1][0];
  }
}
