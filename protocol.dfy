/** The values the agent loops exchange: chat messages, the parsed
    (thought, code) step, the replies of the language model and of the code
    executor, and the exceptions the Python code raises. */
module Protocol {
  import opened Wrappers
  import opened Text

  datatype Role = System | User | Assistant {
    /** The `role` string stored in the message dictionary. */
    function Name(): string {
      match this
      case System => "system"
      case User => "user"
      case Assistant => "assistant"
    }
  }

  /** One entry `{"role": ..., "content": ...}` of the conversation history. */
  datatype Message = Message(role: Role, content: string)

  /** The two fields of a parsed model reply that the loop uses. */
  datatype Step = Step(thought: string, code: string)

  /** What the loop writes to the history for a parsed step:
      `f"Thought: {thought}\nCode: {code}"`. */
  function AssistantContent(step: Step): string {
    "Thought: " + step.thought + "\nCode: " + step.code
  }

  /** The Python exception classes that can leave the core, with `str(e)`
      as `message`. */
  datatype Exception =
    | LLMCodeParseError(message: string)
    | ValidationError(message: string, fields: seq<string>)  // pydantic
    | ValueError(message: string)
    | RuntimeError(message: string)
    | AssertionError(message: string)
    | AttributeError(message: string)
    | Error(message: string)                                 // plain `Exception`

  const MarkersMessage: string := "Response must contain " + "'Thought:' and 'Code:' sections"
  const EmptyFieldMessage: string := "Field cannot be empty"
  const ProcessingPrefix: string := "Error processing message: "

  /** The loops catch every exception of an iteration and raise
      `ValueError(f"Error processing message: {str(e)}")` instead. */
  function Wrapped(e: Exception): (r: Exception)
    ensures r.ValueError? && StartsAt(r.message, 0, ProcessingPrefix)
    ensures r.message[|ProcessingPrefix|..] == e.message
  {
    ValueError(ProcessingPrefix + e.message)
  }

  /** What `json.loads(raw)` followed by building the response model gives:
      not JSON at all, a JSON object whose `thought` and `code` are strings,
      or JSON that the model rejects (the exception it raises). */
  datatype JsonDecode = NotJson | Fields(thought: string, code: string) | Rejected(raised: Exception)

  /** One chat completion: the reply text, or the exception the transport raised. */
  datatype Completion = Reply(text: string) | CompletionFailed(raised: Exception)

  /** One call of the gRPC code executor: `(output, error, exit_code)`, or the
      exception it raised. */
  datatype ExecOutcome =
    | Executed(output: string, error: string, exitCode: int)
    | ExecFailed(raised: Exception)

  /** One pass of an agent loop: the messages it appended and either the
      exception that left it, or the response it built and whether the loop
      goes on. */
  datatype Iteration<+R> =
    | Raised(added: seq<Message>, raised: Exception)
    | Continue(added: seq<Message>, response: R)
    | Done(added: seq<Message>, response: R)

  /** How a whole loop ends: with the exception it re-raised, or normally,
      with the response of its last iteration (none if it never ran). */
  datatype Outcome<+R> =
    | Failed(history: seq<Message>, raised: Exception)
    | Returned(history: seq<Message>, last: Option<R>)
}
