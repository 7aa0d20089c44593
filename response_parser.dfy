/** `_parse_llm_response` in its two forms. The code agents
    (webapp/agent/agent.py and agent/agent.py, which are textually
    identical here) build a `CodeAgentResponse`, whose `check_not_empty`
    validator strips and rejects blank fields, and validate the code of a
    text reply. The Jupyter agent builds a `JupyterCodeAgentResponse`, which
    has no validator, and validates nothing.

    `json.loads` followed by the model constructor is an oracle `Json`; a
    reply that is not JSON takes the fallback path, which slices the text at
    the first `Thought:` and the first `Code:`. */
module ResponseParser {
  import opened Wrappers
  import opened Text
  import opened Protocol
  import opened CodeBlock

  type Json = string -> JsonDecode

  const ThoughtMarker: string := "Thought:"
  const CodeMarker: string := "Code:"

  /** `check_not_empty`: the stripped value, or `ValueError("Field cannot be
      empty")` for a value that is empty or all whitespace. */
  function CheckNotEmpty(v: string): (r: Result<string, Exception>)
    ensures r.Success? <==> Strip(v) != ""
    ensures r.Success? ==> r.value == Strip(v) && Stripped(r.value)
    ensures r.Failure? ==> r.error == ValueError(EmptyFieldMessage)
  {
    if v == "" || Strip(v) == "" then Failure(ValueError(EmptyFieldMessage)) else Success(Strip(v))
  }

  /** The fields whose validator fails; pydantic reports all of them at once. */
  function EmptyFields(thought: string, code: string): (fields: seq<string>)
    ensures "thought" in fields <==> CheckNotEmpty(thought).Failure?
    ensures "code" in fields <==> CheckNotEmpty(code).Failure?
  {
    (if CheckNotEmpty(thought).Failure? then ["thought"] else [])
    + (if CheckNotEmpty(code).Failure? then ["code"] else [])
  }

  /** `CodeAgentResponse(thought=..., code=...)`: both fields validated, or a
      `ValidationError` naming the ones that failed. */
  function BuildResponse(thought: string, code: string): (r: Result<Step, Exception>)
    ensures r.Success? <==> Strip(thought) != "" && Strip(code) != ""
    ensures r.Success? ==> r.value == Step(Strip(thought), Strip(code))
    ensures r.Failure? ==> r.error == ValidationError(EmptyFieldMessage, EmptyFields(thought, code))
  {
    match (CheckNotEmpty(thought), CheckNotEmpty(code))
    case (Success(t), Success(c)) => Success(Step(t, c))
    case _ => Failure(ValidationError(EmptyFieldMessage, EmptyFields(thought, code)))
  }

  /** The fallback slicing shared by all parsers: `response[t + 8:c].strip()`
      and `response[c + 5:].strip()` with `t` and `c` the first positions of
      the two markers, or `None` when either marker is missing. */
  function SliceFields(response: string): (r: Option<(string, string)>)
    ensures r.None? <==> !Contains(response, ThoughtMarker) || !Contains(response, CodeMarker)
    ensures r.Some? ==> Stripped(r.value.0) && Stripped(r.value.1)
    ensures r.Some? ==> var c := Find(response, CodeMarker);
      r.value.1 == Strip(response[c + |CodeMarker|..])
  {
    var t := Find(response, ThoughtMarker);
    var c := Find(response, CodeMarker);
    if t == -1 || c == -1 then None
    else Some((Strip(Slice(response, t + |ThoughtMarker|, c)), Strip(response[c + |CodeMarker|..])))
  }

  /** The code agents' `_parse_llm_response`. */
  function ParseResponse(response: string, json: Json, syntax: Syntax): (r: Result<Step, Exception>)
    ensures r.Success? ==> r.value.thought != "" && Stripped(r.value.thought)
    ensures r.Success? && json(response).NotJson? ==> syntax(r.value.code).None?
    ensures json(response).Fields? ==> r == BuildResponse(json(response).thought, json(response).code)
  {
    match json(response)
    case Fields(thought, code) => BuildResponse(thought, code)
    case Rejected(e) => Failure(e)
    case NotJson =>
      match SliceFields(response)
      case None => Failure(LLMCodeParseError(MarkersMessage))
      case Some((thought, code)) =>
        match BuildResponse(thought, code)
        case Failure(e) => Failure(e)
        case Success(step) =>
          match ValidateCode(step.code, syntax)
          case Failure(e) => Failure(e)
          case Success(validated) => Success(Step(step.thought, validated))
  }

  /** The Jupyter agent's `_parse_llm_response`. */
  function ParseJupyter(response: string, json: Json): (r: Result<Step, Exception>)
    ensures json(response).Fields? ==> r == Success(Step(json(response).thought, json(response).code))
    ensures json(response).Rejected? ==> r == Failure(json(response).raised)
    ensures json(response).NotJson? ==>
      (r.Failure? <==> !Contains(response, ThoughtMarker) || !Contains(response, CodeMarker))
    ensures json(response).NotJson? && r.Failure? ==> r.error == ValueError(MarkersMessage)
    ensures json(response).NotJson? && r.Success? ==> SliceFields(response) == Some((r.value.thought, r.value.code))
  {
    match json(response)
    case Fields(thought, code) => Success(Step(thought, code))
    case Rejected(e) => Failure(e)
    case NotJson =>
      match SliceFields(response)
      case None => Failure(ValueError(MarkersMessage))
      case Some((thought, code)) => Success(Step(thought, code))
  }

  // ---------------------------------------------------------------------
  // Lemmas

  /** The validator is idempotent: a value it accepted passes unchanged. */
  lemma CheckNotEmptyIdempotent(v: string)
    requires CheckNotEmpty(v).Success?
    ensures CheckNotEmpty(CheckNotEmpty(v).value) == CheckNotEmpty(v)
  {
    StripIdempotent(v);
  }

  /** A constructed response is a fixed point of construction. */
  lemma BuildResponseIdempotent(thought: string, code: string)
    requires BuildResponse(thought, code).Success?
    ensures var s := BuildResponse(thought, code).value;
      BuildResponse(s.thought, s.code) == BuildResponse(thought, code)
  {
    StripIdempotent(thought);
    StripIdempotent(code);
  }

  /** A validation error names at least one field, and exactly the blank ones. */
  lemma ValidationErrorNamesBlankFields(thought: string, code: string)
    requires BuildResponse(thought, code).Failure?
    ensures var fields := BuildResponse(thought, code).error.fields;
      && |fields| >= 1
      && ("thought" in fields <==> Strip(thought) == "")
      && ("code" in fields <==> Strip(code) == "")
  {
  }

  /** A text reply fails with the markers message exactly when a marker is
      missing; no other failure carries that message. */
  lemma MissingMarkers(response: string, json: Json, syntax: Syntax)
    requires json(response).NotJson?
    ensures ParseResponse(response, json, syntax) == Failure(LLMCodeParseError(MarkersMessage))
      <==> !Contains(response, ThoughtMarker) || !Contains(response, CodeMarker)
  {
    var r := ParseResponse(response, json, syntax);
    assert MarkersMessage[0] == 'R';
    if SliceFields(response).Some? && r.Failure? && r.error.LLMCodeParseError? {
      var step := BuildResponse(SliceFields(response).value.0, SliceFields(response).value.1).value;
      var msg :| ValidateCode(step.code, syntax).error == LLMCodeParseError(InvalidCodePrefix + msg);
      assert (InvalidCodePrefix + msg)[0] == 'I';
    }
  }

  /** When `Code:` comes before `Thought:` the thought slice is empty and
      the reply is rejected for its thought. */
  lemma CodeBeforeThought(response: string, json: Json, syntax: Syntax)
    requires json(response).NotJson?
    requires Contains(response, ThoughtMarker) && Contains(response, CodeMarker)
    requires Find(response, CodeMarker) < Find(response, ThoughtMarker)
    ensures var r := ParseResponse(response, json, syntax);
      r.Failure? && r.error.ValidationError? && "thought" in r.error.fields
  {
    var t := Find(response, ThoughtMarker);
    var c := Find(response, CodeMarker);
    assert Slice(response, t + |ThoughtMarker|, c) == "";
    var fields := SliceFields(response).value;
    assert fields.0 == "";
    assert BuildResponse(fields.0, fields.1).Failure?;
  }

  /** The structured path neither extracts fences nor checks syntax: any
      non-blank pair of fields comes back stripped, whatever the syntax
      oracle says. */
  lemma StructuredSkipsValidation(response: string, json: Json, syntax: Syntax)
    requires json(response).Fields?
    requires Strip(json(response).thought) != "" && Strip(json(response).code) != ""
    ensures ParseResponse(response, json, syntax)
      == Success(Step(Strip(json(response).thought), Strip(json(response).code)))
  {
  }

  /** No `Code:` starts in the `"Thought: " + thought + "\n"` part of an
      assistant message. */
  lemma NoCodeMarkerInHead(thought: string, code: string, j: int)
    requires !Contains(thought, CodeMarker)
    requires 0 <= j < |thought| + 10
    ensures !StartsAt(AssistantContent(Step(thought, code)), j, CodeMarker)
  {
    var s := AssistantContent(Step(thought, code));
    var x := "Thought: " + thought;
    assert s == x + ("\nCode: " + code);
    if j < 9 {
      assert s[j] == "Thought: "[j];
      if j + 5 <= |s| {
        assert s[j..j + 5][0] == s[j];
      }
    } else if j + 5 <= |x| {
      assert !StartsAt(thought, j - 9, CodeMarker);
      assert s[j..j + 5] == thought[j - 9..j - 9 + 5];
    } else if j < |x| {
      NotAcross(x, "\nCode: " + code, CodeMarker, j);
    } else {
      assert s[j] == '\n';
      assert s[j..j + 5][0] == s[j];
    }
  }

  /** Where the fallback finds the markers in an assistant message. */
  lemma MarkersInAssistantContent(thought: string, code: string)
    requires !Contains(thought, CodeMarker)
    ensures var s := AssistantContent(Step(thought, code));
      Find(s, ThoughtMarker) == 0 && Find(s, CodeMarker) == |thought| + 10
  {
    var a := "Thought: " + thought + "\n";
    var s := AssistantContent(Step(thought, code));
    assert s == a + "Code: " + code;
    assert s[..8] == ThoughtMarker;
    assert StartsAt(s, 0, ThoughtMarker);
    assert s[|a|..|a| + 5] == CodeMarker;
    assert StartsAt(s, |a|, CodeMarker);
    forall j | 0 <= j < |a| ensures !StartsAt(s, j, CodeMarker) {
      NoCodeMarkerInHead(thought, code, j);
    }
  }

  /** The shape of the assistant message as the fallback slices it. */
  lemma SliceAssistantContent(thought: string, code: string)
    requires !Contains(thought, CodeMarker)
    ensures SliceFields(AssistantContent(Step(thought, code))) == Some((Strip(thought), Strip(code)))
  {
    var s := AssistantContent(Step(thought, code));
    var c := |thought| + 10;
    MarkersInAssistantContent(thought, code);
    assert |ThoughtMarker| == 8 && |CodeMarker| == 5;
    assert SliceFields(s) == Some((Strip(Slice(s, 8, c)), Strip(s[c + 5..])));
    AssistantThoughtSlice(thought, code);
    AssistantCodeSlice(thought, code);
  }

  lemma AssistantThoughtSlice(thought: string, code: string)
    ensures var s := AssistantContent(Step(thought, code));
      |thought| + 10 <= |s| && Strip(Slice(s, 8, |thought| + 10)) == Strip(thought)
  {
    var s := AssistantContent(Step(thought, code));
    assert s == "Thought:" + ([' '] + (thought + ['\n'])) + "Code:" + ([' '] + code);
    assert Slice(s, 8, |thought| + 10) == [' '] + (thought + ['\n']);
    StripSkipsSpace(' ', thought + ['\n']);
    StripDropsTrailingSpace(thought, '\n');
  }

  lemma AssistantCodeSlice(thought: string, code: string)
    ensures var s := AssistantContent(Step(thought, code));
      |thought| + 15 <= |s| && Strip(s[|thought| + 15..]) == Strip(code)
  {
    var s := AssistantContent(Step(thought, code));
    assert s == ("Thought:" + ([' '] + (thought + ['\n'])) + "Code:") + ([' '] + code);
    assert s[|thought| + 15..] == [' '] + code;
    StripSkipsSpace(' ', code);
  }

  /** The assistant message the loops write re-parses, as a text reply, to
      the step it was written from, when that step is what a text reply can
      produce: a stripped non-blank thought without `Code:`, and stripped
      non-blank code that validation returns unchanged. */
  lemma AssistantContentReparses(step: Step, json: Json, syntax: Syntax)
    requires json(AssistantContent(step)).NotJson?
    requires step.thought != "" && Stripped(step.thought) && !Contains(step.thought, CodeMarker)
    requires step.code != "" && Stripped(step.code)
    requires ValidateCode(step.code, syntax) == Success(step.code)
    ensures ParseResponse(AssistantContent(step), json, syntax) == Success(step)
    ensures ParseJupyter(AssistantContent(step), json) == Success(step)
  {
    SliceAssistantContent(step.thought, step.code);
    StripStripped(step.thought);
    StripStripped(step.code);
  }

  /** What a text reply whose markers are both present parses to: the
      sliced fields, validated by the response model, then the code checked. */
  lemma TextReply(response: string, json: Json, syntax: Syntax)
    requires json(response).NotJson? && SliceFields(response).Some?
    ensures var f := SliceFields(response).value;
      ParseResponse(response, json, syntax) ==
        if f.0 == "" || f.1 == "" then Failure(ValidationError(EmptyFieldMessage, EmptyFields(f.0, f.1)))
        else match ValidateCode(f.1, syntax)
          case Success(c) => Success(Step(f.0, c))
          case Failure(e) => Failure(e)
  {
    var f := SliceFields(response).value;
    StripStripped(f.0);
    StripStripped(f.1);
  }

  /** On a text reply the two parsers fail on the same replies, those
      missing a marker. */
  lemma ParsersFailTogether(response: string, json: Json, syntax: Syntax)
    requires json(response).NotJson?
    ensures ParseJupyter(response, json).Failure?
      <==> ParseResponse(response, json, syntax) == Failure(LLMCodeParseError(MarkersMessage))
  {
    MissingMarkers(response, json, syntax);
  }

  /** Whenever the code agents' parser accepts a text reply, the Jupyter
      parser yields the same thought, and code that validates to the same
      result. */
  lemma ParsersAgreeOnText(response: string, json: Json, syntax: Syntax)
    requires json(response).NotJson?
    requires ParseResponse(response, json, syntax).Success?
    ensures ParseJupyter(response, json).Success?
    ensures ParseJupyter(response, json).value.thought == ParseResponse(response, json, syntax).value.thought
    ensures ValidateCode(ParseJupyter(response, json).value.code, syntax)
         == Success(ParseResponse(response, json, syntax).value.code)
  {
    TextReply(response, json, syntax);
  }

  /** A text reply whose code is an empty fenced block is accepted with
      empty code: the validator runs before fence extraction, and
      `ast.parse("")` succeeds. */
  lemma EmptyCodeAccepted(thought: string, json: Json, syntax: Syntax)
    requires thought != "" && Stripped(thought) && !Contains(thought, CodeMarker)
    requires json(AssistantContent(Step(thought, Fenced("", "")))).NotJson?
    requires syntax("").None?
    ensures ParseResponse(AssistantContent(Step(thought, Fenced("", ""))), json, syntax) == Success(Step(thought, ""))
  {
    var code := Fenced("", "");
    SliceAssistantContent(thought, code);
    StripStripped(thought);
    FencedStripped("", "");
    StripStripped(code);
    TextReply(AssistantContent(Step(thought, code)), json, syntax);
    EmptyBlockAccepted(syntax);
  }
}
