/** `_validate_llm_code`: take the first fenced block out of the model's code
    with `re.findall(r"```(?:py|python)?\s*\n(.*?)\n```", code, re.DOTALL)`
    and check the result with `ast.parse`. The regular expression is written
    out in the order Python's backtracking tries it: the optional tag as
    `py`, then `python`, then nothing; `\s*` longest first; the lazy body
    shortest first. */
module CodeBlock {
  import opened Wrappers
  import opened Text
  import opened Protocol

  /** `ast.parse` as an oracle: `None` when the text parses, otherwise the
      `SyntaxError` message. */
  type Syntax = string -> Option<string>

  const Fence: string := "```"
  const Closing: string := "\n```"
  const InvalidCodePrefix: string := "Invalid Python code: "

  /** The lazy `(.*?)\n````: where the first closing fence at or after `c`
      starts. */
  function BodyEnd(s: string, c: nat): (r: Option<nat>)
    requires c <= |s|
    ensures r.Some? ==> c <= r.value <= |s| && StartsAt(s, r.value, Closing)
    ensures r.Some? ==> forall m :: c <= m < r.value ==> !StartsAt(s, m, Closing)
    ensures r.None? ==> forall m :: c <= m ==> !StartsAt(s, m, Closing)
  {
    var k := FindFrom(s, Closing, c);
    if k < 0 then None else Some(k)
  }

  /** The longest run of whitespace starting at `k` (what greedy `\s*`
      takes first). */
  function SpaceRun(s: string, k: nat): (n: nat)
    requires k <= |s|
    ensures k + n <= |s|
    ensures forall m :: k <= m < k + n ==> IsSpace(s[m])
    ensures k + n == |s| || !IsSpace(s[k + n])
    decreases |s| - k
  {
    if k < |s| && IsSpace(s[k]) then 1 + SpaceRun(s, k + 1) else 0
  }

  /** `\s*\n(.*?)\n```` at `k` with `\s*` taking `j` characters, then
      backing off one at a time. */
  function TryNewlineAt(s: string, k: nat, j: nat): (r: Option<string>)
    requires k + j <= |s|
    ensures r.Some? ==> Contains(s, Closing) && !Contains(r.value, Closing)
    decreases j
  {
    var here := if k + j < |s| && s[k + j] == '\n' then BodyEnd(s, k + j + 1) else None;
    if here.Some? then
      NoneInSlice(s, k + j + 1, here.value, Closing);
      Some(s[k + j + 1..here.value])
    else if j == 0 then None
    else TryNewlineAt(s, k, j - 1)
  }

  /** Everything after the optional tag, starting at `k`. */
  function AfterTag(s: string, k: nat): (r: Option<string>)
    requires k <= |s|
    ensures r.Some? ==> Contains(s, Closing) && !Contains(r.value, Closing)
  {
    TryNewlineAt(s, k, SpaceRun(s, k))
  }

  /** The whole pattern anchored at `p`: the interior of the block, if the
      pattern matches there. */
  function FenceAt(s: string, p: nat): (r: Option<string>)
    requires p <= |s|
    ensures r.Some? ==> StartsAt(s, p, Fence)
    ensures r.Some? ==> Contains(s, Closing) && !Contains(r.value, Closing)
  {
    if !StartsAt(s, p, Fence) then None
    else
      var q := p + |Fence|;
      var py := if StartsAt(s, q, "py") then AfterTag(s, q + 2) else None;
      if py.Some? then py
      else
        var python := if StartsAt(s, q, "python") then AfterTag(s, q + 6) else None;
        if python.Some? then python else AfterTag(s, q)
  }

  /** The pattern matches at no position from `p` up to, not including, `x`. */
  predicate NoFenceBetween(s: string, p: nat, x: nat) {
    p <= x <= |s| && forall y :: p <= y < x ==> FenceAt(s, y).None?
  }

  /** The leftmost match at or after `p`: `code_blocks[0]`. */
  function FirstBlockFrom(s: string, p: nat): (r: Option<string>)
    requires p <= |s|
    ensures r.Some? ==> Contains(s, Closing) && !Contains(r.value, Closing)
    ensures r.None? ==> forall x :: p <= x <= |s| ==> FenceAt(s, x).None?
    ensures r.Some? ==> exists x :: NoFenceBetween(s, p, x) && FenceAt(s, x) == r
    decreases |s| - p
  {
    var m := FenceAt(s, p);
    if m.Some? then
      assert NoFenceBetween(s, p, p);
      m
    else if p == |s| then None
    else FirstBlockFrom(s, p + 1)
  }

  /** `code_blocks[0] if code_blocks else None`: the match at the leftmost
      position where the pattern matches. */
  function FirstBlock(s: string): (r: Option<string>)
    ensures r.Some? ==> Contains(s, Closing) && !Contains(r.value, Closing)
    ensures r.None? <==> forall x :: 0 <= x <= |s| ==> FenceAt(s, x).None?
    ensures r.Some? ==> exists x :: NoFenceBetween(s, 0, x) && FenceAt(s, x) == r
  {
    FirstBlockFrom(s, 0)
  }

  /** `_validate_llm_code(code)`: the stripped interior of the first fenced
      block, or the code itself when there is none, provided it parses. */
  function ValidateCode(code: string, syntax: Syntax): (r: Result<string, Exception>)
    ensures r.Success? ==> syntax(r.value).None?
    ensures r.Success? ==> r.value == code || (Stripped(r.value) && !Contains(r.value, Closing))
    ensures r.Failure? ==> exists msg :: r.error == LLMCodeParseError(InvalidCodePrefix + msg)
    ensures var candidate := if FirstBlock(code).Some? then Strip(FirstBlock(code).value) else code;
      && (r.Success? <==> syntax(candidate).None?)
      && (r.Success? ==> r.value == candidate)
      && (r.Failure? ==> r.error == LLMCodeParseError(InvalidCodePrefix + syntax(candidate).value))
  {
    var block := FirstBlock(code);
    var candidate := if block.Some? then Strip(block.value) else code;
    ContainsInStrip(if block.Some? then block.value else code, Closing);
    match syntax(candidate)
    case None => Success(candidate)
    case Some(msg) => Failure(LLMCodeParseError(InvalidCodePrefix + msg))
  }

  /** A fenced block as a model writes it. */
  function Fenced(tag: string, body: string): string {
    Fence + tag + "\n" + body + Closing
  }

  // ---------------------------------------------------------------------
  // Lemmas

  /** Text without a closing fence has no block. */
  lemma NoClosingNoBlock(s: string)
    requires !Contains(s, Closing)
    ensures FirstBlock(s) == None
  {
  }

  /** Validation is idempotent: validating already validated code returns
      it unchanged and accepts it again. */
  lemma ValidateIdempotent(code: string, syntax: Syntax)
    requires ValidateCode(code, syntax).Success?
    ensures ValidateCode(ValidateCode(code, syntax).value, syntax) == ValidateCode(code, syntax)
  {
    var v := ValidateCode(code, syntax).value;
    if FirstBlock(code).Some? {
      ContainsInStrip(FirstBlock(code).value, Closing);
      NoClosingNoBlock(v);
      StripIdempotent(FirstBlock(code).value);
    }
  }

  /** Positions before `t` where nothing matches can be skipped. */
  lemma {:induction false} SkipNoFence(s: string, p: nat, t: nat)
    requires p <= t <= |s|
    requires forall x :: p <= x < t ==> FenceAt(s, x).None?
    ensures FirstBlockFrom(s, p) == FirstBlockFrom(s, t)
    decreases t - p
  {
    if p < t {
      SkipNoFence(s, p + 1, t);
    }
  }

  /** The first closing fence after a body free of closing fences is the one
      right behind it. */
  lemma ClosingAfterBody(head: string, body: string, after: string)
    requires !Contains(body, Closing)
    ensures BodyEnd(head + body + Closing + after, |head|) == Some(|head| + |body|)
  {
    var s := head + body + Closing + after;
    var t := head + body;
    assert s == t + (Closing + after);
    var e := |head| + |body|;
    assert s[e..e + |Closing|] == Closing;
    assert StartsAt(s, e, Closing);
    forall x | |head| <= x < e ensures !StartsAt(s, x, Closing) {
      if |t| < x + |Closing| {
        NoStraddle(t, Closing + after, Closing, '\n', x);
      } else {
        var m := x - |head|;
        assert !StartsAt(body, m, Closing);
        assert s[x..x + |Closing|] == body[m..m + |Closing|];
      }
    }
    var k := FindFrom(s, Closing, |head|);
    assert k == e;
  }

  /** `\s*\n(.*?)\n```` right after a newline that starts a block whose
      body begins with a non-blank character. */
  lemma AfterNewline(head: string, body: string, after: string)
    requires body != "" && !IsSpace(body[0]) && !Contains(body, Closing)
    ensures AfterTag(head + "\n" + body + Closing + after, |head|) == Some(body)
  {
    var s := head + "\n" + body + Closing + after;
    var k := |head|;
    assert s[k] == '\n';
    assert s[k + 1] == body[0];
    assert SpaceRun(s, k + 1) == 0;
    assert SpaceRun(s, k) == 1;
    ClosingAfterBody(head + "\n", body, after);
    assert s == (head + "\n") + body + Closing + after;
    assert TryNewlineAt(s, k, 0) == Some(s[k + 1..k + 1 + |body|]);
    assert s[k + 1..k + 1 + |body|] == body;
  }

  /** "```" followed by a newline: neither tag applies. */
  lemma PlainFenceAt(head: string, body: string, after: string)
    requires body != "" && !IsSpace(body[0]) && !Contains(body, Closing)
    ensures FenceAt(head + Fenced("", body) + after, |head|) == Some(body)
  {
    var s := head + Fenced("", body) + after;
    var q := |head| + |Fence|;
    assert s == (head + Fence) + "\n" + body + Closing + after;
    AfterNewline(head + Fence, body, after);
    assert s[|head|..q] == Fence;
    assert s[q] == '\n';
    assert !StartsAt(s, q, "py") && !StartsAt(s, q, "python");
  }

  /** "```py" followed by a newline. */
  lemma PyFenceAt(head: string, body: string, after: string)
    requires body != "" && !IsSpace(body[0]) && !Contains(body, Closing)
    ensures FenceAt(head + Fenced("py", body) + after, |head|) == Some(body)
  {
    var s := head + Fenced("py", body) + after;
    var q := |head| + |Fence|;
    assert s == (head + Fence + "py") + "\n" + body + Closing + after;
    AfterNewline(head + Fence + "py", body, after);
    assert s[|head|..q] == Fence;
    assert s[q..q + 2] == "py";
  }

  /** "```python" followed by a newline: `py` is tried first and fails at
      the `t`, then `python` matches. */
  lemma PythonFenceAt(head: string, body: string, after: string)
    requires body != "" && !IsSpace(body[0]) && !Contains(body, Closing)
    ensures FenceAt(head + Fenced("python", body) + after, |head|) == Some(body)
  {
    var s := head + Fenced("python", body) + after;
    var q := |head| + |Fence|;
    assert s == (head + Fence + "python") + "\n" + body + Closing + after;
    AfterNewline(head + Fence + "python", body, after);
    assert s[|head|..q] == Fence;
    assert s[q..q + 6] == "python";
    assert s[q..q + 2] == "py";
    assert s[q + 2] == 't';
    assert SpaceRun(s, q + 2) == 0;
    assert AfterTag(s, q + 2) == None;
  }

  /** A block opened with "```", "```py" or "```python", whose body starts
      with a non-blank character and holds no closing fence, is the first
      block of any text in which no backtick comes before it. */
  lemma FencedBlockFound(before: string, tag: string, body: string, after: string)
    requires tag == "" || tag == "py" || tag == "python"
    requires '`' !in before
    requires body != "" && !IsSpace(body[0]) && !Contains(body, Closing)
    ensures FirstBlock(before + Fenced(tag, body) + after) == Some(body)
  {
    var s := before + Fenced(tag, body) + after;
    var p := |before|;
    forall x | 0 <= x < p ensures FenceAt(s, x).None? {
      assert s[x] == before[x];
      if x + |Fence| <= |s| {
        assert s[x..x + |Fence|][0] == s[x];
      }
    }
    SkipNoFence(s, 0, p);
    if tag == "" {
      PlainFenceAt(before, body, after);
    } else if tag == "py" {
      PyFenceAt(before, body, after);
    } else {
      PythonFenceAt(before, body, after);
    }
  }

  /** Validation of such a block yields its stripped body when that parses. */
  lemma ValidateFencedBlock(before: string, tag: string, body: string, after: string, syntax: Syntax)
    requires tag == "" || tag == "py" || tag == "python"
    requires '`' !in before
    requires body != "" && !IsSpace(body[0]) && !Contains(body, Closing)
    requires syntax(Strip(body)).None?
    ensures ValidateCode(before + Fenced(tag, body) + after, syntax) == Success(Strip(body))
  {
    FencedBlockFound(before, tag, body, after);
  }

  /** Without a block the code is returned unchanged when it parses, and a
      syntax error is reported otherwise. */
  lemma ValidateWithoutBlock(code: string, syntax: Syntax)
    requires !Contains(code, Closing)
    ensures syntax(code).None? ==> ValidateCode(code, syntax) == Success(code)
    ensures syntax(code).Some? ==>
      ValidateCode(code, syntax) == Failure(LLMCodeParseError(InvalidCodePrefix + syntax(code).value))
  {
    NoClosingNoBlock(code);
  }

  /** A fenced block begins and ends with a backtick. */
  lemma FencedStripped(tag: string, body: string)
    ensures Stripped(Fenced(tag, body))
  {
    var s := Fenced(tag, body);
    assert s[0] == '`';
    assert s[|s| - 1] == '`';
  }

  /** A block whose body is empty validates to empty code: `ast.parse("")`
      succeeds, so nothing rejects it. */
  lemma EmptyBlockAccepted(syntax: Syntax)
    requires syntax("").None?
    ensures ValidateCode(Fenced("", ""), syntax) == Success("")
  {
    var s := "```\n\n```";
    assert Fenced("", "") == s;
    assert s[3..5][0] == '\n';
    assert !StartsAt(s, 3, "py") && !StartsAt(s, 3, "python");
    assert SpaceRun(s, 5) == 0;
    assert SpaceRun(s, 3) == 2;
    assert StartsAt(s, 4, Closing);
    assert BodyEnd(s, 4) == Some(4);
    forall m | 5 <= m ensures !StartsAt(s, m, Closing) {
    }
    assert BodyEnd(s, 5) == None;
    assert TryNewlineAt(s, 3, 2) == Some("");
    assert FenceAt(s, 0) == Some("");
  }
}
