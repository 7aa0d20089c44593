/** Final-answer detection: the regular expression
    `<SYSTEM>Final answer is (.*?)<SYSTEM>` applied with `re.search` (no
    DOTALL, so the payload never spans a newline), and the `final_answer`
    tool that prints the sentinel on the executor side. */
module FinalAnswer {
  import opened Wrappers
  import opened Text

  const Open: string := "<SYSTEM>Final answer is "
  const Close: string := "<SYSTEM>"

  /** What the executor's `final_answer(answer)` tool prints (before the
      newline `print` adds). */
  function Sentinel(answer: string): string {
    Open + answer + Close
  }

  /** No newline in `s[a..b]`. */
  predicate NoNewline(s: string, a: int, b: int)
    requires 0 <= a <= b <= |s|
  {
    forall k :: a <= k < b ==> s[k] != '\n'
  }

  /** The pattern matches with the opening tag at `i` and the closing tag at `j`. */
  predicate IsMatch(s: string, i: int, j: int) {
    && StartsAt(s, i, Open)
    && i + |Open| <= j
    && StartsAt(s, j, Close)
    && NoNewline(s, i + |Open|, j)
  }

  /** The match `re.search` reports: the leftmost start, and for it the
      shortest payload (the quantifier is lazy). */
  ghost predicate IsFirstMatch(s: string, i: int, j: int) {
    && IsMatch(s, i, j)
    && (forall a, b :: a < i ==> !IsMatch(s, a, b))
    && (forall b :: b < j ==> !IsMatch(s, i, b))
  }

  /** The lazy `(.*?)<SYSTEM>`: the first closing tag at or after `j`, unless
      a newline comes first. */
  function CloseFrom(s: string, j: nat): (r: Option<nat>)
    requires j <= |s|
    ensures r.Some? ==> j <= r.value <= |s| && StartsAt(s, r.value, Close) && NoNewline(s, j, r.value)
    ensures r.Some? ==> forall m :: j <= m < r.value ==> !StartsAt(s, m, Close)
    ensures r.None? ==> forall m :: j <= m && StartsAt(s, m, Close) ==> !NoNewline(s, j, m)
    decreases |s| - j
  {
    if StartsAt(s, j, Close) then Some(j)
    else if j == |s| || s[j] == '\n' then None
    else CloseFrom(s, j + 1)
  }

  /** The attempt to match at position `i`: the end of the payload, if any. */
  function MatchAt(s: string, i: nat): (r: Option<nat>)
    requires i <= |s|
    ensures r.Some? ==> IsMatch(s, i, r.value) && forall b :: b < r.value ==> !IsMatch(s, i, b)
    ensures r.None? ==> forall b :: !IsMatch(s, i, b)
  {
    if StartsAt(s, i, Open) then CloseFrom(s, i + |Open|) else None
  }

  /** `re.search` from position `i` on: the start and payload end of the
      first match. */
  function SearchFrom(s: string, i: nat): (r: Option<(nat, nat)>)
    requires i <= |s|
    ensures r.Some? ==> i <= r.value.0 && IsMatch(s, r.value.0, r.value.1)
    ensures r.Some? ==> forall b :: b < r.value.1 ==> !IsMatch(s, r.value.0, b)
    ensures r.Some? ==> forall a, b :: i <= a < r.value.0 ==> !IsMatch(s, a, b)
    ensures r.None? ==> forall a, b :: i <= a ==> !IsMatch(s, a, b)
    decreases |s| - i
  {
    match MatchAt(s, i)
    case Some(j) => Some((i, j))
    case None => if i == |s| then None else SearchFrom(s, i + 1)
  }

  /** `_parse_final_answer_str(output)`: `match.group(1) if match else None`. */
  function ParseFinalAnswer(output: string): (r: Option<string>)
    ensures r.None? <==> forall i, j :: !IsMatch(output, i, j)
    ensures r.Some? ==> exists i, j :: IsFirstMatch(output, i, j) && r.value == output[i + |Open|..j]
  {
    match SearchFrom(output, 0)
    case None => None
    case Some((i, j)) =>
      assert IsFirstMatch(output, i, j);
      Some(output[i + |Open|..j])
  }

  /** The loops treat an empty payload like no answer (`if final_answer:`). */
  predicate HasAnswer(answer: Option<string>) {
    answer.Some? && answer.value != ""
  }

  // ---------------------------------------------------------------------
  // Lemmas

  /** A payload never contains a newline or the closing tag. */
  lemma PayloadIsOneTagFreeLine(output: string)
    requires ParseFinalAnswer(output).Some?
    ensures '\n' !in ParseFinalAnswer(output).value
    ensures !Contains(ParseFinalAnswer(output).value, Close)
  {
    var i, j :| IsFirstMatch(output, i, j) && ParseFinalAnswer(output).value == output[i + |Open|..j];
    FirstPayloadIsOneTagFreeLine(output, i, j);
  }

  /** The payload of the first match has no newline, and no closing tag,
      since the lazy quantifier stops at the first one. */
  lemma FirstPayloadIsOneTagFreeLine(s: string, i: int, j: int)
    requires IsFirstMatch(s, i, j)
    ensures '\n' !in s[i + |Open|..j]
    ensures !Contains(s[i + |Open|..j], Close)
  {
    var c := i + |Open|;
    var p := s[c..j];
    forall k | 0 <= k < |p| ensures p[k] != '\n' {
      assert p[k] == s[c + k];
    }
    forall m | 0 <= m <= |p| ensures !StartsAt(p, m, Close) {
      if m + |Close| <= |p| {
        var x, y := p[m..m + |Close|], s[c + m..c + m + |Close|];
        forall t | 0 <= t < |Close| ensures x[t] == y[t] {
          assert p[m + t] == s[c + m + t];
        }
        assert x == y;
        assert !IsMatch(s, i, c + m);
        assert NoNewline(s, c, c + m);
      }
    }
  }

  /** Only the first character of each tag is `<`. */
  lemma TagShapes()
    ensures |Open| == 24 && |Close| == 8
    ensures forall k :: 0 < k < |Open| ==> Open[k] != '<'
    ensures forall k :: 0 < k < |Close| ==> Close[k] != '<'
    ensures Open[0] == '<' && Close[0] == '<'
    ensures Open[..|Close|] == Close
  {
  }

  /** No opening tag starts inside `before` when `before` holds none and
      what follows begins with `<`. */
  lemma NoOpenBefore(before: string, rest: string, a: int)
    requires !Contains(before, Open)
    requires |rest| > 0 && rest[0] == '<'
    requires a < |before|
    ensures !StartsAt(before + rest, a, Open)
  {
    TagShapes();
    if 0 <= a && |before| < a + |Open| {
      NoStraddle(before, rest, Open, '<', a);
    } else if 0 <= a {
      assert !StartsAt(before, a, Open);
      assert (before + rest)[a..a + |Open|] == before[a..a + |Open|];
    }
  }

  /** No closing tag starts inside `answer`, which holds none and is
      followed by the closing tag. */
  lemma NoCloseInside(head: string, answer: string, after: string, b: int)
    requires !Contains(answer, Close)
    requires |head| <= b < |head| + |answer|
    ensures !StartsAt(head + answer + Close + after, b, Close)
  {
    TagShapes();
    var t := head + answer;
    assert head + answer + Close + after == t + (Close + after);
    if |t| < b + |Close| {
      NoStraddle(t, Close + after, Close, '<', b);
    } else {
      var m := b - |head|;
      assert !StartsAt(answer, m, Close);
      assert (t + (Close + after))[b..b + |Close|] == answer[m..m + |Close|];
    }
  }

  lemma SentinelMatches(before: string, answer: string, after: string)
    requires '\n' !in answer
    ensures var s := before + Sentinel(answer) + after;
      IsMatch(s, |before|, |before| + |Open| + |answer|)
  {
    var s := before + Sentinel(answer) + after;
    var i0 := |before|;
    var j0 := i0 + |Open| + |answer|;
    assert s == before + Open + answer + Close + after;
    assert s[i0..i0 + |Open|] == Open;
    assert s[j0..j0 + |Close|] == Close;
    forall k | i0 + |Open| <= k < j0 ensures s[k] != '\n' {
      assert s[k] == answer[k - i0 - |Open|];
    }
  }

  /** The match `re.search` reports determines the result. */
  lemma FirstMatchIsTheAnswer(s: string, i: int, j: int)
    requires IsFirstMatch(s, i, j)
    ensures ParseFinalAnswer(s) == Some(s[i + |Open|..j])
  {
    var r := SearchFrom(s, 0);
    assert r.Some?;
    assert r.value.0 == i;
    assert r.value.1 == j;
  }

  /** The round trip between the executor's `final_answer` tool and the
      agent's detection: whatever was printed before it (if it holds no
      opening tag) and after it, the answer comes back, provided it is one
      line without the closing tag. */
  lemma SentinelRoundTrip(before: string, answer: string, after: string)
    requires !Contains(before, Open)
    requires '\n' !in answer && !Contains(answer, Close)
    ensures ParseFinalAnswer(before + Sentinel(answer) + after) == Some(answer)
  {
    var s := before + Sentinel(answer) + after;
    var i0 := |before|;
    var j0 := i0 + |Open| + |answer|;
    SentinelMatches(before, answer, after);
    SentinelLeftmost(before, answer, after);
    SentinelShortest(before, answer, after);
    FirstMatchIsTheAnswer(s, i0, j0);
    SentinelPayload(before, answer, after);
  }

  lemma SentinelLeftmost(before: string, answer: string, after: string)
    requires !Contains(before, Open)
    ensures var s := before + Sentinel(answer) + after;
      forall a, b :: a < |before| ==> !IsMatch(s, a, b)
  {
    var s := before + Sentinel(answer) + after;
    assert s == before + (Sentinel(answer) + after);
    forall a, b | a < |before| ensures !IsMatch(s, a, b) {
      NoOpenBefore(before, Sentinel(answer) + after, a);
    }
  }

  lemma SentinelShortest(before: string, answer: string, after: string)
    requires !Contains(answer, Close)
    ensures var s := before + Sentinel(answer) + after;
      forall b :: b < |before| + |Open| + |answer| ==> !IsMatch(s, |before|, b)
  {
    var s := before + Sentinel(answer) + after;
    assert s == (before + Open) + answer + Close + after;
    forall b | b < |before| + |Open| + |answer| ensures !IsMatch(s, |before|, b) {
      if |before| + |Open| <= b {
        NoCloseInside(before + Open, answer, after, b);
      }
    }
  }

  lemma SentinelPayload(before: string, answer: string, after: string)
    ensures var s := before + Sentinel(answer) + after;
      s[|before| + |Open|..|before| + |Open| + |answer|] == answer
  {
    var s := before + Sentinel(answer) + after;
    assert s == (before + Open) + answer + (Close + after);
  }

  /** The tool's output line alone yields the answer; `"42"` is the usual
      example. */
  lemma FortyTwo()
    ensures ParseFinalAnswer(Sentinel("42")) == Some("42")
  {
    var before := "";
    assert !Contains(before, Open);
    assert !Contains("42", Close);
    SentinelRoundTrip(before, "42", "");
    assert before + Sentinel("42") + "" == Sentinel("42");
  }

  /** Text without the closing tag has no final answer. */
  lemma NoTagNoAnswer(output: string)
    requires !Contains(output, Close)
    ensures ParseFinalAnswer(output) == None
  {
    forall i, j ensures !IsMatch(output, i, j) {
    }
  }

  /** A sentinel whose closing tag is missing yields no final answer. */
  lemma MissingCloseTag(answer: string)
    requires !Contains(answer, Close)
    ensures ParseFinalAnswer(Open + answer) == None
  {
    var s := Open + answer;
    forall i, j ensures !IsMatch(s, i, j) {
      if |Open| <= j {
        NoCloseAfter(Open, answer, j);
      }
    }
  }

  /** A closing tag at or after `|head|` would lie inside `answer`. */
  lemma NoCloseAfter(head: string, answer: string, j: int)
    requires !Contains(answer, Close) && |head| <= j
    ensures !StartsAt(head + answer, j, Close)
  {
    var s := head + answer;
    if j + |Close| <= |s| {
      assert !StartsAt(answer, j - |head|, Close);
      assert s[j..j + |Close|] == answer[j - |head|..j - |head| + |Close|];
    }
  }
}
