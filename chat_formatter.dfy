/** `format_chat_history` (utils/chat_formatter.py, and its identical copy
    webapp/utils/chat_formatter.py): the history as console text. A banner,
    then per message a `[ROLE]` header and an underline, its content
    indented by two spaces (an assistant-style message split into its
    `Thought:` and `Code:` sections), and a closing rule. */
module ChatFormatter {
  import opened Text
  import opened Protocol
  import opened ResponseParser

  const Header: seq<string> := ["\n" + Repeat('=', 80), "CHAT HISTORY", Repeat('=', 80)]

  /** `f"  {line}"` for each line. */
  function Indented(lines: seq<string>): (r: seq<string>)
    ensures |r| == |lines|
    ensures forall i :: 0 <= i < |lines| ==> r[i] == "  " + lines[i]
  {
    seq(|lines|, i requires 0 <= i < |lines| => "  " + lines[i])
  }

  /** Whether the content is shown as thought and code sections. */
  predicate HasSections(content: string) {
    Contains(content, ThoughtMarker) && Contains(content, CodeMarker)
  }

  /** `content.split("Code:", 1)`, with `"Thought:"` removed from the first
      half, and both halves stripped. */
  function Sections(content: string): (string, string)
    requires HasSections(content)
  {
    var k := Find(content, CodeMarker);
    (Strip(Replace(content[..k], ThoughtMarker, "")), Strip(content[k + |CodeMarker|..]))
  }

  /** A `Thought:` header and the indented thought, then a `Code:` header
      and the indented code. */
  function SectionLines(thought: string, code: string): seq<string> {
    ["Thought:"] + Indented(Split(thought, "\n")) + ["\nCode:"] + Indented(Split(code, "\n"))
  }

  /** The indented lines shown for a message's content. */
  function ContentLines(content: string): seq<string> {
    if HasSections(content) then SectionLines(Sections(content).0, Sections(content).1)
    else Indented(Split(content, "\n"))
  }

  /** The lines shown for one message. */
  function MessageLines(m: Message): seq<string> {
    var role := Upper(m.role.Name());
    ["\n[" + role + "]", Repeat('-', |role| + 2)] + ContentLines(m.content) + [Repeat('-', 80)]
  }

  /** The lines `render` shows for each of `ms`, in order. */
  function Concat<T>(ms: seq<T>, render: T -> seq<string>): seq<string>
    decreases |ms|
  {
    if ms == [] then [] else Concat(ms[..|ms| - 1], render) + render(ms[|ms| - 1])
  }

  /** The lines shown for a list of messages, in order. */
  function BodyLines(ms: seq<Message>): seq<string> {
    Concat(ms, MessageLines)
  }

  function HistoryLines(ms: seq<Message>): seq<string> {
    Header + BodyLines(ms)
  }

  /** The `for line in ...: output.append(f"  {line}")` loops. */
  method AppendIndented(output: seq<string>, lines: seq<string>) returns (r: seq<string>)
    ensures r == output + Indented(lines)
  {
    r := output;
    for j := 0 to |lines|
      invariant r == output + Indented(lines[..j])
    {
      assert Indented(lines[..j + 1]) == Indented(lines[..j]) + ["  " + lines[j]];
      r := r + ["  " + lines[j]];
    }
    assert lines[..|lines|] == lines;
  }

  /** Regrouping of appended line lists, proved apart from the methods
      that use it so their own proofs stay small. */
  lemma Regroup(a: seq<string>, b: seq<string>, c: seq<string>, d: seq<string>)
    ensures a + b + c + d == a + (b + c + d)
  {
  }

  /** The two section loops. */
  method AppendSections(output: seq<string>, thought: string, code: string) returns (r: seq<string>)
    ensures r == output + SectionLines(thought, code)
  {
    r := output + ["Thought:"];
    r := AppendIndented(r, Split(thought, "\n"));
    r := r + ["\nCode:"];
    r := AppendIndented(r, Split(code, "\n"));
  }

  /** Regrouping of three appended line lists (see `Regroup`). */
  lemma Regroup3(a: seq<string>, b: seq<string>, c: seq<string>)
    ensures a + b + c == a + (b + c)
  {
  }

  /** The body of the loop over the messages. */
  method AppendMessage(output: seq<string>, m: Message) returns (r: seq<string>)
    ensures r == output + MessageLines(m)
  {
    var role := Upper(m.role.Name());
    var head := ["\n[" + role + "]", Repeat('-', |role| + 2)];
    r := output + head;
    if HasSections(m.content) {
      var sections := Sections(m.content);
      r := AppendSections(r, sections.0, sections.1);
    } else {
      r := AppendIndented(r, Split(m.content, "\n"));
    }
    var shown := ContentLines(m.content);
    assert r == output + head + shown;
    var rule := [Repeat('-', 80)];
    Regroup(output, head, shown, rule);
    r := r + rule;
  }

  lemma ConcatStep<T>(ms: seq<T>, i: nat, render: T -> seq<string>)
    requires i < |ms|
    ensures Concat(ms[..i + 1], render) == Concat(ms[..i], render) + render(ms[i])
  {
    assert ms[..i + 1][..i] == ms[..i];
  }

  /** `format_chat_history`. */
  method FormatChatHistory(messages: seq<Message>) returns (s: string)
    ensures s == Join(HistoryLines(messages), "\n")
  {
    var output := Header;
    for i := 0 to |messages|
      invariant output == Header + Concat(messages[..i], MessageLines)
    {
      var before := output;
      var shown := Concat(messages[..i], MessageLines);
      var lines := MessageLines(messages[i]);
      output := AppendMessage(output, messages[i]);
      assert output == before + lines;
      ConcatStep(messages, i, MessageLines);
      assert Concat(messages[..i + 1], MessageLines) == shown + lines;
      Regroup3(Header, shown, lines);
    }
    assert messages[..|messages|] == messages;
    return Join(output, "\n");
  }

  // ---------------------------------------------------------------------
  // Lemmas

  /** An empty history is the banner alone. */
  lemma EmptyHistory()
    ensures Join(HistoryLines([]), "\n") == "\n" + Repeat('=', 80) + "\nCHAT HISTORY\n" + Repeat('=', 80)
  {
    var rule := Repeat('=', 80);
    JoinCons("\n" + rule, ["CHAT HISTORY", rule], "\n");
    JoinCons("CHAT HISTORY", [rule], "\n");
    assert HistoryLines([]) == ["\n" + rule] + ["CHAT HISTORY", rule];
  }

  /** The lines of a history are the lines of its messages, in order: the
      text of `a + b` continues the text of `a`. */
  lemma {:induction false} ConcatAppend<T>(a: seq<T>, b: seq<T>, render: T -> seq<string>)
    ensures Concat(a + b, render) == Concat(a, render) + Concat(b, render)
    decreases |b|
  {
    if b != [] {
      var b0 := b[..|b| - 1];
      assert (a + b)[..|a + b| - 1] == a + b0;
      assert (a + b)[|a + b| - 1] == b[|b| - 1];
      ConcatAppend(a, b0, render);
    } else {
      assert a + b == a;
    }
  }

  lemma BodyLinesAppend(a: seq<Message>, b: seq<Message>)
    ensures BodyLines(a + b) == BodyLines(a) + BodyLines(b)
  {
    ConcatAppend(a, b, MessageLines);
  }

  /** Every content line is at least two characters wide: an indented
      line or a section header. */
  lemma SectionLinesWide(thought: string, code: string)
    ensures forall i :: 0 <= i < |SectionLines(thought, code)| ==> |SectionLines(thought, code)[i]| >= 2
  {
    var t := Indented(Split(thought, "\n"));
    var d := Indented(Split(code, "\n"));
    var c := SectionLines(thought, code);
    assert c == ["Thought:"] + t + ["\nCode:"] + d;
    forall i | 0 <= i < |c|
      ensures |c[i]| >= 2
    {
      if 1 <= i < 1 + |t| {
        assert c[i] == t[i - 1];
      } else if 2 + |t| <= i {
        assert c[i] == d[i - 2 - |t|];
      }
    }
  }

  lemma ContentLinesWide(content: string)
    ensures forall i :: 0 <= i < |ContentLines(content)| ==> |ContentLines(content)[i]| >= 2
  {
    if HasSections(content) {
      SectionLinesWide(Sections(content).0, Sections(content).1);
    }
  }

  /** Each message is shown between its `[ROLE]` header with an underline
      two longer than the role, and an 80-dash rule; the lines between are
      indented content or section headers. */
  lemma MessageFrame(m: Message)
    ensures var lines := MessageLines(m);
      var role := Upper(m.role.Name());
      && |lines| >= 4
      && lines[0] == "\n[" + role + "]"
      && |lines[1]| == |role| + 2 && (forall k :: 0 <= k < |lines[1]| ==> lines[1][k] == '-')
      && lines[|lines| - 1] == Repeat('-', 80)
      && (forall i :: 2 <= i < |lines| - 1 ==> |lines[i]| >= 2)
  {
    var role := Upper(m.role.Name());
    var c := ContentLines(m.content);
    ContentLinesWide(m.content);
    assert |c| >= 1;
    Framed("\n[" + role + "]", Repeat('-', |role| + 2), c, Repeat('-', 80));
  }

  lemma Framed(first: string, second: string, middle: seq<string>, last: string)
    ensures var lines := [first, second] + middle + [last];
      && |lines| == |middle| + 3
      && lines[0] == first && lines[1] == second && lines[|lines| - 1] == last
      && forall i :: 2 <= i < |lines| - 1 ==> lines[i] == middle[i - 2]
  {
  }

  /** Dropping the two-space indent. */
  function Unindent(lines: seq<string>): (r: seq<string>)
    ensures |r| == |lines|
  {
    seq(|lines|, i requires 0 <= i < |lines| => if |lines[i]| >= 2 then lines[i][2..] else lines[i])
  }

  /** A message without both markers is shown line by line, losing
      nothing: the lines, unindented and joined, are its content. */
  lemma PlainContentShown(content: string)
    requires !HasSections(content)
    ensures Join(Unindent(ContentLines(content)), "\n") == content
  {
    var lines := Split(content, "\n");
    var shown := ContentLines(content);
    assert Unindent(shown) == lines by {
      forall i | 0 <= i < |lines|
        ensures Unindent(shown)[i] == lines[i]
      {
        assert shown[i] == "  " + lines[i];
        assert shown[i][2..] == lines[i];
      }
    }
    JoinSplit(content, "\n");
  }

  /** `"Thought:"` cannot start inside `" " + thought + "\n"` when it does
      not start inside `thought`. */
  lemma NoThoughtMarkerAround(thought: string)
    requires !Contains(thought, ThoughtMarker)
    ensures !Contains(" " + thought + "\n", ThoughtMarker)
  {
    var s := " " + thought + "\n";
    var x := " " + thought;
    assert s == x + "\n";
    forall j | 0 <= j <= |s|
      ensures !StartsAt(s, j, ThoughtMarker)
    {
      if j == 0 {
        assert s[0] == ' ';
        if 8 <= |s| {
          assert s[0..8][0] == s[0];
        }
      } else if j + 8 <= |x| {
        assert s[j..j + 8] == thought[j - 1..j - 1 + 8];
        assert !StartsAt(thought, j - 1, ThoughtMarker);
      } else if j < |x| {
        NotAcross(x, "\n", ThoughtMarker, j);
      }
    }
  }

  /** Removing `"Thought:"` from the head of an assistant message. */
  lemma ReplaceHead(thought: string)
    requires !Contains(thought, ThoughtMarker)
    ensures Replace("Thought: " + thought + "\n", ThoughtMarker, "") == " " + thought + "\n"
  {
    var head := "Thought: " + thought + "\n";
    assert head[..8] == ThoughtMarker;
    assert StartsAt(head, 0, ThoughtMarker);
    assert Find(head, ThoughtMarker) == 0;
    assert head[8..] == " " + thought + "\n";
    NoThoughtMarkerAround(thought);
  }

  /** The two sections of an assistant message. */
  lemma AssistantSections(step: Step)
    requires !Contains(step.thought, CodeMarker) && !Contains(step.thought, ThoughtMarker)
    ensures HasSections(AssistantContent(step))
    ensures Sections(AssistantContent(step)) == (Strip(step.thought), Strip(step.code))
  {
    var s := AssistantContent(step);
    var k := |step.thought| + 10;
    MarkersInAssistantContent(step.thought, step.code);
    var headText := "Thought: " + step.thought + "\n";
    var tail := [' '] + step.code;
    assert s == headText + CodeMarker + tail;
    assert |headText| == k;
    assert s[..k] == headText;
    assert s[k + 5..] == tail;
    ReplaceHead(step.thought);
    assert " " + step.thought + "\n" == [' '] + (step.thought + ['\n']);
    StripSkipsSpace(' ', step.thought + ['\n']);
    StripDropsTrailingSpace(step.thought, '\n');
    StripSkipsSpace(' ', step.code);
  }

  /** The assistant message the agents write, `"Thought: t\nCode: c"`, is
      shown as its stripped thought and code, line by line, when `t` holds
      neither marker. */
  lemma AssistantShownAsSections(step: Step)
    requires !Contains(step.thought, CodeMarker) && !Contains(step.thought, ThoughtMarker)
    ensures ContentLines(AssistantContent(step)) ==
      ["Thought:"] + Indented(Split(Strip(step.thought), "\n"))
      + ["\nCode:"] + Indented(Split(Strip(step.code), "\n"))
  {
    AssistantSections(step);
  }
}
