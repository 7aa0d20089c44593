/** `_generate_tools_string` (webapp/agent/agent.py and
    webapp/agent/jupyter_agent.py): the tool list rendered into the system
    prompt, one Python-style stub per tool, separated by blank lines. Both
    agents render the same text; they differ only in reading the tool from
    an object or from a dictionary entry. */
module ToolsPrompt {
  import opened Text

  /** One input of a tool: its name and its type name. */
  datatype Param = Param(name: string, typ: string)

  /** A registered tool, with its inputs in the order its `inputs` mapping
      yields them. */
  datatype Tool = Tool(name: string, inputs: seq<Param>, outputType: string, description: string)

  const DocQuote: string := "    \"\"\""

  function ParamText(p: Param): string {
    p.name + ": " + p.typ
  }

  function ParamTexts(inputs: seq<Param>): (r: seq<string>)
    ensures |r| == |inputs|
    ensures forall i :: 0 <= i < |inputs| ==> r[i] == ParamText(inputs[i])
  {
    seq(|inputs|, i requires 0 <= i < |inputs| => ParamText(inputs[i]))
  }

  /** `def name(p: t, ...) -> output_type`. */
  function Signature(t: Tool): string {
    "def " + t.name + "(" + Join(ParamTexts(t.inputs), ", ") + ") -> " + t.outputType
  }

  /** The stub of one tool: signature, then the docstring lines. */
  function ToolBlock(t: Tool): string {
    Signature(t) + ":\n" + Join([DocQuote + "\n" + t.description, DocQuote], "\n")
  }

  function ToolBlocks(tools: seq<Tool>): (r: seq<string>)
    ensures |r| == |tools|
    ensures forall i :: 0 <= i < |tools| ==> r[i] == ToolBlock(tools[i])
  {
    seq(|tools|, i requires 0 <= i < |tools| => ToolBlock(tools[i]))
  }

  /** The whole rendering: the blocks joined by a blank line. */
  function ToolsString(tools: seq<Tool>): string {
    Join(ToolBlocks(tools), "\n\n")
  }

  /** `_generate_tools_string`: one block per tool, appended in order. */
  method GenerateToolsString(tools: seq<Tool>) returns (s: string)
    ensures s == ToolsString(tools)
  {
    var parts: seq<string> := [];
    var i := 0;
    while i < |tools|
      invariant 0 <= i <= |tools|
      invariant parts == ToolBlocks(tools[..i])
    {
      var t := tools[i];
      var params := ParamTexts(t.inputs);
      var signature := "def " + t.name + "(" + Join(params, ", ") + ") -> " + t.outputType;
      var docstring := [DocQuote + "\n" + t.description, DocQuote];
      parts := parts + [signature + ":\n" + Join(docstring, "\n")];
      i := i + 1;
    }
    assert tools[..i] == tools;
    return Join(parts, "\n\n");
  }

  // ---------------------------------------------------------------------
  // Lemmas

  /** No two newlines in a row. */
  predicate NewlinesApart(s: string) {
    forall k :: 0 <= k < |s| - 1 ==> s[k] != '\n' || s[k + 1] != '\n'
  }

  /** A tool whose names, types and description are single lines, with a
      description that is not empty. */
  predicate SingleLine(t: Tool) {
    && '\n' !in t.name && '\n' !in t.outputType
    && t.description != "" && '\n' !in t.description
    && forall i :: 0 <= i < |t.inputs| ==> '\n' !in t.inputs[i].name && '\n' !in t.inputs[i].typ
  }

  lemma {:induction false} JoinWithout(parts: seq<string>, sep: string, c: char)
    requires c !in sep && forall i :: 0 <= i < |parts| ==> c !in parts[i]
    ensures c !in Join(parts, sep)
    decreases |parts|
  {
    if |parts| > 1 {
      JoinWithout(parts[1..], sep, c);
    }
  }

  /** The block of a single-line tool is four newline-free lines. */
  lemma BlockLines(t: Tool)
    requires SingleLine(t)
    ensures var head := Signature(t) + ":";
      && '\n' !in head
      && ToolBlock(t) == head + "\n" + DocQuote + "\n" + t.description + "\n" + DocQuote
  {
    var texts := ParamTexts(t.inputs);
    forall i | 0 <= i < |texts|
      ensures '\n' !in texts[i]
    {
      assert texts[i] == t.inputs[i].name + ": " + t.inputs[i].typ;
    }
    JoinWithout(texts, ", ", '\n');
    assert Join([DocQuote + "\n" + t.description, DocQuote], "\n") == DocQuote + "\n" + t.description + "\n" + DocQuote;
  }

  /** Gluing `x + "\n" + y` keeps newlines apart when `y` does not start
      with one. */
  lemma GlueLine(x: string, y: string)
    requires NewlinesApart(x) && (x == "" || x[|x| - 1] != '\n')
    requires y != "" && '\n' !in y
    ensures NewlinesApart(x + "\n" + y)
  {
    var s := x + "\n" + y;
    forall k | 0 <= k < |s| - 1
      ensures s[k] != '\n' || s[k + 1] != '\n'
    {
      if k < |x| - 1 {
        assert s[k] == x[k] && s[k + 1] == x[k + 1];
      } else if k == |x| - 1 {
        assert s[k] == x[k];
      } else {
        assert s[k + 1] == y[k - |x|];
      }
    }
  }

  /** The block of a single-line tool has no blank line, and ends with the
      closing quotes. */
  lemma BlockApart(t: Tool)
    requires SingleLine(t)
    ensures NewlinesApart(ToolBlock(t))
    ensures ToolBlock(t)[|ToolBlock(t)| - 1] == '"'
  {
    BlockLines(t);
    var head := Signature(t) + ":";
    assert NewlinesApart(head);
    assert head[|head| - 1] == ':';
    GlueLine(head, DocQuote);
    var a := head + "\n" + DocQuote;
    assert a[|a| - 1] == '"';
    GlueLine(a, t.description);
    var b := a + "\n" + t.description;
    assert b[|b| - 1] == t.description[|t.description| - 1];
    GlueLine(b, DocQuote);
  }

  /** Hence the separating blank line is never found inside a block. */
  lemma BlockSeparated(t: Tool)
    requires SingleLine(t)
    ensures SeparatorFirstAfter(ToolBlock(t), "\n\n")
    ensures !Contains(ToolBlock(t), "\n\n")
  {
    var b := ToolBlock(t);
    BlockApart(t);
    forall j | 0 <= j < |b|
      ensures !StartsAt(b + "\n\n", j, "\n\n")
    {
      if j == |b| - 1 {
        assert (b + "\n\n")[j] == '"';
      } else {
        assert (b + "\n\n")[j] == b[j] && (b + "\n\n")[j + 1] == b[j + 1];
      }
    }
    forall j | 0 <= j <= |b|
      ensures !StartsAt(b, j, "\n\n")
    {
      if j + 2 <= |b| {
        assert b[j..j + 2] == [b[j], b[j + 1]];
      }
    }
  }

  /** The rendering splits back into one block per tool, in order, as long
      as every tool is single-line. */
  lemma ToolsStringSplits(tools: seq<Tool>)
    requires |tools| >= 1
    requires forall i :: 0 <= i < |tools| ==> SingleLine(tools[i])
    ensures Split(ToolsString(tools), "\n\n") == ToolBlocks(tools)
  {
    var blocks := ToolBlocks(tools);
    forall i | 0 <= i < |blocks|
      ensures SeparatorFirstAfter(blocks[i], "\n\n") && !Contains(blocks[i], "\n\n")
    {
      BlockSeparated(tools[i]);
    }
    SplitJoin(blocks, "\n\n");
  }

  /** Every tool's stub is part of the rendering, whatever its text. */
  lemma EveryToolListed(tools: seq<Tool>, i: int)
    requires 0 <= i < |tools|
    ensures Contains(ToolsString(tools), ToolBlock(tools[i]))
    ensures Contains(ToolsString(tools), "def " + tools[i].name + "(")
  {
    JoinContains(ToolBlocks(tools), "\n\n", i);
    var b := ToolBlock(tools[i]);
    var pre := "def " + tools[i].name + "(";
    assert b[..|pre|] == pre;
    assert StartsAt(b, 0, pre);
    var s := ToolsString(tools);
    var j :| 0 <= j <= |s| && StartsAt(s, j, b);
    assert s[j..j + |pre|] == s[j..j + |b|][..|pre|];
    assert StartsAt(s, j, pre);
  }
}
