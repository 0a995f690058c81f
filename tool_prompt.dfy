/**
 * The catalog prompt of test2/mcp_ollama_client.py: `create_tool_prompt` turns
 * the tool descriptors a server lists into prompt lines (a fixed header, then
 * per tool a heading, an optional cleaned-up description and one line per
 * argument), `choose_tool` appends the user's request to it, and
 * `execute_tool_flow` shows the text blocks of the tool result.
 */
module ToolPrompt {
  import opened Wrappers
  import opened Text
  import opened McpTypes
  import opened Seqs

  const Intro := "You are an expert tool selector. " + "Based on the user's input, "
    + "choose the single most appropriate tool " + "and provide the necessary arguments."
  const ToolsHeading := "Here are the available tools:"
  const NoArguments := "  Arguments: None"
  const ArgumentsHeading := "  Arguments:"

  // ---------------------------------------------------------------------------
  // the lines of one tool
  // ---------------------------------------------------------------------------

  /** `f"\n- Tool Name: `{tool.name}`"`; the embedded newline makes an empty line once the lines are joined. */
  function HeadingLine(name: string): string
  {
    "\n- Tool Name: `" + name + "`"
  }

  /** The description line, present exactly when the description is truthy. */
  function DescriptionLines(description: Option<string>): seq<string>
  {
    if Truthy(description) then ["  Description: " + Collapse(description.value)] else []
  }

  /** `f"{t}"` of an `anyOf` entry's type: the string itself, or "None" when the entry has no `type`. */
  function RenderType(t: Option<string>): string
  {
    if t.Some? then t.value else "None"
  }

  /** `[t.get("type") for t in anyOf if t.get("type") != "null"]` */
  function NonNullTypes(ts: seq<Option<string>>): (r: seq<Option<string>>)
    ensures |r| <= |ts|
    ensures forall k :: 0 <= k < |r| ==> r[k] != Some("null")
  {
    if ts == [] then []
    else if ts[0] != Some("null") then [ts[0]] + NonNullTypes(ts[1..])
    else NonNullTypes(ts[1..])
  }

  /**
   * The type shown for an argument: its declared `type`, "any" when it has none,
   * overridden by the first non-"null" alternative of `anyOf` when there is one.
   */
  function ResolveType(schema: ParamSchema): string
  {
    var declared := if schema.declaredType.Some? then schema.declaredType.value else "any";
    if schema.anyOf.Some? && NonNullTypes(schema.anyOf.value) != [] then
      RenderType(NonNullTypes(schema.anyOf.value)[0])
    else declared
  }

  /** `k` is the index of the first alternative whose type is not "null". */
  predicate FirstNonNull(ts: seq<Option<string>>, k: int)
  {
    0 <= k < |ts| && ts[k] != Some("null") && forall m :: 0 <= m < k ==> ts[m] == Some("null")
  }

  lemma {:induction false} NonNullTypesFirst(ts: seq<Option<string>>)
    ensures NonNullTypes(ts) == [] <==> forall k :: 0 <= k < |ts| ==> ts[k] == Some("null")
    ensures NonNullTypes(ts) != [] ==> exists k :: FirstNonNull(ts, k) && NonNullTypes(ts)[0] == ts[k]
  {
    if ts != [] {
      NonNullTypesFirst(ts[1..]);
      if ts[0] == Some("null") {
        assert forall k :: 1 <= k < |ts| ==> ts[k] == ts[1..][k - 1];
        if NonNullTypes(ts) != [] {
          var k :| FirstNonNull(ts[1..], k) && NonNullTypes(ts[1..])[0] == ts[1..][k];
          assert FirstNonNull(ts, k + 1);
        }
      } else {
        assert FirstNonNull(ts, 0);
      }
    }
  }

  /**
   * The type resolution: when `anyOf` is present and some alternative is not
   * "null", the first such alternative's type; otherwise the declared type, or
   * "any" when none is declared.
   */
  lemma ResolveTypeSpec(schema: ParamSchema)
    ensures schema.anyOf.None? || (forall k :: 0 <= k < |schema.anyOf.value| ==> schema.anyOf.value[k] == Some("null"))
      ==> ResolveType(schema) == (if schema.declaredType.Some? then schema.declaredType.value else "any")
    ensures schema.anyOf.Some? && (exists k :: 0 <= k < |schema.anyOf.value| && schema.anyOf.value[k] != Some("null"))
      ==> exists k :: FirstNonNull(schema.anyOf.value, k) && ResolveType(schema) == RenderType(schema.anyOf.value[k])
  {
    if schema.anyOf.Some? {
      NonNullTypesFirst(schema.anyOf.value);
    }
  }

  /** "required" when the argument is listed in `required`, "optional" otherwise. */
  function Status(name: string, required: seq<string>): string
  {
    if name in required then "required" else "optional"
  }

  /** `f"    - `{arg_name}` (type: {arg_type}, status: {status})"` */
  function ParamLine(name: string, argType: string, status: string): string
  {
    "    - `" + name + "` (type: " + argType + ", status: " + status + ")"
  }

  /** The argument lines of the properties, in `properties` order. */
  function ParamLines(properties: seq<(string, ParamSchema)>, required: seq<string>): (r: seq<string>)
    ensures |r| == |properties|
  {
    if properties == [] then []
    else
      var last := properties[|properties| - 1];
      ParamLines(properties[..|properties| - 1], required) + [ParamLine(last.0, ResolveType(last.1), Status(last.0, required))]
  }

  /** Exactly one line per property, in `properties` order. */
  lemma {:induction false} ParamLinesSpec(properties: seq<(string, ParamSchema)>, required: seq<string>)
    ensures forall k :: 0 <= k < |properties| ==>
      ParamLines(properties, required)[k]
        == ParamLine(properties[k].0, ResolveType(properties[k].1), Status(properties[k].0, required))
  {
    if properties != [] {
      var init := properties[..|properties| - 1];
      ParamLinesSpec(init, required);
      assert forall k :: 0 <= k < |init| ==> init[k] == properties[k];
    }
  }

  /** "  Arguments: None" when there is no property; otherwise "  Arguments:" and one line per property. */
  function ArgumentLines(schema: InputSchema): seq<string>
  {
    if schema.properties == [] then [NoArguments]
    else [ArgumentsHeading] + ParamLines(schema.properties, schema.required)
  }

  /** The lines one tool contributes. */
  function ToolLines(tool: Tool): seq<string>
  {
    [HeadingLine(tool.name)] + DescriptionLines(tool.description) + ArgumentLines(tool.inputSchema)
  }

  /** The lines of all tools, in catalog order. */
  function AllToolLines(tools: seq<Tool>): seq<string>
  {
    if tools == [] then [] else AllToolLines(tools[..|tools| - 1]) + ToolLines(tools[|tools| - 1])
  }

  /** The prompt lines: the two header lines, then the lines of every tool. */
  function PromptLines(tools: seq<Tool>): seq<string>
  {
    [Intro, ToolsHeading] + AllToolLines(tools)
  }

  /** The prompt text: the prompt lines joined by newlines. */
  function ToolPromptText(tools: seq<Tool>): string
  {
    Join("\n", PromptLines(tools))
  }

  // ---------------------------------------------------------------------------
  // create_tool_prompt
  // ---------------------------------------------------------------------------

  /** `create_tool_prompt`: appends the lines tool by tool, then joins them with newlines. */
  method CreateToolPrompt(tools: seq<Tool>) returns (prompt: string)
    ensures prompt == ToolPromptText(tools)
  {
    var lines := [Intro, ToolsHeading];
    ghost var header := lines;
    var i := 0;
    assert tools[..0] == [];
    while i < |tools|
      invariant 0 <= i <= |tools|
      invariant lines == header + AllToolLines(tools[..i])
    {
      assert tools[..i + 1][..i] == tools[..i];
      Assoc<string>(header, AllToolLines(tools[..i]), ToolLines(tools[i]));
      lines := AppendToolLines(lines, tools[i]);
      i := i + 1;
    }
    assert tools[..i] == tools;
    prompt := Join("\n", lines);
  }

  /**
   * The body of the loop over the tools: appends the heading, the description
   * when there is one, and the argument section, argument by argument.
   */
  method AppendToolLines(lines0: seq<string>, tool: Tool) returns (lines: seq<string>)
    ensures lines == lines0 + ToolLines(tool)
  {
    lines := lines0 + [HeadingLine(tool.name)];
    if tool.description.Some? && tool.description.value != "" {
      var clean := Join(" ", Words(Strip(tool.description.value)));
      lines := lines + ["  Description: " + clean];
    }
    ghost var described := lines;
    assert described == lines0 + [HeadingLine(tool.name)] + DescriptionLines(tool.description);

    var properties := tool.inputSchema.properties;
    var required := tool.inputSchema.required;
    if properties == [] {
      lines := lines + [NoArguments];
      RegroupFour<string>(lines0, [HeadingLine(tool.name)], DescriptionLines(tool.description), [NoArguments]);
      return;
    }

    lines := AppendParamLines(lines + [ArgumentsHeading], properties, required);
    RegroupFive<string>(lines0, [HeadingLine(tool.name)], DescriptionLines(tool.description), [ArgumentsHeading],
      ParamLines(properties, required));
  }

  /** The loop over a tool's arguments: one line per property, in order. */
  method AppendParamLines(lines0: seq<string>, properties: seq<(string, ParamSchema)>, required: seq<string>)
    returns (lines: seq<string>)
    ensures lines == lines0 + ParamLines(properties, required)
  {
    lines := lines0;
    var j := 0;
    while j < |properties|
      invariant 0 <= j <= |properties|
      invariant lines == lines0 + ParamLines(properties[..j], required)
    {
      var (argName, argSchema) := properties[j];
      var argType := if argSchema.declaredType.Some? then argSchema.declaredType.value else "any";
      if argSchema.anyOf.Some? {
        var types := NonNullTypes(argSchema.anyOf.value);
        if types != [] {
          argType := RenderType(types[0]);
        }
      }
      var status := if argName in required then "required" else "optional";
      ghost var line := ParamLine(argName, argType, status);
      ParamLinesStep(properties, required, j);
      Assoc<string>(lines0, ParamLines(properties[..j], required), [line]);
      lines := lines + [ParamLine(argName, argType, status)];
      j := j + 1;
    }
    assert properties[..j] == properties;
  }

  /** One more property adds its line at the end. */
  lemma ParamLinesStep(properties: seq<(string, ParamSchema)>, required: seq<string>, j: nat)
    requires j < |properties|
    ensures ParamLines(properties[..j + 1], required)
      == ParamLines(properties[..j], required)
         + [ParamLine(properties[j].0, ResolveType(properties[j].1), Status(properties[j].0, required))]
  {
    assert properties[..j + 1][..j] == properties[..j];
  }

  // ---------------------------------------------------------------------------
  // what the prompt says
  // ---------------------------------------------------------------------------

  /** The prompt always opens with the two header lines. */
  lemma PromptHeader(tools: seq<Tool>)
    ensures |PromptLines(tools)| >= 2
    ensures PromptLines(tools)[0] == Intro && PromptLines(tools)[1] == ToolsHeading
    ensures var h := Intro + "\n" + ToolsHeading;
      |h| <= |ToolPromptText(tools)| && ToolPromptText(tools)[..|h|] == h
  {
    JoinTwoHead("\n", Intro, ToolsHeading, AllToolLines(tools));
  }

  /** A line opens a tool's section when it starts with a newline. */
  predicate IsHeading(line: string)
  {
    |line| > 0 && line[0] == '\n'
  }

  /** The section-opening lines, in order. */
  function Headings(lines: seq<string>): seq<string>
  {
    if lines == [] then []
    else if IsHeading(lines[0]) then [lines[0]] + Headings(lines[1..])
    else Headings(lines[1..])
  }

  lemma {:induction false} HeadingsConcat(a: seq<string>, b: seq<string>)
    ensures Headings(a + b) == Headings(a) + Headings(b)
  {
    if a == [] {
      assert a + b == b;
    } else {
      assert (a + b)[0] == a[0];
      assert (a + b)[1..] == a[1..] + b;
      HeadingsConcat(a[1..], b);
    }
  }

  /** Lines that do not start with a newline hold no heading. */
  lemma {:induction false} NoHeadings(lines: seq<string>)
    requires forall k :: 0 <= k < |lines| ==> !IsHeading(lines[k])
    ensures Headings(lines) == []
  {
    if lines != [] {
      NoHeadings(lines[1..]);
    }
  }

  /** Among the lines of one tool, only its heading opens a section. */
  lemma ToolHeadings(tool: Tool)
    ensures Headings(ToolLines(tool)) == [HeadingLine(tool.name)]
  {
    var heading := [HeadingLine(tool.name)];
    var description := DescriptionLines(tool.description);
    DescriptionNoHeadings(tool.description);
    ArgumentNoHeadings(tool.inputSchema);
    HeadingsConcat(heading, description);
    HeadingsConcat(heading + description, ArgumentLines(tool.inputSchema));
    assert Headings(heading) == heading;
  }

  lemma DescriptionNoHeadings(description: Option<string>)
    ensures Headings(DescriptionLines(description)) == []
  {
    if Truthy(description) {
      var line := "  Description: " + Collapse(description.value);
      assert line[0] == ' ';
      assert Headings([line]) == [];
    }
  }

  lemma ArgumentNoHeadings(schema: InputSchema)
    ensures Headings(ArgumentLines(schema)) == []
  {
    if schema.properties == [] {
      assert Headings([NoArguments]) == [];
    } else {
      ParamLinesNoHeadings(schema.properties, schema.required);
      HeadingsConcat([ArgumentsHeading], ParamLines(schema.properties, schema.required));
      assert Headings([ArgumentsHeading]) == [];
    }
  }

  lemma {:induction false} ParamLinesNoHeadings(properties: seq<(string, ParamSchema)>, required: seq<string>)
    ensures Headings(ParamLines(properties, required)) == []
  {
    if properties != [] {
      var init, last := properties[..|properties| - 1], properties[|properties| - 1];
      var line := ParamLine(last.0, ResolveType(last.1), Status(last.0, required));
      ParamLinesNoHeadings(init, required);
      HeadingsConcat(ParamLines(init, required), [line]);
      assert line[0] == ' ';
      assert Headings([line]) == [];
    }
  }

  /** The heading lines of a list of tools, in order. */
  function HeadingLines(tools: seq<Tool>): (r: seq<string>)
    ensures |r| == |tools|
    ensures forall k :: 0 <= k < |tools| ==> r[k] == HeadingLine(tools[k].name)
  {
    if tools == [] then [] else HeadingLines(tools[..|tools| - 1]) + [HeadingLine(tools[|tools| - 1].name)]
  }

  /**
   * Every tool appears exactly once, in catalog order, as a "- Tool Name" line;
   * no other prompt line starts a section.
   */
  lemma {:induction false} PromptHeadings(tools: seq<Tool>)
    ensures Headings(PromptLines(tools)) == HeadingLines(tools)
  {
    AllToolHeadings(tools);
    HeadingsConcat([Intro, ToolsHeading], AllToolLines(tools));
    assert Intro[0] == 'Y';
    NoHeadings([Intro, ToolsHeading]);
  }

  lemma {:induction false} AllToolHeadings(tools: seq<Tool>)
    ensures Headings(AllToolLines(tools)) == HeadingLines(tools)
  {
    if tools != [] {
      var init := tools[..|tools| - 1];
      AllToolHeadings(init);
      ToolHeadings(tools[|tools| - 1]);
      HeadingsConcat(AllToolLines(init), ToolLines(tools[|tools| - 1]));
    }
  }

  /**
   * Tool `k`'s own heading, with its leading newline, follows the joining
   * newline right after the joined lines that come before it (the header and
   * the tools before `k`), so its section is preceded by an empty line.
   */
  lemma HeadingAfterEmptyLine(tools: seq<Tool>, k: nat)
    requires k < |tools|
    ensures OccursAt(ToolPromptText(tools), "\n" + HeadingLine(tools[k].name),
                     |Join("\n", [Intro, ToolsHeading] + AllToolLines(tools[..k]))|)
  {
    var pre := [Intro, ToolsHeading] + AllToolLines(tools[..k]);
    var post := ToolLines(tools[k]) + AllToolLines(tools[k + 1..]);
    AllToolLinesAround(tools, k);
    Assoc<string>([Intro, ToolsHeading], AllToolLines(tools[..k]), post);
    assert PromptLines(tools) == pre + post;
    assert post[0] == HeadingLine(tools[k].name);
    JoinSeparatorOccurs("\n", pre, post);
    assert OccursAt(ToolPromptText(tools), "\n" + post[0], |Join("\n", pre)|);
  }

  /** The catalog's lines around tool `k`: those of the tools before it, its own, those after it. */
  lemma AllToolLinesAround(tools: seq<Tool>, k: nat)
    requires k < |tools|
    ensures AllToolLines(tools) == AllToolLines(tools[..k]) + (ToolLines(tools[k]) + AllToolLines(tools[k + 1..]))
  {
    var upTo := tools[..k] + [tools[k]];
    SplitAround(tools, k);
    AllToolLinesConcat(upTo, tools[k + 1..]);
    Assoc<string>(AllToolLines(tools[..k]), ToolLines(tools[k]), AllToolLines(tools[k + 1..]));
  }

  /** The lines of a concatenation of catalogs are the lines of each, in order. */
  lemma {:induction false} AllToolLinesConcat(a: seq<Tool>, b: seq<Tool>)
    ensures AllToolLines(a + b) == AllToolLines(a) + AllToolLines(b)
  {
    if b == [] {
      assert a + b == a;
    } else {
      var init := b[..|b| - 1];
      assert (a + b)[..|a + b| - 1] == a + init;
      AllToolLinesConcat(a, init);
      Assoc<string>(AllToolLines(a), AllToolLines(init), ToolLines(b[|b| - 1]));
    }
  }

  /**
   * A description line is emitted exactly when the description is non-empty;
   * its text is the description stripped, split into its words and rejoined
   * by single spaces.
   */
  lemma DescriptionLineSpec(description: Option<string>)
    ensures |DescriptionLines(description)| == (if Truthy(description) then 1 else 0)
    ensures Truthy(description) ==> var d := DescriptionLines(description)[0];
      |d| >= 15 && d[..15] == "  Description: "
      && Words(d[15..]) == Words(Strip(description.value)) && SingleSpaced(d[15..])
  {
    if Truthy(description) {
      var c := Collapse(description.value);
      var d := "  Description: " + c;
      assert d[15..] == c;
      CollapseSpec(description.value);
    }
  }

  /**
   * The argument section: exactly "  Arguments: None" when the tool has no
   * property; otherwise "  Arguments:" followed by exactly one line per
   * property, in `properties` order, typed by `ResolveType` and labelled
   * "required" iff its name is listed in `required`. A required name that is
   * not a property produces no line.
   */
  lemma ArgumentLinesSpec(schema: InputSchema)
    ensures schema.properties == [] ==> ArgumentLines(schema) == [NoArguments]
    ensures schema.properties != [] ==>
      var lines := ArgumentLines(schema);
      && |lines| == 1 + |schema.properties|
      && lines[0] == ArgumentsHeading
      && forall k :: 0 <= k < |schema.properties| ==>
           var (name, ps) := schema.properties[k];
           lines[k + 1] == ParamLine(name, ResolveType(ps), if name in schema.required then "required" else "optional")
  {
    ParamLinesSpec(schema.properties, schema.required);
  }

  // ---------------------------------------------------------------------------
  // choose_tool and execute_tool_flow
  // ---------------------------------------------------------------------------

  /** What `choose_tool` puts between the catalog prompt and the quoted user input. */
  const InputMarker := "\n\n--- \nUser Input: \""

  /** A prompt made of the catalog prompt, a marker, and the user's input in double quotes. */
  function WithUserInput(toolPrompt: string, marker: string, expression: string): string
  {
    toolPrompt + marker + expression + "\""
  }

  /** `f'{tool_prompt}\n\n--- \nUser Input: "{expression}"'` */
  function SelectionPrompt(toolPrompt: string, expression: string): string
  {
    WithUserInput(toolPrompt, InputMarker, expression)
  }

  /** Reads the user input back out of a prompt built on `toolPrompt` and `marker`. */
  function UserInputOf(prompt: string, toolPrompt: string, marker: string): Option<string>
  {
    var n := |toolPrompt| + |marker|;
    if n + 1 <= |prompt| && prompt[..|toolPrompt|] == toolPrompt && prompt[|toolPrompt|..n] == marker
       && prompt[|prompt| - 1] == '"'
    then Some(prompt[n..|prompt| - 1])
    else None
  }

  /**
   * The prompt starts with the catalog prompt unchanged, and the user's input
   * can be read back from it.
   */
  lemma WithUserInputRoundTrip(toolPrompt: string, marker: string, expression: string)
    ensures var p := WithUserInput(toolPrompt, marker, expression);
      |toolPrompt| <= |p| && p[..|toolPrompt|] == toolPrompt
      && UserInputOf(p, toolPrompt, marker) == Some(expression)
  {
    var p := WithUserInput(toolPrompt, marker, expression);
    var n := |toolPrompt| + |marker|;
    assert p == toolPrompt + marker + expression + "\"";
    assert p[..|toolPrompt|] == toolPrompt;
    assert p[|toolPrompt|..n] == marker;
    assert p[n..|p| - 1] == expression;
  }

  /** No two user inputs give the same selection prompt. */
  lemma SelectionPromptInjective(toolPrompt: string, e1: string, e2: string)
    requires SelectionPrompt(toolPrompt, e1) == SelectionPrompt(toolPrompt, e2)
    ensures e1 == e2
  {
    WithUserInputRoundTrip(toolPrompt, InputMarker, e1);
    WithUserInputRoundTrip(toolPrompt, InputMarker, e2);
  }

  const ResultHeading := "Result from server:"

  /** `f"- {block}"` for each text, in order. */
  function Bullets(texts: seq<string>): (r: seq<string>)
    ensures |r| == |texts|
    ensures forall k :: 0 <= k < |texts| ==> r[k] == "- " + texts[k]
  {
    if texts == [] then [] else Bullets(texts[..|texts| - 1]) + ["- " + texts[|texts| - 1]]
  }

  /**
   * The lines `execute_tool_flow` shows for a tool result: the heading, then a
   * bullet per text-typed block, or the result's JSON dump when there is none.
   */
  function ResultLines(result: CallToolResult, dump: string): seq<string>
  {
    var texts := TextsOfType(result.content);
    [ResultHeading] + (if texts != [] then Bullets(texts) else [dump])
  }

  /** The display part of `execute_tool_flow`, with the printed lines collected in order. */
  method ShowResult(result: CallToolResult, dump: string) returns (lines: seq<string>)
    ensures lines == ResultLines(result, dump)
  {
    var textBlocks := TextsOfType(result.content);
    lines := [ResultHeading];
    if textBlocks != [] {
      var i := 0;
      while i < |textBlocks|
        invariant 0 <= i <= |textBlocks|
        invariant lines == [ResultHeading] + Bullets(textBlocks[..i])
      {
        assert textBlocks[..i + 1][..i] == textBlocks[..i];
        lines := lines + ["- " + textBlocks[i]];
        i := i + 1;
      }
      assert textBlocks[..i] == textBlocks;
    } else {
      lines := lines + [dump];
    }
  }

  /**
   * When some block of the result is text-typed, all their texts are shown, in
   * payload order, and the dump is not; otherwise the dump alone is shown.
   */
  lemma ResultLinesSpec(result: CallToolResult, dump: string)
    ensures var lines := ResultLines(result, dump);
      && |lines| >= 2 && lines[0] == ResultHeading
      && ((exists k :: 0 <= k < |result.content| && IsTextType(result.content[k])) ==>
            |lines| == 1 + |TextsOfType(result.content)|
            && forall k :: 0 <= k < |TextsOfType(result.content)| ==> lines[k + 1] == "- " + TextsOfType(result.content)[k])
      && ((forall k :: 0 <= k < |result.content| ==> !IsTextType(result.content[k])) ==> lines == [ResultHeading, dump])
  {
  }
}
