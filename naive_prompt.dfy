/**
 * The naive catalog prompt of test-mcp/mcp_ollama_client.py: `create_tool_prompt`
 * appends one "- name: description" line per tool to a fixed header, the
 * request prompt appends the user's input, and the server response is shown
 * as the texts of the blocks that carry one.
 */
module NaivePrompt {
  import opened Wrappers
  import opened Text
  import opened McpTypes
  import opened ToolPrompt
  import opened Seqs

  /** The fixed header; unlike the test2 prompt, the two sentences are separated by an empty line. */
  const NaiveHeader := Intro + "\n\n" + ToolsHeading

  /** `f"{tool.description}"`: the description, or "None" when the tool has none. */
  function RenderDescription(description: Option<string>): string
  {
    if description.Some? then description.value else "None"
  }

  /** `f"- {tool.name}: {tool.description}\n"` */
  function Entry(tool: Tool): string
  {
    "- " + tool.name + ": " + RenderDescription(tool.description) + "\n"
  }

  /** The entries of the tools, concatenated in catalog order. */
  function EntriesText(tools: seq<Tool>): string
  {
    if tools == [] then "" else EntriesText(tools[..|tools| - 1]) + Entry(tools[|tools| - 1])
  }

  /** The prompt: the header immediately followed by the entries. */
  function NaivePromptText(tools: seq<Tool>): string
  {
    NaiveHeader + EntriesText(tools)
  }

  /** `create_tool_prompt`: starts from the header and appends each tool's entry. */
  method CreateNaivePrompt(tools: seq<Tool>) returns (prompt: string)
    ensures prompt == NaivePromptText(tools)
  {
    prompt := NaiveHeader;
    var i := 0;
    assert tools[..0] == [];
    while i < |tools|
      invariant 0 <= i <= |tools|
      invariant prompt == NaiveHeader + EntriesText(tools[..i])
    {
      EntriesTextStep(tools, i);
      Assoc(NaiveHeader, EntriesText(tools[..i]), Entry(tools[i]));
      prompt := prompt + Entry(tools[i]);
      i := i + 1;
    }
    assert tools[..i] == tools;
  }

  /** One more tool adds its entry at the end. */
  lemma EntriesTextStep(tools: seq<Tool>, i: nat)
    requires i < |tools|
    ensures EntriesText(tools[..i + 1]) == EntriesText(tools[..i]) + Entry(tools[i])
  {
    assert tools[..i + 1][..i] == tools[..i];
  }

  /** The entries of a concatenation of catalogs are the entries of each, in order. */
  lemma {:induction false} EntriesTextConcat(a: seq<Tool>, b: seq<Tool>)
    ensures EntriesText(a + b) == EntriesText(a) + EntriesText(b)
  {
    if b == [] {
      assert a + b == a;
    } else {
      var init := b[..|b| - 1];
      assert (a + b)[..|a + b| - 1] == a + init;
      Assoc(EntriesText(a), EntriesText(init), Entry(b[|b| - 1]));
      EntriesTextConcat(a, init);
    }
  }

  /** The prompt starts with the header; with no tools it is exactly the header. */
  lemma NaivePromptHeader(tools: seq<Tool>)
    ensures var p := NaivePromptText(tools);
      && |NaiveHeader| <= |p| && p[..|NaiveHeader|] == NaiveHeader
      && (tools == [] ==> p == NaiveHeader)
  {
    var h, x := NaiveHeader, EntriesText(tools);
    assert (h + x)[..|h|] == h;
    assert h + [] == h;
  }

  /** The first tool's entry follows the header directly, with no separator in between. */
  lemma NaivePromptFirstEntry(tools: seq<Tool>)
    requires tools != []
    ensures OccursAt(NaivePromptText(tools), "- " + tools[0].name + ": ", |NaiveHeader|)
  {
    EntryAt(tools, 0);
    assert tools[..0] == [];
    assert EntriesText(tools[..0]) == "";
    EntryLead(tools[0]);
    OccursPrefix(NaivePromptText(tools), Entry(tools[0]), |NaiveHeader|, "- " + tools[0].name + ": ");
  }

  /** An entry starts with the dash, the tool's name and a colon. */
  lemma EntryLead(tool: Tool)
    ensures var lead := "- " + tool.name + ": ";
      |lead| <= |Entry(tool)| && Entry(tool)[..|lead|] == lead
  {
    var lead := "- " + tool.name + ": ";
    Assoc(lead, RenderDescription(tool.description), "\n");
    assert Entry(tool) == lead + (RenderDescription(tool.description) + "\n");
  }

  /** With at least one tool, the prompt ends with a newline. */
  lemma NaivePromptEndsWithNewline(tools: seq<Tool>)
    requires tools != []
    ensures var p := NaivePromptText(tools); p[|p| - 1] == '\n'
  {
    var last := Entry(tools[|tools| - 1]);
    var front := NaiveHeader + EntriesText(tools[..|tools| - 1]);
    assert NaivePromptText(tools) == front + last;
    assert last[|last| - 1] == '\n';
  }

  /** Tool `k`'s entry sits right after the entries of the tools before it. */
  lemma EntryAt(tools: seq<Tool>, k: nat)
    requires k < |tools|
    ensures OccursAt(NaivePromptText(tools), Entry(tools[k]), |NaiveHeader| + |EntriesText(tools[..k])|)
  {
    var upTo := tools[..k] + [tools[k]];
    SplitAround(tools, k);
    var x, e, y := EntriesText(tools[..k]), Entry(tools[k]), EntriesText(tools[k + 1..]);
    assert EntriesText(upTo) == x + e;
    EntriesTextConcat(upTo, tools[k + 1..]);
    assert EntriesText(tools) == (x + e) + y;
    Assoc(NaiveHeader, x + e, y);
    Assoc(NaiveHeader, x, e);
    OccursAfter(NaiveHeader + x, e, y);
  }

  /** What the request prompt puts between the catalog prompt and the quoted user input. */
  const NaiveInputMarker := "\n\n---\nUser Input: \""

  /** `f'{tool_prompt}\n\n---\nUser Input: "{user_input}"'` */
  function RequestPrompt(toolPrompt: string, userInput: string): string
  {
    WithUserInput(toolPrompt, NaiveInputMarker, userInput)
  }

  /** The request prompt starts with the catalog prompt, and the user input can be read back from it. */
  lemma RequestPromptInput(toolPrompt: string, userInput: string)
    ensures var p := RequestPrompt(toolPrompt, userInput);
      |toolPrompt| <= |p| && p[..|toolPrompt|] == toolPrompt
      && UserInputOf(p, toolPrompt, NaiveInputMarker) == Some(userInput)
  {
    WithUserInputRoundTrip(toolPrompt, NaiveInputMarker, userInput);
  }

  const ResponseHeading := "Server Response:"

  /** The printed response: the heading, then a bullet per block that has a `text` attribute. */
  function ResponseLines(result: CallToolResult): seq<string>
  {
    [ResponseHeading] + Bullets(TextsWithAttribute(result.content))
  }

  /**
   * The response shows the texts of exactly the text blocks, in payload order
   * (the same selection as filtering on `type == "text"`), and nothing beyond
   * the heading when no block carries text.
   */
  lemma ResponseLinesSpec(result: CallToolResult)
    ensures var lines := ResponseLines(result);
      && lines[0] == ResponseHeading
      && lines[1..] == Bullets(TextsOfType(result.content))
      && (|lines| == 1 <==> forall k :: 0 <= k < |result.content| ==> !HasTextAttribute(result.content[k]))
  {
    TextFiltersAgree(result.content);
    var lines := ResponseLines(result);
    assert lines[1..] == Bullets(TextsWithAttribute(result.content));
  }
}
