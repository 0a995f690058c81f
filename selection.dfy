/**
 * Recovering and using a tool choice from free-form model output, as
 * test3/mcp_ollama_client.py does: `_extract_json_object` parses the whole
 * reply or else the greedy `{ ... }` span of it, the choice must be an object
 * with "name" and "arguments", the tool result is displayed by a three-way
 * priority, and the text parts of a prompt's messages are gathered into one
 * stripped string.
 *
 * `json.loads` is a parameter `parse` (None when it raises); `json.dumps` and
 * `model_dump` appear only as the strings they produce.
 */
module Selection {
  import opened Wrappers
  import opened Text
  import opened McpTypes
  import opened Seqs

  // ---------------------------------------------------------------------------
  // the regular expression \{[\s\S]*\}
  // ---------------------------------------------------------------------------

  /** `text[i..j]` is a match of `\{[\s\S]*\}`: a '{', any characters, a '}'. */
  predicate RegexMatchAt(text: string, i: int, j: int)
  {
    0 <= i && i + 2 <= j <= |text| && text[i] == '{' && text[j - 1] == '}'
  }

  /** The index of the first occurrence of `c`, if any. */
  function FindFirst(s: string, c: char): (r: Option<nat>)
    ensures r.None? <==> c !in s
    ensures r.Some? ==> r.value < |s| && s[r.value] == c && forall k :: 0 <= k < r.value ==> s[k] != c
  {
    if s == [] then None
    else if s[0] == c then Some(0)
    else match FindFirst(s[1..], c)
      case None => None
      case Some(k) => Some(k + 1)
  }

  /** The index of the last occurrence of `c`, if any. */
  function FindLast(s: string, c: char): (r: Option<nat>)
    ensures r.None? <==> c !in s
    ensures r.Some? ==> r.value < |s| && s[r.value] == c && forall k :: r.value < k < |s| ==> s[k] != c
  {
    if s == [] then None
    else if s[|s| - 1] == c then Some(|s| - 1)
    else FindLast(s[..|s| - 1], c)
  }

  /**
   * The span `re.search(r"\{[\s\S]*\}", text)` matches: the search takes the
   * leftmost start that has a match, and the greedy `*` then takes the longest
   * match from there, which ends at the last '}' of the text. So the span runs
   * from the first '{' through the last '}' when that '}' comes after it; there
   * is no match otherwise.
   */
  function BraceSpan(text: string): (r: Option<(nat, nat)>)
    ensures r.None? <==> forall i, j :: !RegexMatchAt(text, i, j)
    ensures r.Some? ==> RegexMatchAt(text, r.value.0, r.value.1)
    ensures r.Some? ==> forall i, j :: RegexMatchAt(text, i, j) ==> r.value.0 < i || (r.value.0 == i && j <= r.value.1)
  {
    var first, last := FindFirst(text, '{'), FindLast(text, '}');
    if first.Some? && last.Some? && first.value < last.value then
      assert RegexMatchAt(text, first.value, last.value + 1);
      Some((first.value, last.value + 1))
    else
      None
  }

  /** The matched text, `match.group(0)`. */
  function Candidate(text: string): Option<string>
  {
    match BraceSpan(text)
    case None => None
    case Some((i, j)) => Some(text[i..j])
  }

  // ---------------------------------------------------------------------------
  // _extract_json_object
  // ---------------------------------------------------------------------------

  /** The ways recovering and checking a choice can fail. */
  datatype SelectError =
    | NoJsonObject             // "No JSON object found in model output"
    | DecodeFailed(candidate: string)  // json.loads raised on the matched span
    | InvalidChoice(choice: Json)      // "Invalid tool choice JSON: ..."

  /**
   * The message of the ValueError each failure raises; the message of a
   * `json.loads` error and Python's repr of a rejected choice are not modelled.
   */
  function Message(e: SelectError): Option<string>
  {
    match e
    case NoJsonObject => Some("No JSON object found " + "in model output")
    case DecodeFailed(_) => None
    case InvalidChoice(_) => None
  }

  /**
   * `_extract_json_object`: the whole text when it parses; otherwise the
   * greedy span when there is one, whose parse error propagates.
   */
  function ExtractJsonObject(text: string, parse: string -> Option<Json>): Result<Json, SelectError>
  {
    if parse(text).Some? then Ok(parse(text).value)
    else match Candidate(text)
      case None => Err(NoJsonObject)
      case Some(c) => if parse(c).Some? then Ok(parse(c).value) else Err(DecodeFailed(c))
  }

  /** When the whole text parses, its value is returned as it is, whatever braces the text holds. */
  lemma ExtractFastPath(text: string, parse: string -> Option<Json>)
    requires parse(text).Some?
    ensures ExtractJsonObject(text, parse) == Ok(parse(text).value)
  {
  }

  /**
   * Otherwise extraction succeeds exactly when the text has a '{' followed
   * somewhere by a '}' and the span from the first '{' to the last '}' parses;
   * with no such pair it fails with "No JSON object found", and when the span
   * does not parse it fails on that span.
   */
  lemma ExtractSlowPath(text: string, parse: string -> Option<Json>)
    requires parse(text).None?
    ensures (forall i, j :: !RegexMatchAt(text, i, j)) <==> ExtractJsonObject(text, parse) == Err(NoJsonObject)
    ensures (forall i, j :: !RegexMatchAt(text, i, j)) ==>
      var r := ExtractJsonObject(text, parse);
      r.Err? && Message(r.error) == Some("No JSON object found " + "in model output")
    ensures forall i, j :: RegexMatchAt(text, i, j) ==>
      var s := BraceSpan(text).value;
      && text[s.0] == '{' && (forall k :: 0 <= k < s.0 ==> text[k] != '{')
      && text[s.1 - 1] == '}' && (forall k :: s.1 <= k < |text| ==> text[k] != '}')
      && ExtractJsonObject(text, parse)
           == (if parse(text[s.0..s.1]).Some? then Ok(parse(text[s.0..s.1]).value) else Err(DecodeFailed(text[s.0..s.1])))
  {
  }

  /**
   * Only the whole text and the greedy span are ever given to the parser: two
   * parsers that agree on those two strings extract the same result.
   */
  lemma ExtractReadsOnlyCandidates(text: string, p1: string -> Option<Json>, p2: string -> Option<Json>)
    requires p1(text) == p2(text)
    requires Candidate(text).Some? ==> p1(Candidate(text).value) == p2(Candidate(text).value)
    ensures ExtractJsonObject(text, p1) == ExtractJsonObject(text, p2)
  {
  }

  /**
   * The span is greedy, not the first balanced object: in `{} and {}` it is the
   * whole text, so a reply holding two objects yields a span that is neither.
   */
  lemma GreedySpanExample()
    ensures BraceSpan("{} and {}") == Some((0, 9))
  {
    var t := "{} and {}";
    assert t[0] == '{' && t[8] == '}';
    assert RegexMatchAt(t, 0, 9);
  }

  // ---------------------------------------------------------------------------
  // the shape check and the selection
  // ---------------------------------------------------------------------------

  /** An accepted choice: the values under "name" and "arguments". */
  datatype ToolChoice = ToolChoice(name: Json, arguments: Json)

  /** The shape check: an object holding both "name" and "arguments". */
  function CheckChoice(choice: Json): (r: Result<ToolChoice, SelectError>)
    ensures r.Ok? <==> choice.JObject? && "name" in choice.fields && "arguments" in choice.fields
    ensures r.Ok? ==> r.value == ToolChoice(choice.fields["name"], choice.fields["arguments"])
    ensures r.Err? ==> r.error == InvalidChoice(choice)
  {
    match choice
    case JObject(fields) =>
      if "name" in fields && "arguments" in fields then Ok(ToolChoice(fields["name"], fields["arguments"]))
      else Err(InvalidChoice(choice))
    case _ => Err(InvalidChoice(choice))
  }

  /** Extraction followed by the shape check; the tool is called only on `Ok`. */
  function SelectTool(content: string, parse: string -> Option<Json>): Result<ToolChoice, SelectError>
  {
    match ExtractJsonObject(content, parse)
    case Err(e) => Err(e)
    case Ok(choice) => CheckChoice(choice)
  }

  /**
   * A selection succeeds only with a name and arguments taken from an object
   * that the parser returned for the whole reply or for its greedy span.
   */
  lemma SelectToolSpec(content: string, parse: string -> Option<Json>)
    ensures var r := SelectTool(content, parse);
      r.Ok? <==> exists fields ::
        && ExtractJsonObject(content, parse) == Ok(JObject(fields))
        && "name" in fields && "arguments" in fields
    ensures var r := SelectTool(content, parse);
      r.Ok? ==>
        (parse(content).Some? && parse(content).value.JObject?
         && r.value.name == parse(content).value.fields["name"])
        || (parse(content).None? && Candidate(content).Some? && parse(Candidate(content).value).Some?
         && r.value.name == parse(Candidate(content).value).value.fields["name"])
  {
    var r := SelectTool(content, parse);
    if r.Ok? {
      var choice := ExtractJsonObject(content, parse).value;
      assert ExtractJsonObject(content, parse) == Ok(JObject(choice.fields));
    }
  }

  // ---------------------------------------------------------------------------
  // the display of the result
  // ---------------------------------------------------------------------------

  /** What is shown of a tool result. */
  datatype Display =
    | FirstText(text: string)
    | Structured(content: map<string, Json>)
    | Raw

  /**
   * The first text-typed block when there is one; else the structured content
   * when present; else the raw dump.
   */
  function DisplayChoice(result: CallToolResult): (d: Display)
    ensures d.FirstText? <==> exists k :: 0 <= k < |result.content| && IsTextType(result.content[k])
    ensures d.FirstText? ==> exists k :: FirstTextIndex(result.content, k) && d.text == result.content[k].text
    ensures d.Structured? <==>
      (forall k :: 0 <= k < |result.content| ==> !IsTextType(result.content[k])) && result.structuredContent.Some?
    ensures d.Structured? ==> d.content == result.structuredContent.value
    ensures d.Raw? <==>
      (forall k :: 0 <= k < |result.content| ==> !IsTextType(result.content[k])) && result.structuredContent.None?
  {
    var texts := TextsOfType(result.content);
    if texts != [] then
      FirstTextOfType(result.content);
      FirstText(texts[0])
    else if result.structuredContent.Some? then Structured(result.structuredContent.value)
    else Raw
  }

  const InvocationHeading := "[Tool Invocation]"

  /**
   * The printed lines: the same three opening lines in every branch, then the
   * branch's result. `toolName` is the printed name, `structuredDump` and
   * `rawDump` what `json.dumps` prints for the structured content and for the
   * whole result.
   */
  function DisplayLines(expression: string, toolName: string, result: CallToolResult,
                        structuredDump: string, rawDump: string): (lines: seq<string>)
    ensures |lines| >= 4
    ensures lines[..3] == [InvocationHeading, "Input: " + expression, "Tool: " + toolName]
  {
    [InvocationHeading, "Input: " + expression, "Tool: " + toolName] +
    match DisplayChoice(result)
    case FirstText(t) => ["Result: " + t]
    case Structured(_) => ["Result (structured):", structuredDump]
    case Raw => ["Result (raw):", rawDump]
  }

  /** Exactly one result is shown: the first text alone, or a labelled dump. */
  lemma DisplayLinesSpec(expression: string, toolName: string, result: CallToolResult,
                         structuredDump: string, rawDump: string)
    ensures var lines := DisplayLines(expression, toolName, result, structuredDump, rawDump);
      && ((exists k :: 0 <= k < |result.content| && IsTextType(result.content[k])) ==>
            |lines| == 4 && exists k :: FirstTextIndex(result.content, k) && lines[3] == "Result: " + result.content[k].text)
      && ((forall k :: 0 <= k < |result.content| ==> !IsTextType(result.content[k])) ==>
            |lines| == 5 && lines[4] == (if result.structuredContent.Some? then structuredDump else rawDump))
  {
    var d := DisplayChoice(result);
    if d.FirstText? {
      var k :| FirstTextIndex(result.content, k) && d.text == result.content[k].text;
      assert DisplayLines(expression, toolName, result, structuredDump, rawDump)[3] == "Result: " + result.content[k].text;
    }
  }

  // ---------------------------------------------------------------------------
  // greet_with_prompt_ollama: gathering the prompt text
  // ---------------------------------------------------------------------------

  /** `msg.content or []` */
  function BlocksOf(message: PromptMessage): seq<ContentBlock>
  {
    if message.content.Some? then message.content.value else []
  }

  /** The texts of the text-typed blocks of all messages, message by message, in order. */
  function PromptParts(messages: seq<PromptMessage>): seq<string>
  {
    if messages == [] then []
    else PromptParts(messages[..|messages| - 1]) + TextsOfType(BlocksOf(messages[|messages| - 1]))
  }

  /** The prompt handed to the model: the parts joined by newlines, then stripped. */
  function BasePrompt(messages: seq<PromptMessage>): string
  {
    Strip(Join("\n", PromptParts(messages)))
  }

  /** The nested loops of `greet_with_prompt_ollama` that gather the parts, then the join and strip. */
  method GatherPromptText(messages: seq<PromptMessage>) returns (parts: seq<string>, basePrompt: string)
    ensures parts == PromptParts(messages)
    ensures basePrompt == BasePrompt(messages)
  {
    parts := [];
    var i := 0;
    assert messages[..0] == [];
    while i < |messages|
      invariant 0 <= i <= |messages|
      invariant parts == PromptParts(messages[..i])
    {
      assert messages[..i + 1][..i] == messages[..i];
      parts := AppendTextParts(parts, BlocksOf(messages[i]));
      i := i + 1;
    }
    assert messages[..i] == messages;
    basePrompt := Strip(Join("\n", parts));
  }

  /** The inner loop: appends the text of each text-typed block, in order. */
  method AppendTextParts(parts0: seq<string>, blocks: seq<ContentBlock>) returns (parts: seq<string>)
    ensures parts == parts0 + TextsOfType(blocks)
  {
    parts := parts0;
    var j := 0;
    assert blocks[..0] == [];
    while j < |blocks|
      invariant 0 <= j <= |blocks|
      invariant parts == parts0 + TextsOfType(blocks[..j])
    {
      var block := blocks[j];
      TextsOfTypeStep(blocks, j);
      if IsTextType(block) {
        Assoc(parts0, TextsOfType(blocks[..j]), [block.text]);
        parts := parts + [block.text];
      }
      j := j + 1;
    }
    assert blocks[..j] == blocks;
  }

  /** One more block adds its text at the end exactly when it is text-typed. */
  lemma TextsOfTypeStep(blocks: seq<ContentBlock>, j: nat)
    requires j < |blocks|
    ensures TextsOfType(blocks[..j + 1])
      == TextsOfType(blocks[..j]) + (if IsTextType(blocks[j]) then [blocks[j].text] else [])
  {
    assert blocks[..j + 1] == blocks[..j] + [blocks[j]];
    TextsOfTypeConcat(blocks[..j], [blocks[j]]);
    assert [blocks[j]][1..] == [];
  }

  /** The parts of a concatenation of message lists are the parts of each, in order. */
  lemma {:induction false} PromptPartsConcat(a: seq<PromptMessage>, b: seq<PromptMessage>)
    ensures PromptParts(a + b) == PromptParts(a) + PromptParts(b)
  {
    if b == [] {
      assert a + b == a;
    } else {
      var init := b[..|b| - 1];
      assert (a + b)[..|a + b| - 1] == a + init;
      PromptPartsConcat(a, init);
      Assoc(PromptParts(a), PromptParts(init), TextsOfType(BlocksOf(b[|b| - 1])));
    }
  }

  /**
   * A single message contributes the texts of its text-typed blocks, and a
   * message without content contributes nothing.
   */
  lemma PromptPartsSingle(message: PromptMessage)
    ensures PromptParts([message]) == TextsOfType(BlocksOf(message))
    ensures message.content.None? ==> PromptParts([message]) == []
  {
    assert [message][..0] == [];
  }

  /** When no message holds a text-typed block, the gathered prompt is empty. */
  lemma {:induction false} NoTextNoPrompt(messages: seq<PromptMessage>)
    requires forall m :: 0 <= m < |messages| ==> TextsOfType(BlocksOf(messages[m])) == []
    ensures PromptParts(messages) == [] && BasePrompt(messages) == ""
  {
    if messages != [] {
      NoTextNoPrompt(messages[..|messages| - 1]);
    }
  }
}
