/**
 * The protocol values the client scripts read: tool descriptors as listed by a
 * server, the content blocks of a tool result, prompt messages, and the JSON
 * values `json.loads` produces. Only the fields the scripts touch are kept.
 */
module McpTypes {
  import opened Wrappers

  /** A JSON value as `json.loads` returns it; numbers are restricted to integers. */
  datatype Json =
    | JNull
    | JBool(b: bool)
    | JNum(n: int)
    | JStr(s: string)
    | JArray(items: seq<Json>)
    | JObject(fields: map<string, Json>)

  /**
   * One entry of a tool's `properties`: its `type` (None when the key is absent),
   * its `anyOf` list reduced to the `type` of each alternative (None when the
   * key is absent), and its description.
   */
  datatype ParamSchema = ParamSchema(
    declaredType: Option<string>,
    anyOf: Option<seq<Option<string>>>,
    description: Option<string>)

  /**
   * The parts of a tool's `inputSchema` the prompt reads: `properties` in
   * insertion order and the `required` list. An absent key reads as empty, as
   * `inputSchema.get("properties", {})` and `inputSchema.get("required", [])` do.
   */
  datatype InputSchema = InputSchema(properties: seq<(string, ParamSchema)>, required: seq<string>)

  /** A tool descriptor as a server lists it. */
  datatype Tool = Tool(name: string, description: Option<string>, inputSchema: InputSchema)

  /** The content kinds besides text; none of them has a `text` attribute. */
  datatype OtherKind = Image | Audio | ResourceLink | EmbeddedResource

  /** One content block of a tool result or a prompt message. */
  datatype ContentBlock = TextContent(text: string) | OtherContent(kind: OtherKind)

  /** A tool result: its content blocks and its optional structured content. */
  datatype CallToolResult = CallToolResult(content: seq<ContentBlock>, structuredContent: Option<map<string, Json>>)

  /** A prompt message; `content` is None when the message carries no blocks. */
  datatype PromptMessage = PromptMessage(role: string, content: Option<seq<ContentBlock>>)

  /** The block's `type` attribute. */
  function BlockType(b: ContentBlock): string
  {
    match b
    case TextContent(_) => "text"
    case OtherContent(Image) => "image"
    case OtherContent(Audio) => "audio"
    case OtherContent(ResourceLink) => "resource_link"
    case OtherContent(EmbeddedResource) => "resource"
  }

  /** `getattr(b, "type", None) == "text"` */
  predicate IsTextType(b: ContentBlock)
  {
    BlockType(b) == "text"
  }

  /** `hasattr(b, "text")` */
  predicate HasTextAttribute(b: ContentBlock)
  {
    b.TextContent?
  }

  /** `[b.text for b in blocks if getattr(b, "type", None) == "text"]` */
  function TextsOfType(blocks: seq<ContentBlock>): (r: seq<string>)
    ensures |r| <= |blocks|
    ensures r == [] <==> forall k :: 0 <= k < |blocks| ==> !IsTextType(blocks[k])
  {
    if blocks == [] then []
    else if IsTextType(blocks[0]) then [blocks[0].text] + TextsOfType(blocks[1..])
    else TextsOfType(blocks[1..])
  }

  /** `[b.text for b in blocks if hasattr(b, "text")]` */
  function TextsWithAttribute(blocks: seq<ContentBlock>): seq<string>
  {
    if blocks == [] then []
    else if HasTextAttribute(blocks[0]) then [blocks[0].text] + TextsWithAttribute(blocks[1..])
    else TextsWithAttribute(blocks[1..])
  }

  /** Filtering by `type == "text"` and by having a `text` attribute select the same blocks. */
  lemma {:induction false} TextFiltersAgree(blocks: seq<ContentBlock>)
    ensures TextsOfType(blocks) == TextsWithAttribute(blocks)
  {
    if blocks != [] {
      TextFiltersAgree(blocks[1..]);
    }
  }

  /**
   * The filter is order-preserving and distributes over concatenation; with the
   * two one-block cases this pins it down as "the texts of the text blocks, in
   * payload order".
   */
  lemma {:induction false} TextsOfTypeConcat(a: seq<ContentBlock>, b: seq<ContentBlock>)
    ensures TextsOfType(a + b) == TextsOfType(a) + TextsOfType(b)
  {
    if a == [] {
      assert a + b == b;
    } else {
      assert (a + b)[1..] == a[1..] + b;
      TextsOfTypeConcat(a[1..], b);
    }
  }

  lemma TextsOfTypeSingle(b: ContentBlock)
    ensures TextsOfType([b]) == (if IsTextType(b) then [b.text] else [])
  {
  }

  /** `k` is the index of the first text-typed block. */
  predicate FirstTextIndex(blocks: seq<ContentBlock>, k: int)
  {
    0 <= k < |blocks| && IsTextType(blocks[k]) && forall m :: 0 <= m < k ==> !IsTextType(blocks[m])
  }

  /** The first text of the filter is the text of the first text-typed block. */
  lemma {:induction false} FirstTextOfType(blocks: seq<ContentBlock>)
    requires TextsOfType(blocks) != []
    ensures exists k :: FirstTextIndex(blocks, k) && TextsOfType(blocks)[0] == blocks[k].text
  {
    if !IsTextType(blocks[0]) {
      FirstTextOfType(blocks[1..]);
      var k :| FirstTextIndex(blocks[1..], k) && TextsOfType(blocks[1..])[0] == blocks[1..][k].text;
      assert forall m :: 0 <= m < k + 1 ==> !IsTextType(blocks[m]) by {
        forall m | 0 <= m < k + 1
          ensures !IsTextType(blocks[m])
        {
          if m > 0 {
            assert blocks[m] == blocks[1..][m - 1];
          }
        }
      }
      assert FirstTextIndex(blocks, k + 1);
    } else {
      assert FirstTextIndex(blocks, 0);
    }
  }
}
