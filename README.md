# MCP snippets: the deterministic core, in Dafny

This project models the deterministic logic inside the MCP demo scripts. It
covers four groups:

- **Tool-catalog prompts.** The client's `create_tool_prompt` turns the tool
  descriptors listed by a server into prompt text. The rich version is in
  `test2/mcp_ollama_client.py` (module `ToolPrompt`) and the naive version in
  `test-mcp/mcp_ollama_client.py` (module `NaivePrompt`). The model also covers
  the request prompt that appends the user's input, and the display of the
  text blocks of a tool result.
- **Recovering a tool selection from model output.** These are
  `_extract_json_object`, the `name`/`arguments` shape check, the three-way
  result display and the gathering of prompt text, all in
  `test3/mcp_ollama_client.py` (module `Selection`).
- **Blog-post SQL builders and row formatters.** The `list_posts`/`filter_posts`
  builders with their `where`/`params` lists are in `test1/mcp-server-blogs.py`
  and `test5/index.py` (module `BlogQueries`). The three-column
  `get_blog_posts` is in `test-mcp/mcp_server.py` and `test5/mcp_tools.py`
  (module `SimplePosts`). Placeholder counting is in module `Sql`.
- **The toy tool server.** `server.py` holds the fixed three-tool catalog and
  the `handle_call_tool` router (module `ToyServer`).

Shared vocabulary:

- `Wrappers` defines `Option` and `Result`.
- `Text` models the Python string operations the scripts use: `str.isspace`,
  `strip`, `split()`, `sep.join`, ASCII `lower`/`upper` and `str(int)`. It also
  defines `Count`, the number of occurrences of a character, which the model
  uses to count placeholders and separators.
- `McpTypes` models the protocol values: tool descriptors, content blocks,
  call results, prompt messages and JSON values.

Code that appends to a list or a string step by step is modelled as a `method`:
a `while` loop where the source loops, and a sequence of appends where the
source has a run of `if` blocks. Each such method is proved equal to a
specification function, and the properties are proved about that function:

- `ToolPrompt.CreateToolPrompt`, the body of its loop `ToolPrompt.AppendToolLines`, and its inner loop
  over arguments `ToolPrompt.AppendParamLines`;
- `NaivePrompt.CreateNaivePrompt`;
- `Selection.GatherPromptText` and its inner loop `Selection.AppendTextParts`;
- `BlogQueries.CollectConditions` (a straight run of `if` blocks, one
  `BlogQueries.AppendConditionIf` step per filter, no loop), `BlogQueries.BuildListQuery`
  and `BlogQueries.BuildFilterQuery`;
- `SimplePosts.BuildPostsQuery`.

Pure code (f-strings, comprehensions, if/elif chains) is modelled as functions.

Parameters stand in for calls the model cannot see:

- `json.loads` is `parse: string -> Option<Json>`, where `None` means the call raised.
- The output of `json.dumps` and `model_dump_json` is a string argument.
- The database is `db: Query -> seq<Row>`.
- The current time is the formatted string `now`.
- Python's `str()` of a list or dict is `containerStr`.

The docstring of `_extract_json_object` (test3/mcp_ollama_client.py:18-21)
speaks of the first `{...}` object. The code instead runs the greedy regular
expression `\{[\s\S]*\}`, which spans from the first `{` to the last `}` of the
text. The model follows the code: `Selection.BraceSpan` models that greedy span,
and `Selection.GreedySpanExample` shows a text where the two readings differ.

## Model

| member | source | states |
|---|---|---|
| `ToolPrompt.CreateToolPrompt` | test2/mcp_ollama_client.py:42-84 | The nested loops produce exactly `ToolPromptText(tools)`: the two header lines, then each tool's lines in catalog order, all joined by "\n". |
| `ToolPrompt.AppendToolLines` | test2/mcp_ollama_client.py:52-82 | One pass of the outer loop, including its early `continue`, appends exactly that tool's lines. These are its heading, then its description line when there is one, then its argument section. |
| `ToolPrompt.AppendParamLines` | test2/mcp_ollama_client.py:66-81 | The loop over a tool's arguments appends one line per property, in the properties' order. Each line gives the argument's resolved type and whether it is required. |
| `ToolPrompt.NonNullTypes` | test2/mcp_ollama_client.py:71-75 | The filtered `anyOf` types are no more than the alternatives, and none of them is "null". |
| `ToolPrompt.NonNullTypesFirst` | test2/mcp_ollama_client.py:71-77 | The filtered list is empty iff every alternative is "null". Otherwise its head is the type of the first alternative that is not "null". |
| `ToolPrompt.ResolveType` | test2/mcp_ollama_client.py:69-77 | The definition of an argument's shown type: the declared `type` or "any", overridden by the first non-"null" `anyOf` alternative. Its properties are stated by `ToolPrompt.NonNullTypesFirst` and `ToolPrompt.ResolveTypeSpec`. |
| `ToolPrompt.ResolveTypeSpec` | test2/mcp_ollama_client.py:69-77 | An argument's type is its declared `type`, or "any" when it has none. When `anyOf` has an alternative that is not "null", the first such alternative's type overrides it. An alternative without a `type` renders as "None". |
| `ToolPrompt.ParamLinesSpec` | test2/mcp_ollama_client.py:67-82 | The k-th argument line is built from the k-th property: its name, its resolved type, and "required" or "optional". |
| `ToolPrompt.ArgumentLinesSpec` | test2/mcp_ollama_client.py:59-82 | With no properties, the section is exactly "  Arguments: None". Otherwise it is "  Arguments:" and then exactly one line per property, in `properties` order, labelled "required" iff the name is in `required`. Names in `required` that are not properties produce no line. |
| `ToolPrompt.DescriptionLineSpec` | test2/mcp_ollama_client.py:54-57 | A description line appears iff the description is non-empty. Its text after "  Description: " has the same words as the stripped description, separated by single spaces. |
| `ToolPrompt.PromptHeader` | test2/mcp_ollama_client.py:47-50 | The prompt lines start with the two fixed header lines, and the text starts with them joined by "\n". |
| `ToolPrompt.ToolHeadings` | test2/mcp_ollama_client.py:52-82 | Among one tool's lines, only its "- Tool Name" heading starts with a newline. |
| `ToolPrompt.AllToolHeadings` | test2/mcp_ollama_client.py:52-53 | The section headings of all the tools' lines are the tools' heading lines, in catalog order. |
| `ToolPrompt.PromptHeadings` | test2/mcp_ollama_client.py:47-84 | Every tool appears exactly once, in catalog order, as a "- Tool Name: `name`" heading. No other prompt line opens a section. |
| `ToolPrompt.HeadingAfterEmptyLine` | test2/mcp_ollama_client.py:53-84 | Tool k's own heading, together with the newline that joins it to the previous line, sits exactly after the joined header lines and the lines of the tools before it. So "\n\n" precedes every tool's section, leaving an empty line before it. |
| `ToolPrompt.AllToolLinesConcat` | test2/mcp_ollama_client.py:52-82 | The lines of a concatenated catalog are the lines of each part, in order. |
| `ToolPrompt.WithUserInputRoundTrip` | test2/mcp_ollama_client.py:98 | The full prompt starts with the catalog prompt unchanged. The user's input can be read back from it exactly. |
| `ToolPrompt.SelectionPromptInjective` | test2/mcp_ollama_client.py:98 | Two different user inputs never give the same full prompt. |
| `ToolPrompt.Bullets` | test2/mcp_ollama_client.py:132-133 | One "- " line per text, in order. |
| `ToolPrompt.ShowResult` | test2/mcp_ollama_client.py:128-136 | The display loop prints exactly `ResultLines`: the heading, then a bullet per text-typed block, or else the dump. |
| `ToolPrompt.ResultLinesSpec` | test2/mcp_ollama_client.py:128-136 | If some block is text-typed, all text-typed blocks' texts are shown in payload order and the dump is not. Otherwise only the dump is shown. |
| `McpTypes.TextsOfType` | test2/mcp_ollama_client.py:128 | The filtered texts are no more than the blocks, and they are empty iff no block has type "text". |
| `McpTypes.TextsOfTypeConcat` | test2/mcp_ollama_client.py:128 | The type filter distributes over concatenation, so it keeps payload order. |
| `McpTypes.TextsOfTypeSingle` | test2/mcp_ollama_client.py:128 | On one block, the type filter keeps its text iff the block is text-typed. |
| `McpTypes.TextFiltersAgree` | test-mcp/mcp_ollama_client.py:76 | Filtering on `hasattr(b, "text")` keeps the same texts, in the same order, as filtering on `type == "text"`. |
| `McpTypes.FirstTextOfType` | test3/mcp_ollama_client.py:89-96 | The first filtered text is the text of the first text-typed block. |
| `NaivePrompt.NaivePromptText` | test-mcp/mcp_ollama_client.py:41-52 | The definition of the test-mcp catalog prompt: the fixed header followed by one "- name: description\n" entry per tool. `NaivePrompt.CreateNaivePrompt` is proved equal to it, and `NaivePrompt.EntryAt`, `NaivePrompt.NaivePromptHeader`, `NaivePrompt.NaivePromptFirstEntry` and `NaivePrompt.NaivePromptEndsWithNewline` state its properties. |
| `NaivePrompt.CreateNaivePrompt` | test-mcp/mcp_ollama_client.py:41-52 | The loop produces exactly the header followed by each tool's "- name: description\n" entry, in list order. A missing description prints as "None". |
| `NaivePrompt.EntriesTextConcat` | test-mcp/mcp_ollama_client.py:49-50 | The entries of a concatenated list are the entries of each part, in order. |
| `NaivePrompt.EntryAt` | test-mcp/mcp_ollama_client.py:49-50 | Tool k's entry occurs right after the header and the entries of the tools before it. |
| `NaivePrompt.NaivePromptHeader` | test-mcp/mcp_ollama_client.py:43-52 | The prompt starts with the fixed header, which ends in "Here are the available tools:". With no tools, the prompt is exactly the header. |
| `NaivePrompt.NaivePromptFirstEntry` | test-mcp/mcp_ollama_client.py:47-50 | The first entry "- name: " follows the header directly, with no separator. |
| `NaivePrompt.NaivePromptEndsWithNewline` | test-mcp/mcp_ollama_client.py:50 | With at least one tool, the prompt ends in "\n". |
| `NaivePrompt.RequestPromptInput` | test-mcp/mcp_ollama_client.py:67 | The request prompt starts with the catalog prompt. The user's input can be read back from it after the marker "\n\n---\nUser Input: \"". |
| `NaivePrompt.ResponseLines` | test-mcp/mcp_ollama_client.py:76-79 | The definition of the printed server response: the heading, then one bullet per block carrying text. Its properties are stated by `NaivePrompt.ResponseLinesSpec`. |
| `NaivePrompt.ResponseLinesSpec` | test-mcp/mcp_ollama_client.py:76-79 | The response shows exactly the texts of the text blocks, in order. It shows nothing after the heading iff no block carries text. |
| `Selection.FindFirst` | test3/mcp_ollama_client.py:30 | Returns the first index holding the character, or None iff the character does not occur. |
| `Selection.FindLast` | test3/mcp_ollama_client.py:30 | Returns the last index holding the character, or None iff the character does not occur. |
| `Selection.BraceSpan` | test3/mcp_ollama_client.py:30 | `re.search(r"\{[\s\S]*\}")` has no match iff no '{' is followed by a '}'. When it matches, the span is a match and is leftmost-longest: no match starts earlier, and none starting at the same place ends later. |
| `Selection.ExtractJsonObject` | test3/mcp_ollama_client.py:17-34 | The definition of `_extract_json_object`: the whole reply's parse, else the parse of the greedy span, else "No JSON object found". Its properties are stated by `Selection.ExtractFastPath`, `Selection.ExtractSlowPath`, `Selection.ExtractReadsOnlyCandidates` and `Selection.GreedySpanExample`. |
| `Selection.ExtractFastPath` | test3/mcp_ollama_client.py:23-25 | When the whole text parses, its value is returned unchanged and no substring search happens. |
| `Selection.ExtractSlowPath` | test3/mcp_ollama_client.py:29-34 | Otherwise, with no '{' followed by a '}', extraction fails with "No JSON object found". When there is such a pair, the result is the parse of the span from the first '{' through the last '}'. A parse failure on that span propagates. The no-match failure raises "No JSON object found in model output". |
| `Selection.ExtractReadsOnlyCandidates` | test3/mcp_ollama_client.py:24-34 | Only the whole text and the greedy span are given to the parser, and no other substring is tried. |
| `Selection.GreedySpanExample` | test3/mcp_ollama_client.py:30 | In "{} and {}", the span is the whole text, not the first balanced object. |
| `Selection.CheckChoice` | test3/mcp_ollama_client.py:78-83 | A choice is accepted iff it is an object holding both "name" and "arguments", and then those two values are taken. Anything else fails as an invalid choice. |
| `Selection.SelectTool` | test3/mcp_ollama_client.py:74-83 | The definition of one selection: extract the JSON object from the reply, then check it with `Selection.CheckChoice`. Its properties are stated by `Selection.SelectToolSpec`. |
| `Selection.SelectToolSpec` | test3/mcp_ollama_client.py:76-83 | A selection succeeds iff extraction yields an object with both keys. The name then comes from the parse of the whole reply or of its greedy span. |
| `Selection.DisplayChoice` | test3/mcp_ollama_client.py:89-108 | The branches are exclusive and ordered. If some block is text-typed, only the first such block's text is shown. Otherwise the structured content is shown if present. Otherwise the raw dump is shown. |
| `Selection.DisplayLines` | test3/mcp_ollama_client.py:92-108 | Every branch prints the same three opening lines: the invocation heading, the input and the tool. |
| `Selection.DisplayLinesSpec` | test3/mcp_ollama_client.py:89-108 | With a text block, one result line "Result: " plus the first text. Without one, a label and then the structured dump if there is structured content, else the raw dump. |
| `Selection.GatherPromptText` | test3/mcp_ollama_client.py:124-129 | The nested loops gather exactly `PromptParts(messages)`. The base prompt is those parts joined by "\n" and stripped. |
| `Selection.AppendTextParts` | test3/mcp_ollama_client.py:126-128 | The inner loop appends the texts of the text-typed blocks of one message, in order. |
| `Selection.PromptPartsConcat` | test3/mcp_ollama_client.py:125-128 | The parts of a concatenation of message lists are the parts of each, in message order. |
| `Selection.PromptPartsSingle` | test3/mcp_ollama_client.py:126-128 | A message contributes the texts of its text-typed blocks. A message whose content is None contributes nothing. |
| `Selection.NoTextNoPrompt` | test3/mcp_ollama_client.py:124-129 | When no message holds a text-typed block, the gathered prompt is empty. |
| `Sql.LimitWellBound` | test1/mcp-server-blogs.py:65-67 | The " LIMIT ?" suffix holds one placeholder iff the limit is positive, and then binds exactly that limit. |
| `BlogQueries.NormalizeOrder` | test1/mcp-server-blogs.py:56-58 | The order is "asc" or "desc". It is "asc" iff the lowercased input is "asc", so any other value becomes "desc". |
| `BlogQueries.OrderClause` | test1/mcp-server-blogs.py:60-63 | The ORDER BY clause is " ORDER BY pub_date ASC" or " ... DESC", upper-cased, with ASC iff the lowercased order is "asc". |
| `BlogQueries.ListQueryWellBound` | test1/mcp-server-blogs.py:60-67 | `list_posts` has one parameter per placeholder. Its params are `[limit]` iff the limit is positive, and empty otherwise. |
| `BlogQueries.AppendOrderAndLimit` | test1/mcp-server-blogs.py:131-135 | Appends the ORDER BY clause and then, for a positive limit, " LIMIT ?" and the limit as the last parameter. |
| `BlogQueries.BuildListQuery` | test1/mcp-server-blogs.py:56-67 | The step-by-step query equals `ListQuery` and is well bound. |
| `BlogQueries.AuthorPlaceholder` | test1/mcp-server-blogs.py:104-106 | The author clause has one placeholder. |
| `BlogQueries.TagPlaceholder` | test1/mcp-server-blogs.py:108-111 | The tag clause has one placeholder. |
| `BlogQueries.SincePlaceholder` | test1/mcp-server-blogs.py:113-115 | The since clause has one placeholder. |
| `BlogQueries.UntilPlaceholder` | test1/mcp-server-blogs.py:117-119 | The until clause has one placeholder. |
| `BlogQueries.SearchPlaceholders` | test1/mcp-server-blogs.py:121-126 | The search clause has three placeholders. |
| `BlogQueries.ConditionsMatched` | test1/mcp-server-blogs.py:104-126 | Every clause added for a truthy filter binds as many values as it has placeholders. |
| `BlogQueries.MatchedPlaceholders` | test1/mcp-server-blogs.py:100-126 | Over the collected clauses, the placeholders add up to the number of collected params. |
| `BlogQueries.CollectConditions` | test1/mcp-server-blogs.py:101-126 | The append steps produce exactly the clause texts and the params of `Conditions(f)`. There is one condition per truthy filter, in the order author, tag, since, until, search. |
| `BlogQueries.AppendConditionIf` | test1/mcp-server-blogs.py:104-106 | One `if value:` block appends the clause and its values exactly when the filter is truthy, and appends nothing otherwise. |
| `BlogQueries.SearchBindsThreePatterns` | test1/mcp-server-blogs.py:121-126 | A truthy search contributes its last three params, each equal to "%" + search + "%". |
| `BlogQueries.FilterQueryShape` | test1/mcp-server-blogs.py:104-135 | There is one clause per truthy filter. The WHERE part is present iff some filter is truthy. A positive limit is the last param. |
| `BlogQueries.FilterQueryWellBound` | test1/mcp-server-blogs.py:100-135 | The number of `?` in the filter query equals the number of params. |
| `BlogQueries.FilterWithoutFiltersIsList` | test1/mcp-server-blogs.py:96-135 | With no truthy filter, `filter_posts` sends the very query `list_posts` sends. |
| `BlogQueries.BuildFilterQuery` | test1/mcp-server-blogs.py:96-135 | The step-by-step query equals `FilterQuery` and is well bound. |
| `BlogQueries.FormatPostRow` | test1/mcp-server-blogs.py:42-45 | The definition of `_format_post_row`: id, date, "title by author", slug and tags, separated by a space, a bar and a space, with NULL tags shown as "". Its properties are stated by `BlogQueries.FormatPostRowPrefix`, `BlogQueries.FormatPostRowColumns`, `BlogQueries.FormatPostRowNoTags` and `BlogQueries.NoNewlineInRow`. |
| `BlogQueries.FormatPostRowPrefix` | test1/mcp-server-blogs.py:42-45 | A formatted row starts with the id and the first column separator (space, bar, space). |
| `BlogQueries.FormatPostRowColumns` | test1/mcp-server-blogs.py:42-45 | When no field holds a bar character, a formatted row has exactly four bars, so it has five columns. |
| `BlogQueries.FormatPostRowNoTags` | test1/mcp-server-blogs.py:42-45 | A row with NULL tags is formatted exactly as one with empty tags, so its line ends in the tags label with nothing after it. |
| `BlogQueries.NoNewlineInRow` | test1/mcp-server-blogs.py:42-45 | A row whose fields hold no newline formats to a single line. |
| `BlogQueries.FormatRows` | test1/mcp-server-blogs.py:72 | One formatted string per row, in row order. |
| `BlogQueries.ListPosts` | test1/mcp-server-blogs.py:69-72 | Returns the formatted rows of the `list_posts` query's result. |
| `BlogQueries.FilterPosts` | test1/mcp-server-blogs.py:137-141 | Returns the formatted rows of the filter query's result. |
| `BlogQueries.RowsTextEmpty` | test5/index.py:46-47 | The newline-joined rows are empty iff there are no rows. |
| `BlogQueries.RowsTextLines` | test5/index.py:114-115 | When no field holds a newline, n rows join into text with n - 1 newlines. |
| `BlogQueries.GetBlogPosts` | test5/index.py:21-47 | Returns the newline-joined formatted rows of the list query, which are empty iff there are no rows. |
| `BlogQueries.FilterPostsText` | test5/index.py:51-115 | Returns the newline-joined formatted rows of the filter query, which are empty iff there are no rows. |
| `SimplePosts.PostsQueryShape` | test-mcp/mcp_server.py:41-45 | The query starts with "SELECT id, title, content FROM posts " and has no WHERE or ORDER BY. It adds " LIMIT ?" and `[limit]` iff the limit is positive, and has no params otherwise. |
| `SimplePosts.PostsQueryWellBound` | test-mcp/mcp_server.py:41-45 | The count of `?` equals the number of params. |
| `SimplePosts.BuildPostsQuery` | test5/mcp_tools.py:38-42 | The step-by-step query equals `PostsQuery` and is well bound. |
| `SimplePosts.FormatSimpleRow` | test5/mcp_tools.py:83-85 | The definition of `_format_post_row` for (id, title, content) rows: "id: " and the id, then the title and the content, each after a bar and its label. Its properties are stated by `SimplePosts.FormatSimpleRowPrefix`, `SimplePosts.FormatSimpleRowColumns` and `SimplePosts.SimpleRowsTextSpec`. |
| `SimplePosts.FormatSimpleRowPrefix` | test-mcp/mcp_server.py:88-90 | A formatted row starts with "id: " and the id. |
| `SimplePosts.FormatSimpleRowColumns` | test5/mcp_tools.py:83-85 | When neither title nor content holds a bar character, a row has exactly two bars. |
| `SimplePosts.FormatSimpleRows` | test-mcp/mcp_server.py:51 | One formatted string per row, in row order. |
| `SimplePosts.SimpleRowsTextSpec` | test-mcp/mcp_server.py:51-52 | The output is empty iff there are no rows. Without newlines in the fields, n rows give n - 1 newlines. |
| `SimplePosts.GetBlogPosts` | test5/mcp_tools.py:38-50 | Returns the newline-joined formatted rows of the query's result, which are empty iff there are none. |
| `ToyServer.CatalogSpec` | server.py:20-61 | The catalog is exactly echo, current_time and add_numbers, with distinct names. Every required name is a property of its tool, and current_time has no properties. |
| `ToyServer.CallTool` | server.py:64-93 | The definition of `handle_call_tool`: echo, current_time and add_numbers by name, each returning one text item, or the error it raises. Its properties are stated by `ToyServer.CallToolSingleText`, `ToyServer.CallToolDispatch`, `ToyServer.EchoSpec` and `ToyServer.AddNumbersSpec`. |
| `ToyServer.PyAdd` | server.py:89 | Python `+` on argument values: two integers add. It is a TypeError iff the operands are not both numeric, both strings, or both lists. |
| `ToyServer.CallToolDispatch` | server.py:71-93 | A call fails with "Unknown tool" iff its name is not in the catalog, and then the raised message is "Unknown tool: " followed by the name. |
| `ToyServer.CallToolSingleText` | server.py:73-90 | Every successful call returns exactly one text item. |
| `ToyServer.EchoSpec` | server.py:71-73 | echo returns "Echo: " + text. It returns "Echo: " alone when the arguments are None or empty, or lack "text". |
| `ToyServer.AddNumbersSpec` | server.py:79-90 | With None or empty arguments, the call fails with "Arguments required" and with nothing else. Otherwise a missing or null `a` or `b` fails with "Both 'a' and 'b' ...". Two integers give "Result: a + b = sum". The two missing-argument failures raise "Arguments required for add_numbers" and "Both 'a' and 'b' parameters are required". |
| `Text.CollapseSpec` | test2/mcp_ollama_client.py:56 | `" ".join(s.strip().split())` has the words of the stripped text and is single-spaced. It is empty iff there are no words, and collapsing it again changes nothing. |
| `Text.Strip` | test2/mcp_ollama_client.py:56 | `strip()` returns a substring of the input that neither starts nor ends with whitespace, with only whitespace around it. |
| `Text.JoinConcat` | test2/mcp_ollama_client.py:84 | Joining two non-empty line lists is joining each and putting the separator between them. |
| `Text.IntToStringValue` | test1/mcp-server-blogs.py:45 | `str(id)` reads back as the same integer. |

## Left out

- MCP transport and sessions are not modelled: `streamablehttp_client`, `ClientSession`, `list_tools`, `call_tool`, `get_prompt`, the stdio server and the HTTP servers. Tool lists, call results and prompt messages arrive as values.
- LLM calls (`ChatOllama`, `ollama.chat`, structured output, Pydantic models) are left out. The model's reply is an arbitrary string.
- `json.loads` is a parameter, not a JSON grammar. `json.dumps`, `model_dump` and `model_dump_json` appear only as the strings they produce.
- SQL execution and its semantics (LIKE, ORDER BY, LIMIT) are not modelled. Only the query text and params that are built, and the formatting of given rows, are covered.
- `print` is modelled as the sequence of printed lines where the printed lines are the tool's output (the test2, test3 and test-mcp clients). The debugging `print("rows", rows)` in test5/index.py:45 and test5/mcp_tools.py:48 is left out: `BlogQueries.GetBlogPosts` and `SimplePosts.GetBlogPosts` return only the text.
- JSON-Schema `type` values are modelled as strings only: `ParamSchema.declaredType` and each `anyOf` alternative's type are `Option<string>`, with `None` meaning the key is absent. An array-valued `type` such as `["string", "null"]`, which the test2 client prints as its Python repr, and an explicit `"type": null`, which it prints as "None" where the model shows "any", cannot be expressed.
- Floating-point numbers are left out: JSON numbers and `add_numbers` operands are integers.
- `datetime.now().strftime(...)` is left out. The formatted time is the parameter `now`.
- `isinstance(True, int)` is not modelled: a limit is an `Option<int>`, so a boolean limit cannot be expressed.
- `str.lower`/`str.upper` are ASCII only. No non-ASCII character lowercases to a letter of "asc" or "desc", so the ORDER BY choice is unaffected.
- Python's `str()` of a list or dict, which shows in echo and add_numbers output, is the parameter `containerStr`. The message of the TypeError raised by `+` on mismatched operands is Python's own and is not modelled.
- The message "Invalid tool choice JSON: {choice}" embeds Python's repr of the choice. The model keeps the choice itself in the error (`InvalidChoice(choice)`), not the text.
- Dictionary key order: tool `properties` are a sequence, so a descriptor with a repeated property name can be expressed, which a dict cannot hold.
- The prompt-gathering loop iterates `msg.content` as a list of blocks, as the code is written.
- Nothing validates the arguments against the catalog, coerces types or scans for balanced braces, because the code does none of this.
- `ToyServer.AddNumbersSpec`: the exact result text is stated only for two integer operands. Bool, string and list operands are covered by `ToyServer.PyAdd` and `CallTool` but not restated in the lemma.
