/**
 * The toy tool server of server.py: `handle_list_tools` publishes a fixed
 * catalog of three tools and `handle_call_tool` routes a call by name, either
 * returning one text item or raising one of a few errors.
 *
 * The clock is a parameter (`now`, the already formatted time). Argument
 * values are JSON values with integer numbers; Python's `str()` of a list or
 * dict is a parameter (`containerStr`).
 */
module ToyServer {
  import opened Wrappers
  import opened Text
  import opened McpTypes

  // ---------------------------------------------------------------------------
  // handle_list_tools
  // ---------------------------------------------------------------------------

  function Param(declaredType: string, description: string): ParamSchema
  {
    ParamSchema(Some(declaredType), None, Some(description))
  }

  const EchoTool := Tool("echo", Some("Echo back the input text"),
    InputSchema([("text", Param("string", "Text to echo back"))], ["text"]))

  const TimeTool := Tool("current_time", Some("Get the current date and time"), InputSchema([], []))

  const AddTool := Tool("add_numbers", Some("Add two numbers together"),
    InputSchema([("a", Param("number", "First number")), ("b", Param("number", "Second number"))], ["a", "b"]))

  /** The tools `handle_list_tools` returns, in order. */
  function Catalog(): (tools: seq<Tool>)
    ensures |tools| == 3
  {
    [EchoTool, TimeTool, AddTool]
  }

  /** The names of a list of tools, in order. */
  function Names(tools: seq<Tool>): (names: seq<string>)
    ensures |names| == |tools|
    ensures forall k :: 0 <= k < |tools| ==> names[k] == tools[k].name
  {
    if tools == [] then [] else [tools[0].name] + Names(tools[1..])
  }

  /** The names of a schema's properties, in order. */
  function PropertyNames(schema: InputSchema): (names: seq<string>)
    ensures |names| == |schema.properties|
    ensures forall k :: 0 <= k < |names| ==> names[k] == schema.properties[k].0
  {
    seq(|schema.properties|, k requires 0 <= k < |schema.properties| => schema.properties[k].0)
  }

  /**
   * The catalog lists echo, current_time and add_numbers, under distinct names;
   * every required argument of every tool is one of its properties, and
   * current_time has none.
   */
  lemma CatalogSpec()
    ensures Names(Catalog()) == ["echo", "current_time", "add_numbers"]
    ensures forall k, m :: 0 <= k < m < |Catalog()| ==> Catalog()[k].name != Catalog()[m].name
    ensures forall k :: 0 <= k < |Catalog()| ==>
      forall r :: r in Catalog()[k].inputSchema.required ==> r in PropertyNames(Catalog()[k].inputSchema)
    ensures TimeTool.inputSchema.properties == [] && TimeTool.inputSchema.required == []
  {
    var names := Names(Catalog());
    assert names == ["echo", "current_time", "add_numbers"];
    assert PropertyNames(EchoTool.inputSchema) == ["text"];
    assert PropertyNames(AddTool.inputSchema) == ["a", "b"];
  }

  // ---------------------------------------------------------------------------
  // Python values as the handler sees them
  // ---------------------------------------------------------------------------

  /** `str(v)` for a JSON value; lists and dicts are rendered by `containerStr`. */
  function PyStr(v: Json, containerStr: Json -> string): string
  {
    match v
    case JNull => "None"
    case JBool(b) => if b then "True" else "False"
    case JNum(n) => IntToString(n)
    case JStr(s) => s
    case JArray(_) => containerStr(v)
    case JObject(_) => containerStr(v)
  }

  /** A bool used as a number. */
  function AsInt(v: Json): int
    requires v.JNum? || v.JBool?
  {
    if v.JNum? then v.n else if v.b then 1 else 0
  }

  /**
   * `a + b` on JSON values: numbers and bools add as integers, strings and
   * lists concatenate, anything else raises a TypeError (None).
   */
  function PyAdd(a: Json, b: Json): (r: Option<Json>)
    ensures a.JNum? && b.JNum? ==> r == Some(JNum(a.n + b.n))
    ensures r.None? <==>
      (!((a.JNum? || a.JBool?) && (b.JNum? || b.JBool?)) && !(a.JStr? && b.JStr?) && !(a.JArray? && b.JArray?))
  {
    if (a.JNum? || a.JBool?) && (b.JNum? || b.JBool?) then Some(JNum(AsInt(a) + AsInt(b)))
    else if a.JStr? && b.JStr? then Some(JStr(a.s + b.s))
    else if a.JArray? && b.JArray? then Some(JArray(a.items + b.items))
    else None
  }

  // ---------------------------------------------------------------------------
  // handle_call_tool
  // ---------------------------------------------------------------------------

  /** The errors `handle_call_tool` raises. */
  datatype CallError =
    | ArgumentsRequired
    | BothRequired
    | OperandTypeError(a: Json, b: Json)
    | UnknownTool(name: string)

  /** The message of each raised error; a TypeError's text is Python's and is not modelled. */
  function Message(e: CallError): Option<string>
  {
    match e
    case ArgumentsRequired => Some("Arguments required " + "for add_numbers")
    case BothRequired => Some("Both 'a' and 'b' " + "parameters are required")
    case OperandTypeError(_, _) => None
    case UnknownTool(name) => Some("Unknown tool: " + name)
  }

  /** `arguments`, with None and `{}` both falsy. */
  predicate HasArguments(arguments: Option<map<string, Json>>)
  {
    arguments.Some? && arguments.value != map[]
  }

  /** `arguments.get(key)`, None (the Python value) when the key is absent. */
  function Get(arguments: map<string, Json>, key: string): Json
  {
    if key in arguments then arguments[key] else JNull
  }

  function TextResult(text: string): seq<ContentBlock>
  {
    [TextContent(text)]
  }

  /** `handle_call_tool`: routes by name; `now` is the formatted current time. */
  function CallTool(name: string, arguments: Option<map<string, Json>>, now: string,
                    containerStr: Json -> string): Result<seq<ContentBlock>, CallError>
  {
    if name == "echo" then
      var text := if HasArguments(arguments) && "text" in arguments.value then arguments.value["text"] else JStr("");
      Ok(TextResult("Echo: " + PyStr(text, containerStr)))
    else if name == "current_time" then
      Ok(TextResult("Current time: " + now))
    else if name == "add_numbers" then
      if !HasArguments(arguments) then Err(ArgumentsRequired)
      else
        var a, b := Get(arguments.value, "a"), Get(arguments.value, "b");
        if a.JNull? || b.JNull? then Err(BothRequired)
        else match PyAdd(a, b)
          case None => Err(OperandTypeError(a, b))
          case Some(sum) =>
            Ok(TextResult("Result: " + PyStr(a, containerStr) + " + " + PyStr(b, containerStr)
              + " = " + PyStr(sum, containerStr)))
    else
      Err(UnknownTool(name))
  }

  /** Every successful call returns exactly one text item. */
  lemma CallToolSingleText(name: string, arguments: Option<map<string, Json>>, now: string, containerStr: Json -> string)
    ensures var r := CallTool(name, arguments, now, containerStr);
      r.Ok? ==> |r.value| == 1 && r.value[0].TextContent? && IsTextType(r.value[0])
  {
  }

  /** A call is routed to a tool exactly when its name is in the catalog; any other name is "Unknown tool". */
  lemma CallToolDispatch(name: string, arguments: Option<map<string, Json>>, now: string, containerStr: Json -> string)
    ensures CallTool(name, arguments, now, containerStr) == Err(UnknownTool(name)) <==> name !in Names(Catalog())
    ensures name !in Names(Catalog()) ==>
      var r := CallTool(name, arguments, now, containerStr);
      r.Err? && Message(r.error) == Some("Unknown tool: " + name)
  {
    CatalogSpec();
  }

  /** echo repeats its `text` argument, or the empty string when there is none. */
  lemma EchoSpec(arguments: Option<map<string, Json>>, now: string, containerStr: Json -> string)
    ensures HasArguments(arguments) && "text" in arguments.value && arguments.value["text"].JStr? ==>
      CallTool("echo", arguments, now, containerStr) == Ok([TextContent("Echo: " + arguments.value["text"].s)])
    ensures !HasArguments(arguments) || "text" !in arguments.value ==>
      CallTool("echo", arguments, now, containerStr) == Ok([TextContent("Echo: ")])
  {
    assert "Echo: " + "" == "Echo: ";
  }

  /**
   * add_numbers: no or empty arguments fail first; then a missing or null `a`
   * or `b` fails; on two integers the result states the sum.
   */
  lemma AddNumbersSpec(arguments: Option<map<string, Json>>, now: string, containerStr: Json -> string)
    ensures var r := CallTool("add_numbers", arguments, now, containerStr);
      && (!HasArguments(arguments) <==> r == Err(ArgumentsRequired))
      && ((HasArguments(arguments) && (Get(arguments.value, "a").JNull? || Get(arguments.value, "b").JNull?))
           <==> r == Err(BothRequired))
    ensures var r := CallTool("add_numbers", arguments, now, containerStr);
      && (!HasArguments(arguments) ==> r.Err? && Message(r.error) == Some("Arguments required " + "for add_numbers"))
      && (HasArguments(arguments) && (Get(arguments.value, "a").JNull? || Get(arguments.value, "b").JNull?) ==>
            r.Err? && Message(r.error) == Some("Both 'a' and 'b' " + "parameters are required"))
    ensures (HasArguments(arguments) && "a" in arguments.value && "b" in arguments.value
             && arguments.value["a"].JNum? && arguments.value["b"].JNum?) ==>
      var a, b := arguments.value["a"].n, arguments.value["b"].n;
      CallTool("add_numbers", arguments, now, containerStr)
        == Ok([TextContent("Result: " + IntToString(a) + " + " + IntToString(b) + " = " + IntToString(a + b))])
  {
  }
}
