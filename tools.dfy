/**
 * Tool dispatch shared by the stream translator and the research agent:
 * look a tool up by name, parse its raw argument text as JSON, spread the
 * resulting object as keyword arguments and call it.
 *
 * JSON parsing and printing, Python's `str()` and the text of an exception
 * are not modelled; they are the fields of a `Runtime` value, so every
 * statement below holds whatever those functions are.
 */
module Tools {
  import opened Wrappers

  /** A JSON value as `json.loads` produces it and `json.dumps` consumes it. */
  datatype Json =
    | Null
    | Bool(b: bool)
    | Number(n: int)
    | Str(s: string)
    | Array(items: seq<Json>)
    | Object(fields: map<string, Json>)

  /** The Python exceptions that tool dispatch and the stream translator can raise. */
  datatype Failure =
    | UnknownTool(name: string)     // KeyError from the tool table lookup
    | InvalidJson(message: string)  // json.JSONDecodeError from json.loads
    | NotMapping                    // TypeError: `**` applied to a JSON value that is not an object
    | ToolRaised(message: string)   // whatever the tool function itself raised
    | NoOpenDraft                   // IndexError: an id-less fragment while no draft exists

  /** A tool: keyword arguments in, a JSON-serialisable value or a raised message out. */
  type Tool = map<string, Json> -> Result<Json, string>

  /** The name-keyed table of callable tools. */
  type Registry = map<string, Tool>

  /** The behaviour of the Python runtime and of the `json` module, left abstract. */
  datatype Runtime = Runtime(
    loads: string -> Result<Json, string>,  // json.loads: a value, or the decode error's message
    dumps: Json -> string,                  // json.dumps
    str: Json -> string,                    // str() of a tool's return value
    describe: Failure -> string)            // str(e) of a raised exception

  /**
   * `tools[name](**json.loads(arguments))`, in Python's evaluation order:
   * the lookup first, then parsing, then spreading, then the call.
   */
  function Invoke(tools: Registry, rt: Runtime, name: string, arguments: string): (r: Result<Json, Failure>)
    ensures r.Ok? <==> && name in tools && rt.loads(arguments).Ok? && rt.loads(arguments).value.Object?
                        && tools[name](rt.loads(arguments).value.fields).Ok?
    ensures r.Ok? ==> r.value == tools[name](rt.loads(arguments).value.fields).value
    ensures name !in tools ==> r == Err(UnknownTool(name))
    ensures name in tools && rt.loads(arguments).Err? ==> r == Err(InvalidJson(rt.loads(arguments).error))
    ensures name in tools && rt.loads(arguments).Ok? && !rt.loads(arguments).value.Object? ==> r == Err(NotMapping)
    ensures r.Err? && r.error.ToolRaised? ==> tools[name](rt.loads(arguments).value.fields) == Err(r.error.message)
    ensures r != Err(NoOpenDraft)
  {
    if name !in tools then Err(UnknownTool(name))
    else match rt.loads(arguments)
      case Err(message) => Err(InvalidJson(message))
      case Ok(value) =>
        if !value.Object? then Err(NotMapping)
        else match tools[name](value.fields)
          case Ok(result) => Ok(result)
          case Err(message) => Err(ToolRaised(message))
  }
}
