/** The argument map an LLM tool call arrives with (`map[string]interface{}`
    decoded from JSON) and the result record every tool returns. */
module ToolArgs {
  import opened Common

  /** A decoded JSON value. Numbers arrive as Go `float64`; they are modelled
      as integers, which is what every tool converts them to. */
  datatype Json = JString(str: string) | JNumber(num: int) | JObject(fields: map<string, Json>) | JOther

  type Args = map<string, Json>

  /** `v, ok := args[key].(string)`: present only when the key holds a string. */
  function StringArg(args: Args, key: string): (r: Option<string>)
    ensures r.Some? <==> key in args && args[key].JString?
    ensures r.Some? ==> r.value == args[key].str
  {
    if key in args && args[key].JString? then Some(args[key].str) else None
  }

  /** `v, _ := args[key].(string)`: the empty string when missing or not a string. */
  function StringOr(args: Args, key: string): (r: string)
    ensures key in args && args[key].JString? ==> r == args[key].str
    ensures !(key in args && args[key].JString?) ==> r == ""
  {
    match StringArg(args, key)
    case Some(v) => v
    case None => ""
  }

  /** `args[key].(string)` with `ok && v != ""`: a non-empty string argument, or nothing. */
  function NonEmptyArg(args: Args, key: string): (r: Option<string>)
    ensures r.Some? <==> StringOr(args, key) != ""
    ensures r.Some? ==> r.value == StringOr(args, key)
  {
    var v := StringOr(args, key);
    if v != "" then Some(v) else None
  }

  /** `n, ok := args[key].(float64)`. */
  function NumberArg(args: Args, key: string): (r: Option<int>)
    ensures r.Some? <==> key in args && args[key].JNumber?
    ensures r.Some? ==> r.value == args[key].num
  {
    if key in args && args[key].JNumber? then Some(args[key].num) else None
  }

  /** The value of a `max_results`-style argument: the given number when it
      is positive, otherwise the default. */
  function PositiveOr(args: Args, key: string, default: int): (r: int)
    ensures NumberArg(args, key).Some? && NumberArg(args, key).value > 0 ==> r == NumberArg(args, key).value
    ensures !(NumberArg(args, key).Some? && NumberArg(args, key).value > 0) ==> r == default
  {
    match NumberArg(args, key)
    case Some(n) => if n > 0 then n else default
    case None => default
  }

  /** What a tool hands back to the agent loop. */
  datatype ToolResult = ToolResult(forLLM: string, forUser: string, silent: bool, isError: bool)

  /** An error result: the message goes to the model, flagged as an error. */
  function ErrorResult(msg: string): ToolResult {
    ToolResult(msg, "", false, true)
  }

  /** A successful result that the model sees and the user is not sent. */
  function SilentResult(msg: string): ToolResult {
    ToolResult(msg, "", true, false)
  }
}
