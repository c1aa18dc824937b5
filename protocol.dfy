/**
 * Values exchanged between the bot and the language model: the untyped
 * arguments of a tool call, the observations fed back as user turns, the
 * model's reply message and the turns of the conversation history.
 */
module Protocol {
  import opened Wrappers

  /** A JSON scalar as it arrives in a tool call's `arguments` object.
      `Undefined` is what reading a missing property yields. */
  datatype Value = Str(s: string) | Num(n: int) | Bool(b: bool) | Null | Undefined

  /** A block position in the world. */
  datatype Position = Position(x: int, y: int, z: int)

  /** What a user turn reports to the model (the payload the source serialises
      with JSON.stringify before pushing it). */
  datatype Stimulus =
    | Chat(username: string, message: string)
    | MovedTo(x: Value, y: Value, z: Value)
    | PlayerLocation(player: Value, location: Position)

  /** A tool call as returned by the model: a function name and its arguments. */
  datatype ToolCall = ToolCall(name: string, arguments: map<string, Value>)

  /** The model's reply message; `toolCalls` is absent when the model calls no tool. */
  datatype Message = Message(content: string, toolCalls: Option<seq<ToolCall>>)

  /** One entry of the conversation history. */
  datatype Turn =
    | SystemPrompt
    | User(content: Stimulus)
    | Assistant(message: Message)

  /** The outcome of one inference request: the reply message, or a failure
      (transport error, timeout, malformed response) that the round catches. */
  datatype Reply = Failed | Replied(message: Message)

  /** Reads one property of a call's arguments object. */
  function Arg(call: ToolCall, key: string): Value
  {
    if key in call.arguments then call.arguments[key] else Undefined
  }

  /** The tool calls a reply asks for, in the order the model returned them;
      an absent `tool_calls` field asks for none. */
  function ToolCallsOf(m: Message): seq<ToolCall>
  {
    match m.toolCalls
    case None => []
    case Some(cs) => cs
  }

  function DigitChar(d: nat): (c: char)
    requires d < 10
    ensures '0' <= c <= '9'
  {
    "0123456789"[d]
  }

  /** The decimal numeral of a natural number, without leading zeros. */
  function NatToString(n: nat): (s: string)
    ensures |s| >= 1
    ensures forall i :: 0 <= i < |s| ==> '0' <= s[i] <= '9'
    ensures |s| > 1 ==> s[0] != '0'
    decreases n
  {
    if n < 10 then [DigitChar(n)] else NatToString(n / 10) + [DigitChar(n % 10)]
  }

  /** JavaScript's String(v), used both by a template literal and when a value
      indexes an object as a property key. */
  function ToJsString(v: Value): string
  {
    match v
    case Str(s) => s
    case Num(n) => if n < 0 then "-" + NatToString(-n) else NatToString(n)
    case Bool(b) => if b then "true" else "false"
    case Null => "null"
    case Undefined => "undefined"
  }
}
