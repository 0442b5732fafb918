/**
 * The chat-completion exchange both agents have with the language model:
 * messages, the model's reply with its optional tool calls, and the
 * arguments a tool call can carry once its JSON is parsed. The model
 * itself is a function parameter of the agents.
 */
module Llm {
  import opened Wrappers
  import opened IsoTime
  import opened ScheduleStore

  /**
   * The arguments of a tool call after `JSON.parse`; every field may be
   * absent (a JSON `null` is absent too).
   */
  datatype ToolArgs = ToolArgs(
    serviceName: Option<string>,
    date: Option<int>,
    clientName: Option<string>,
    clientPhone: Option<string>,
    startTime: Option<StartTime>,
    staffId: Option<string>,
    fullName: Option<string>,
    email: Option<string>,
    role: Option<string>,
    password: Option<string>,
    schedule: Option<seq<DayInput>>,
    serviceId: Option<string>,
    name: Option<string>,
    description: Option<string>,
    durationMinutes: Option<int>,
    price: Option<int>,
    bufferMinutes: Option<int>,
    color: Option<string>)

  /** The arguments of a call that passes none. */
  const NoArgs := ToolArgs(None, None, None, None, None, None, None, None, None, None,
                           None, None, None, None, None, None, None, None)

  /** The `arguments` string: JSON that parses, or the `SyntaxError` message `JSON.parse` throws. */
  datatype Arguments = Parsed(args: ToolArgs) | Malformed(error: string)

  /** One entry of `tool_calls`. */
  datatype ToolCall = ToolCall(id: string, name: string, arguments: Arguments)

  /** `completion.choices[0].message`: optional text and optional tool calls. */
  datatype Reply = Reply(content: Option<string>, toolCalls: Option<seq<ToolCall>>)

  /**
   * A conversation entry: the system prompt, a `{ role, content }` message
   * from the page, the model's own reply, or a tool message answering the
   * call `callId` with a result of type `P`.
   */
  datatype Message<P> =
    | SystemPrompt
    | Chat(role: string, content: string)
    | AssistantReply(reply: Reply)
    | ToolOutput(callId: string, result: P)

  /** The text of a `TypeError` on reading `prop` of `undefined`. */
  function UndefinedRead(prop: string): string {
    "Cannot read properties of undefined (reading '" + prop + "')"
  }
}
