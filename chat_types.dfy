/** The shared types of types/chat.ts. */
module ChatTypes {
  import opened Wrappers
  import opened JsValue
  import opened JsonSchema

  /** The server event union: what one `data:` payload of the event stream carries. */
  datatype ServerEvent =
    | TextDelta(delta: string)
    | ToolCallEvent(toolName: string, input: Value)
    | ToolResultEvent(toolName: string, ok: bool, data: Value, error: Option<string>)
    | ErrorEvent(message: string)
    | DoneEvent

  /** `{ ok, data?, error? }` as a tool's `execute` resolves it. */
  datatype ToolResult<T> = ToolResult(ok: bool, data: Option<T>, error: Option<string>)

  /** A registered tool: its name, description and manifest schema. The executor is a
      method of the tool's own module rather than a field. */
  datatype ToolSpec = ToolSpec(name: string, description: string, jsonSchema: Schema)
}
