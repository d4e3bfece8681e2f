/**
 Messages and tool calls, shared by the agent state machine and the ACP session.

 JSON values (tool arguments and tool outputs) are carried as their text.
 */
module Conversation {
  datatype Option<+T> = None | Some(value: T)

  datatype Role = System | User | Assistant | Tool

  datatype ToolCall = ToolCall(id: string, toolName: string, arguments: string)

  datatype Message = Message(
    role: Role,
    content: string,
    toolCallId: Option<string>,
    name: Option<string>,
    toolCalls: seq<ToolCall>)
}
