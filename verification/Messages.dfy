/** The internal message record shared by history repair and the wire encoders. */
module Messages {
  datatype Role = User | Assistant | System | Tool

  type Arguments = map<string, string>

  datatype ToolCall = ToolCall(id: string, name: string, arguments: Arguments)

  datatype ToolResult = ToolResult(toolCallId: string, output: string, isError: bool)

  /** `stamp` stands for the id, timestamp and the other fields no encoder sends; None and [] are the same absence of
      calls or results; `reasoning` is the provider metadata's reasoning text, "" when it holds no non-empty string. */
  datatype Message = Message(
    stamp: nat, role: Role, content: string, reasoning: string, toolCalls: seq<ToolCall>, toolResults: seq<ToolResult>)
}
