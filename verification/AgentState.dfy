/** The agent's states, events and actions. Timestamps are dropped. */
module AgentState {
  import opened Conversation

  const U32_MAX: nat := 0xFFFF_FFFF

  type U32 = n: nat | n <= U32_MAX

  datatype ToolDefinition = ToolDefinition(name: string, description: string, inputSchema: string)

  /** The agent's configuration together with the tools it offers to the LLM. */
  datatype Setup = Setup(
    modelName: string,
    maxRetries: U32,
    maxTokens: U32,
    temperature: Option<real>,
    tools: seq<ToolDefinition>)

  datatype LlmRequest = LlmRequest(
    model: string,
    messages: seq<Message>,
    tools: seq<ToolDefinition>,
    maxTokens: Option<U32>,
    temperature: Option<real>)

  datatype LlmResponse = LlmResponse(
    message: Message,
    toolCalls: seq<ToolCall>,
    finishReason: Option<string>)

  datatype LlmEvent =
    | TextDelta(content: string)
    | ToolCallDelta(callId: string, toolName: string, fragment: string)
    | Finished(response: LlmResponse)
    | Failed(error: string)

  /** What a tool produced: the text of its JSON output, or of its error. */
  datatype Outcome =
    | Success(callId: string, output: string)
    | Failure(callId: string, error: string)
  {
    /** The content of the Tool message that reports this outcome. */
    function Report(): string {
      match this
      case Success(_, output) => output
      case Failure(_, error) => "Error: " + error
    }
  }

  datatype Execution =
    | Pending(id: string, tool: string)
    | Running(id: string, tool: string, progress: Option<string>)
    | Completed(id: string, tool: string, outcome: Outcome)

  datatype CompletedTool = CompletedTool(toolName: string, succeeded: bool)

  datatype Context = Context(id: string, messages: seq<Message>)

  datatype AgentError =
    | LlmError(text: string)
    | ToolError(text: string)
    | IoError(text: string)
  {
    function Display(): string {
      match this
      case LlmError(text) => "LLM error: " + text
      case ToolError(text) => "Tool error: " + text
      case IoError(text) => "IO error: " + text
    }
  }

  datatype ErrorOrigin = LlmOrigin | ToolOrigin | IoOrigin

  datatype State =
    | WaitingForUserInput(conversation: Context)
    | CallingLlm(conversation: Context, retries: U32)
    | ProcessingLlmResponse(conversation: Context, response: LlmResponse)
    | ExecutingTools(conversation: Context, executions: seq<Execution>)
    | PostToolsHook(conversation: Context, pendingRequest: LlmRequest, completedTools: seq<CompletedTool>)
    | Error(conversation: Context, error: AgentError, retries: U32, origin: ErrorOrigin)
    | ShuttingDown

  datatype Event =
    | UserInput(message: Message)
    | Llm(event: LlmEvent)
    | ToolProgress(callId: string, progress: string)
    | ToolCompleted(callId: string, outcome: Outcome)
    | PostToolsHookCompleted(actionTaken: bool)
    | RetryTimeoutFired
    | ShutdownRequested

  datatype Action =
    | SendLlmRequest(request: LlmRequest)
    | ExecuteTools(calls: seq<ToolCall>)
    | RunPostToolsHook(completedTools: seq<CompletedTool>)
    | WaitForInput
    | DisplayMessage(text: string)
    | DisplayError(text: string)
    | Shutdown
}
