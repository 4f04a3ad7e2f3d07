/** Messages of a conversation, as the agent keeps them. */
module Messages {
  import opened Basics

  datatype StopReason = Stop | Length | ToolUse | Error | Aborted

  /** Arguments of a tool call are kept as their JSON text. */
  datatype ContentBlock =
    | Text(text: string)
    | Thinking(thinking: string)
    | Image(data: string)
    | ToolCall(id: string, name: string, arguments: string)

  datatype Usage = Usage(input: u32, output: u32, cacheRead: u32, cacheWrite: u32, total: u32)

  const NO_USAGE := Usage(0, 0, 0, 0, 0)

  datatype Assistant = Assistant(
    responseId: Option<string>,
    content: seq<ContentBlock>,
    usage: Usage,
    stopReason: StopReason,
    errorMessage: Option<string>)

  datatype Message =
    | UserText(id: string, text: string)
    | FromAssistant(id: string, assistant: Assistant)
    | ToolResult(id: string, callId: string, toolName: string, isError: bool, content: seq<ContentBlock>)
    | SystemPrompt(id: string, text: string)
    | CompactionSummary(id: string, summary: string, tokensBefore: nat)
    | BashExecution(id: string, command: string, output: string, excluded: bool)
    | Custom(id: string, content: seq<ContentBlock>)
    | BranchSummary(id: string, summary: string, fromId: string)

  /** The message with the usage of an assistant reset. */
  function WithoutUsage(m: Message): Message
  {
    match m
    case FromAssistant(id, a) => FromAssistant(id, a.(usage := NO_USAGE))
    case _ => m
  }

  /** The same message, with the usage of an assistant reset. */
  predicate SameButUsage(m: Message, was: Message)
  {
    if was.FromAssistant? then
      && m.FromAssistant? && m.id == was.id && m.assistant.content == was.assistant.content
      && m.assistant.responseId == was.assistant.responseId && m.assistant.stopReason == was.assistant.stopReason
      && m.assistant.errorMessage == was.assistant.errorMessage && m.assistant.usage == Usage(0, 0, 0, 0, 0)
    else m == was
  }
}
