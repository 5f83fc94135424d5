/** Session events on the wire, and the raw agent events they are made from,
    both with their JSON fields already decoded. An absent string field is "". */
module Wire {
  import opened Folds
  import opened Text

  datatype Usage = Usage(input: int, output: int, cacheRead: int, cacheCreation: int) {
    predicate AllZero() { input == 0 && output == 0 && cacheRead == 0 && cacheCreation == 0 }
  }

  datatype ToolInput = ToolInput(message: string, task: string, rest: string)

  /** providerOptions.anthropic of a thinking block; at most one field is set. */
  datatype ProviderOptions = ProviderOptions(signature: string, redactedData: string)

  datatype WireEvent =
    | AgentMessage(text: string)
    | ThinkingStreamStart(thinkingId: int)
    | ThinkingChunk(thinkingId: int, delta: string)
    | ThinkingStreamEnd(thinkingId: int)
    | Thinking(thinkingId: int, text: string, options: Option<ProviderOptions>)
    | UsageSpan(usage: Usage)
    | ToolUse(id: string, name: string, input: ToolInput)
    | CustomToolUse(id: string, name: string, input: ToolInput)
    | ToolResult(toolUseId: string, text: string)
    | ThreadMessageSent(eventId: string, toThread: string, text: string)
    | ThreadMessageReceived(fromThread: string, text: string, parentEventId: string, fromAgent: string)
    | UserMessage(text: string)
    | OtherEvent(kind: string)

  datatype Block =
    | TextBlock(text: string)
    | ThinkingBlock(thinking: string, signature: string, redacted: bool)
    | OtherBlock

  datatype Content = Plain(text: string) | Blocks(blocks: seq<Block>) | NoContent

  datatype Message = Message(isAssistant: bool, content: Content, usage: Option<Usage>)

  /** content_index: absent, not convertible by int(), or an integer. */
  datatype ContentIndex = Absent | Malformed | At(index: int)

  datatype StreamPart =
    | NoPart
    | ThinkingStart(index: ContentIndex)
    | ThinkingDelta(index: ContentIndex, delta: string)
    | ThinkingEnd(index: ContentIndex)
    | OtherPart

  /** One item of the agent's event list. `uuid` is what the emitter would
      draw for a call that carries no id of its own. */
  datatype RawEvent =
    | MessageStart
    | MessageUpdate(part: StreamPart, message: Option<Message>)
    | MessageEnd(message: Option<Message>)
    | TurnEnd(message: Option<Message>)
    | AssistantText(text: Option<string>, content: Content)
    | ToolCall(id: string, toolCallId: string, toolUseId: string, uuid: string,
               toolName: string, name: Option<string>, input: ToolInput)
    | ToolDone(id: string, toolCallId: string, toolUseId: string, result: string)
    | OtherRaw

  function Or(a: string, b: string): string { if a != "" then a else b }

  /** Text of a message before stripping: its text blocks joined. */
  function RawText(content: Content): string {
    match content
    case Plain(text) => text
    case Blocks(blocks) => Gather(BlockText, blocks)
    case NoContent => ""
  }

  function BlockText(b: Block): string { if b.TextBlock? then b.text else "" }

  function MessageText(m: Message): string { PyStrip(RawText(m.content)) }

  function SpokenOf(e: WireEvent): string { if e.AgentMessage? then e.text else "" }

  /** The agent.message texts of an event list, joined. */
  function Spoken(events: seq<WireEvent>): string { Gather(SpokenOf, events) }

  predicate HasPrefix(s: string, prefix: string) { prefix <= s }

  /** The tools that map to agent.tool_use rather than a custom round trip. */
  datatype ToolTable = ToolTable(names: set<string>, prefixes: set<string>) {
    predicate Builtin(name: string) {
      name != "" && (name in names || exists p | p in prefixes :: HasPrefix(name, p))
    }
  }
}
