/** Messages as the caller gives them and the request structures the Kiro service takes. */
module KiroTypes {
  import opened Common
  import opened Accumulator
  import KiroTools

  datatype Role = System | User | Assistant | Tool | Unknown(name: string)

  datatype Image = Image(data: string, url: string, format: string)

  datatype ContentPart = TextPart(text: Option<string>) | ImagePart(image: Option<Image>) | OtherPart

  datatype ChatMessage = ChatMessage(
    role: Role, content: string, parts: seq<ContentPart>, toolId: string,
    toolCalls: seq<ToolCall>, reasoning: string)

  datatype KiroImage = KiroImage(format: string, bytes: string)

  datatype ToolResult = ToolResult(id: string, status: string, text: string)

  /** The arguments of a tool use: an empty object, or whatever parsing the raw bytes yields. */
  datatype ToolInput = EmptyObject | Parsed(raw: string)

  datatype ToolUse = ToolUse(id: string, name: string, input: ToolInput)

  /** Tool parameters are the raw text of their schema. */
  type ToolSpec = KiroTools.KiroTool<string>

  type RequestTool = KiroTools.Tool<string>

  datatype InputContext = InputContext(toolResults: seq<ToolResult>, tools: seq<ToolSpec>)

  datatype UserInput = UserInput(
    content: string, modelId: string, origin: string, images: seq<KiroImage>, context: Option<InputContext>)

  datatype AssistantMessage = AssistantMessage(content: string, toolUses: seq<ToolUse>)

  datatype HistoryItem = UserItem(input: UserInput) | AssistantItem(message: AssistantMessage)

  datatype Request = Request(current: UserInput, history: seq<HistoryItem>)

  const ORIGIN := "AI_EDITOR"

  function ResultOf(m: ChatMessage): ToolResult {
    ToolResult(m.toolId, "success", m.content)
  }

  function ContextResults(c: Option<InputContext>): seq<ToolResult> {
    if c.Some? then c.value.toolResults else []
  }

  function ItemResults(h: HistoryItem): seq<ToolResult> {
    if h.UserItem? then ContextResults(h.input.context) else []
  }

  /** All tool results of a history, in order. */
  function HistoryResults(hs: seq<HistoryItem>): seq<ToolResult> {
    if hs == [] then [] else HistoryResults(Init(hs)) + ItemResults(Last(hs))
  }

  function ItemUses(h: HistoryItem): set<string> {
    if h.AssistantItem? then set u | u in h.message.toolUses :: u.id else {}
  }

  /** The tool-use ids that a history's assistant entries declare. */
  function UseIds(hs: seq<HistoryItem>): set<string> {
    if hs == [] then {} else UseIds(Init(hs)) + ItemUses(Last(hs))
  }

  function ContentOf(h: HistoryItem): string {
    if h.UserItem? then h.input.content else h.message.content
  }

  lemma {:induction false} HistoryResultsConcat(a: seq<HistoryItem>, b: seq<HistoryItem>)
    ensures HistoryResults(a + b) == HistoryResults(a) + HistoryResults(b)
  {
    if b == [] {
      assert a + b == a;
    } else {
      HistoryResultsConcat(a, Init(b));
      InitOfConcat(a, b);
      Reassociate(HistoryResults(a), HistoryResults(Init(b)), ItemResults(Last(b)));
    }
  }
}
