/** History stage of the Kiro request pipeline: every message but the last becomes history, tool
    messages are collected until a user or assistant message carries them. */
module KiroHistory {
  import opened Common
  import opened Accumulator
  import opened KiroTypes
  import opened Text

  const KEEP_IMAGE_THRESHOLD := 5
  const MAX_HISTORY := 50
  const TOOL_RESULTS_PROVIDED := "Tool results provided."
  const CONTINUE := "Continue"

  // ------------------------------------------------------------------------------------
  // Single messages
  // ------------------------------------------------------------------------------------

  function TextOf(parts: seq<ContentPart>): string {
    if parts == [] then ""
    else TextOf(Init(parts)) + if Last(parts).TextPart? then Last(parts).text.GetOr("") else ""
  }

  /** An image without data, be it a URL or nothing at all, cannot be converted. */
  function ConvertImage(image: Image): Option<KiroImage> {
    if image.data == "" then None
    else Some(KiroImage(if image.format == "" then "jpeg" else image.format, image.data))
  }

  function ImagesOf(parts: seq<ContentPart>): seq<KiroImage> {
    if parts == [] then []
    else
      var p := Last(parts);
      var k := if p.ImagePart? && p.image.Some? then ConvertImage(p.image.value) else None;
      ImagesOf(Init(parts)) + if k.Some? then [k.value] else []
  }

  function ImageCount(parts: seq<ContentPart>): nat {
    if parts == [] then 0
    else ImageCount(Init(parts)) + if Last(parts).ImagePart? && Last(parts).image.Some? then 1 else 0
  }

  function PlainText(m: ChatMessage): string {
    if m.parts != [] then TextOf(m.parts) else m.content
  }

  function OmittedNote(n: nat): string {
    "[此消息包含 " + Decimal(n) + " 张图片，已在历史记录中省略]"
  }

  function OrIfBlank(s: string, fallback: string): string {
    if Trim(s) == "" then fallback else s
  }

  function HistoryUser(m: ChatMessage, modelId: string, keepImages: bool): UserInput {
    if m.role.Tool? then
      UserInput(TOOL_RESULTS_PROVIDED, modelId, ORIGIN, [], Some(InputContext([ResultOf(m)], [])))
    else
      var text := PlainText(m);
      var omitted := if keepImages then 0 else ImageCount(m.parts);
      var full := if omitted == 0 then text
                  else (if text != "" then text + "\n" else "") + OmittedNote(omitted);
      UserInput(OrIfBlank(full, CONTINUE), modelId, ORIGIN,
                if keepImages then ImagesOf(m.parts) else [], None)
  }

  function UsesOf(calls: seq<ToolCall>): seq<ToolUse> {
    if calls == [] then []
    else
      var c := Last(calls);
      UsesOf(Init(calls)) +
        if c.kind in {"function", "tool_use"}
        then [UseOf(c)] else []
  }

  function UseOf(c: ToolCall): ToolUse {
    ToolUse(c.id, c.name, if c.args == "" then EmptyObject else Parsed(c.args))
  }

  function HistoryAssistant(m: ChatMessage): AssistantMessage {
    var text := PlainText(m);
    var content :=
      if m.reasoning == "" then text
      else "<thinking>" + m.reasoning + "</thinking>" + if text != "" then "\n\n" + text else "";
    AssistantMessage(OrIfBlank(content, "."), UsesOf(m.toolCalls))
  }

  method BuildHistoryUserMessage(msg: ChatMessage, modelId: string, shouldKeepImages: bool)
    returns (input: UserInput)
    ensures input == HistoryUser(msg, modelId, shouldKeepImages)
  {
    var text, images, imageCount := "", [], 0;
    if msg.role.Tool? {
      var toolResults := [ResultOf(msg)];
      assert Trim("") == "";
      return UserInput(TOOL_RESULTS_PROVIDED, modelId, ORIGIN, [], Some(InputContext(toolResults, [])));
    }
    if |msg.parts| > 0 {
      assert msg.parts[..|msg.parts|] == msg.parts;
      for i := 0 to |msg.parts|
        invariant text == TextOf(msg.parts[..i])
        invariant images == if shouldKeepImages then ImagesOf(msg.parts[..i]) else []
        invariant imageCount == if shouldKeepImages then 0 else ImageCount(msg.parts[..i])
      {
        assert Init(msg.parts[..i + 1]) == msg.parts[..i];
        match msg.parts[i]
        case TextPart(t) => text := text + t.GetOr("");
        case ImagePart(image) =>
          if image.Some? {
            if shouldKeepImages {
              var img := ConvertImage(image.value);
              if img.Some? {
                images := images + [img.value];
              }
            } else {
              imageCount := imageCount + 1;
            }
          }
        case OtherPart =>
      }
    } else {
      text := msg.content;
    }
    if imageCount > 0 {
      if |text| > 0 {
        text := text + "\n";
      }
      text := text + OmittedNote(imageCount);
    }
    input := UserInput(if Trim(text) == "" then CONTINUE else text, modelId, ORIGIN, images, None);
  }

  method BuildAssistantMessage(msg: ChatMessage) returns (r: AssistantMessage)
    ensures r == HistoryAssistant(msg)
  {
    var text := "";
    if |msg.parts| > 0 {
      for i := 0 to |msg.parts|
        invariant text == TextOf(msg.parts[..i])
      {
        assert Init(msg.parts[..i + 1]) == msg.parts[..i];
        if msg.parts[i].TextPart? && msg.parts[i].text.Some? {
          text := text + msg.parts[i].text.value;
        }
      }
      assert msg.parts[..|msg.parts|] == msg.parts;
    } else {
      text := msg.content;
    }
    var content := text;
    if msg.reasoning != "" {
      content := "<thinking>" + msg.reasoning + "</thinking>";
      if text != "" {
        content := content + ("\n\n" + text);
      }
    }
    if Trim(content) == "" {
      content := ".";
    }
    var toolUses: seq<ToolUse> := [];
    for i := 0 to |msg.toolCalls|
      invariant toolUses == UsesOf(msg.toolCalls[..i])
    {
      assert Init(msg.toolCalls[..i + 1]) == msg.toolCalls[..i];
      var tc := msg.toolCalls[i];
      if tc.kind == "function" || tc.kind == "tool_use" {
        var toolInput := if |tc.args| > 0 then Parsed(tc.args) else EmptyObject;
        toolUses := toolUses + [ToolUse(tc.id, tc.name, toolInput)];
      }
    }
    assert msg.toolCalls[..|msg.toolCalls|] == msg.toolCalls;
    r := AssistantMessage(content, toolUses);
  }

  // ------------------------------------------------------------------------------------
  // The history
  // ------------------------------------------------------------------------------------

  datatype Draft = Draft(items: seq<HistoryItem>, pending: seq<ToolResult>)

  function Carry(input: UserInput, pending: seq<ToolResult>): UserInput {
    if pending == [] then input
    else input.(context := Some(InputContext(pending + ContextResults(input.context),
                                             if input.context.Some? then input.context.value.tools else [])))
  }

  function Synthetic(modelId: string, pending: seq<ToolResult>): HistoryItem {
    UserItem(UserInput(TOOL_RESULTS_PROVIDED, modelId, ORIGIN, [], Some(InputContext(pending, []))))
  }

  /** One message of the history; `distance` counts how far it stands from the last message. */
  function DraftStep(d: Draft, m: ChatMessage, modelId: string, distance: nat): Draft {
    match m.role
    case Tool => d.(pending := d.pending + [ResultOf(m)])
    case User =>
      Draft(d.items + [UserItem(Carry(HistoryUser(m, modelId, distance <= KEEP_IMAGE_THRESHOLD), d.pending))], [])
    case Assistant =>
      Draft((if d.pending != [] then d.items + [Synthetic(modelId, d.pending)] else d.items)
            + [AssistantItem(HistoryAssistant(m))], [])
    case _ => d
  }

  /** The draft after the first messages of a conversation of `total` messages. */
  function DraftOf(ms: seq<ChatMessage>, modelId: string, total: nat): Draft
    requires |ms| < total
  {
    if ms == [] then Draft([], [])
    else DraftStep(DraftOf(Init(ms), modelId, total), Last(ms), modelId, total - |ms|)
  }

  function WithPlaceholder(items: seq<HistoryItem>, modelId: string): seq<HistoryItem> {
    if items != [] && items[0].AssistantItem? then [UserItem(UserInput(".", modelId, ORIGIN, [], None))] + items
    else items
  }

  function Truncate(items: seq<HistoryItem>): seq<HistoryItem> {
    if |items| <= MAX_HISTORY then items else items[|items| - MAX_HISTORY..]
  }

  function Known(results: seq<ToolResult>, ids: set<string>): seq<ToolResult> {
    if results == [] then []
    else Known(Init(results), ids) + if Last(results).id in ids then [Last(results)] else []
  }

  function KnownInItem(h: HistoryItem, ids: set<string>): HistoryItem {
    if h.AssistantItem? || ItemResults(h) == [] then h
    else
      var c := h.input.context.value;
      var kept := Known(c.toolResults, ids);
      UserItem(h.input.(context := if kept == [] && c.tools == [] then None else Some(c.(toolResults := kept))))
  }

  function KnownInHistory(hs: seq<HistoryItem>, ids: set<string>): seq<HistoryItem> {
    if hs == [] then [] else KnownInHistory(Init(hs), ids) + [KnownInItem(Last(hs), ids)]
  }

  /** The history before orphaned tool results are removed. */
  function Unfiltered(ms: seq<ChatMessage>, modelId: string): seq<HistoryItem>
    requires ms != []
  {
    Truncate(WithPlaceholder(DraftOf(Init(ms), modelId, |ms|).items, modelId))
  }

  function FilterOrphans(hs: seq<HistoryItem>): seq<HistoryItem> {
    KnownInHistory(hs, UseIds(hs))
  }

  method CollectUseIds(history: seq<HistoryItem>) returns (valid: set<string>)
    ensures valid == UseIds(history)
  {
    valid := {};
    assert history[..|history|] == history;
    for i := 0 to |history|
      invariant valid == UseIds(history[..i])
    {
      assert Init(history[..i + 1]) == history[..i];
      if history[i].AssistantItem? {
        var uses, before := history[i].message.toolUses, valid;
        for j := 0 to |uses|
          invariant valid == before + set u | u in uses[..j] :: u.id
        {
          valid := valid + {uses[j].id};
          assert uses[..j + 1] == uses[..j] + [uses[j]];
        }
        assert uses[..|uses|] == uses;
      }
    }
  }

  method KeepKnown(toolResults: seq<ToolResult>, valid: set<string>) returns (filtered: seq<ToolResult>)
    ensures filtered == Known(toolResults, valid)
  {
    filtered := [];
    assert toolResults[..|toolResults|] == toolResults;
    for i := 0 to |toolResults|
      invariant filtered == Known(toolResults[..i], valid)
    {
      assert Init(toolResults[..i + 1]) == toolResults[..i];
      if toolResults[i].id in valid {
        filtered := filtered + [toolResults[i]];
      }
    }
  }

  method FilterOrphanedToolResults(items: seq<HistoryItem>) returns (history: seq<HistoryItem>)
    ensures history == FilterOrphans(items)
  {
    var valid := CollectUseIds(items);
    history := [];
    assert items[..|items|] == items;
    for i := 0 to |items|
      invariant history == KnownInHistory(items[..i], valid)
    {
      assert Init(items[..i + 1]) == items[..i];
      var h := items[i];
      if h.UserItem? && h.input.context.Some? && |h.input.context.value.toolResults| > 0 {
        var ctx := h.input.context.value;
        var filtered := KeepKnown(ctx.toolResults, valid);
        h := UserItem(h.input.(context :=
          if |filtered| == 0 && |ctx.tools| == 0 then None else Some(ctx.(toolResults := filtered))));
      }
      history := history + [h];
    }
  }

  lemma DraftNext(ms: seq<ChatMessage>, i: nat, modelId: string, total: nat)
    requires i < |ms| <= total && i + 1 < total
    ensures DraftOf(ms[..i + 1], modelId, total) == DraftStep(DraftOf(ms[..i], modelId, total), ms[i], modelId, total - 1 - i)
  {
    assert Init(ms[..i + 1]) == ms[..i];
  }

  /** The items and the pending results after one more message. */
  method AddMessage(items: seq<HistoryItem>, before: seq<ToolResult>, msg: ChatMessage, modelId: string, distanceFromEnd: nat)
    returns (history: seq<HistoryItem>, pending: seq<ToolResult>)
    ensures Draft(history, pending) == DraftStep(Draft(items, before), msg, modelId, distanceFromEnd)
  {
    history, pending := items, before;
    match msg.role
    case Tool =>
      pending := pending + [ResultOf(msg)];
    case User =>
      var input := BuildHistoryUserMessage(msg, modelId, distanceFromEnd <= KEEP_IMAGE_THRESHOLD);
      if |pending| > 0 {
        var ctx := if input.context.Some? then input.context.value else InputContext([], []);
        input := input.(context := Some(ctx.(toolResults := pending + ctx.toolResults)));
        pending := [];
      }
      history := history + [UserItem(input)];
    case Assistant =>
      if |pending| > 0 {
        history := history + [Synthetic(modelId, pending)];
        pending := [];
      }
      var assistantMsg := BuildAssistantMessage(msg);
      history := history + [AssistantItem(assistantMsg)];
    case _ =>
  }

  method DraftHistory(messages: seq<ChatMessage>, modelId: string)
    returns (history: seq<HistoryItem>, pending: seq<ToolResult>)
    requires messages != []
    ensures Draft(history, pending) == DraftOf(Init(messages), modelId, |messages|)
  {
    history, pending := [], [];
    var totalMessages := |messages|;
    for i := 0 to totalMessages - 1
      invariant Draft(history, pending) == DraftOf(messages[..i], modelId, totalMessages)
    {
      DraftNext(messages, i, modelId, totalMessages);
      history, pending := AddMessage(history, pending, messages[i], modelId, totalMessages - 1 - i);
    }
  }

  /** The history stage: the new history and the tool results no message has carried yet. */
  method BuildHistory(messages: seq<ChatMessage>, modelId: string)
    returns (history: seq<HistoryItem>, pending: seq<ToolResult>)
    requires messages != []
    ensures history == FilterOrphans(Unfiltered(messages, modelId))
    ensures pending == DraftOf(Init(messages), modelId, |messages|).pending
  {
    history, pending := DraftHistory(messages, modelId);
    if |history| > 0 && !history[0].UserItem? {
      history := [UserItem(UserInput(".", modelId, ORIGIN, [], None))] + history;
    }
    if |history| > MAX_HISTORY {
      history := history[|history| - MAX_HISTORY..];
    }
    history := FilterOrphanedToolResults(history);
  }

  // ------------------------------------------------------------------------------------
  // What the history holds
  // ------------------------------------------------------------------------------------

  function ToolResultsOf(ms: seq<ChatMessage>): seq<ToolResult> {
    if ms == [] then [] else ToolResultsOf(Init(ms)) + if Last(ms).role.Tool? then [ResultOf(Last(ms))] else []
  }

  /** The results of the tool messages after the last user or assistant message. */
  function TailTools(ms: seq<ChatMessage>): seq<ToolResult> {
    if ms == [] then []
    else match Last(ms).role
      case Tool => TailTools(Init(ms)) + [ResultOf(Last(ms))]
      case User => []
      case Assistant => []
      case _ => TailTools(Init(ms))
  }

  lemma AppendItem(items: seq<HistoryItem>, h: HistoryItem)
    ensures HistoryResults(items + [h]) == HistoryResults(items) + ItemResults(h)
    ensures UseIds(items + [h]) == UseIds(items) + ItemUses(h)
  {
    assert Init(items + [h]) == items;
  }

  lemma CarriedResults(m: ChatMessage, modelId: string, keep: bool, pending: seq<ToolResult>)
    requires !m.role.Tool?
    ensures ItemResults(UserItem(Carry(HistoryUser(m, modelId, keep), pending))) == pending
  {
  }

  lemma DraftStepConserves(d: Draft, m: ChatMessage, modelId: string, distance: nat)
    ensures var d' := DraftStep(d, m, modelId, distance);
      HistoryResults(d'.items) + d'.pending
        == HistoryResults(d.items) + d.pending + if m.role.Tool? then [ResultOf(m)] else []
  {
    match m.role
    case Tool =>
      Reassociate(HistoryResults(d.items), d.pending, [ResultOf(m)]);
    case User =>
      CarriedResults(m, modelId, distance <= KEEP_IMAGE_THRESHOLD, d.pending);
      AppendItem(d.items, UserItem(Carry(HistoryUser(m, modelId, distance <= KEEP_IMAGE_THRESHOLD), d.pending)));
    case Assistant =>
      AppendItem(d.items, Synthetic(modelId, d.pending));
      AppendItem(if d.pending != [] then d.items + [Synthetic(modelId, d.pending)] else d.items,
                 AssistantItem(HistoryAssistant(m)));
    case _ =>
  }

  lemma PlaceholderHoldsNothing(items: seq<HistoryItem>, modelId: string)
    ensures HistoryResults(WithPlaceholder(items, modelId)) == HistoryResults(items)
  {
    var dot := UserItem(UserInput(".", modelId, ORIGIN, [], None));
    HistoryResultsConcat([dot], items);
    AppendItem([], dot);
    assert [] + [dot] == [dot] && HistoryResults([dot]) + HistoryResults(items) == HistoryResults(items);
  }

  lemma {:induction false} DraftConserves(ms: seq<ChatMessage>, modelId: string, total: nat)
    requires |ms| < total
    ensures var d := DraftOf(ms, modelId, total);
      HistoryResults(d.items) + d.pending == ToolResultsOf(ms) && d.pending == TailTools(ms)
  {
    if ms == [] {
    } else {
      DraftConserves(Init(ms), modelId, total);
      DraftStepConserves(DraftOf(Init(ms), modelId, total), Last(ms), modelId, total - |ms|);
    }
  }

  /** Before truncation and filtering, the tool results of the history followed by the pending
      ones are exactly the tool messages before the last message, each once and in order. */
  lemma ToolResultsAreConserved(ms: seq<ChatMessage>, modelId: string)
    requires ms != []
    ensures var d := DraftOf(Init(ms), modelId, |ms|);
      && HistoryResults(WithPlaceholder(d.items, modelId)) + d.pending == ToolResultsOf(Init(ms))
      && d.pending == TailTools(Init(ms))
  {
    DraftConserves(Init(ms), modelId, |ms|);
    PlaceholderHoldsNothing(DraftOf(Init(ms), modelId, |ms|).items, modelId);
  }

  // ------------------------------------------------------------------------------------
  // What survives truncation and filtering
  // ------------------------------------------------------------------------------------

  lemma {:induction false} KnownIsSelective(rs: seq<ToolResult>, ids: set<string>)
    ensures forall i | 0 <= i < |Known(rs, ids)| :: Known(rs, ids)[i].id in ids && Known(rs, ids)[i] in rs
    ensures forall r :: r in rs && r.id in ids ==> r in Known(rs, ids)
  {
    if rs == [] {
    } else {
      KnownIsSelective(Init(rs), ids);
    }
  }

  lemma {:induction false} KnownConcat(a: seq<ToolResult>, b: seq<ToolResult>, ids: set<string>)
    ensures Known(a + b, ids) == Known(a, ids) + Known(b, ids)
  {
    if b == [] {
      assert a + b == a;
    } else {
      KnownConcat(a, Init(b), ids);
      assert Init(a + b) == a + Init(b);
    }
  }

  lemma ItemKeepsShape(h: HistoryItem, ids: set<string>)
    ensures ContentOf(KnownInItem(h, ids)) == ContentOf(h)
    ensures KnownInItem(h, ids).AssistantItem? <==> h.AssistantItem?
    ensures ItemUses(KnownInItem(h, ids)) == ItemUses(h)
  {
  }

  lemma {:induction false} FilteredItem(hs: seq<HistoryItem>, ids: set<string>, i: nat)
    requires i < |hs|
    ensures |KnownInHistory(hs, ids)| == |hs| && KnownInHistory(hs, ids)[i] == KnownInItem(hs[i], ids)
  {
    if i < |hs| - 1 {
      FilteredItem(Init(hs), ids, i);
    } else if i > 0 {
      FilteredItem(Init(hs), ids, 0);
    }
  }

  lemma {:induction false} FilteringKeepsUses(hs: seq<HistoryItem>, ids: set<string>)
    ensures UseIds(KnownInHistory(hs, ids)) == UseIds(hs) && |KnownInHistory(hs, ids)| == |hs|
  {
    if hs == [] {
    } else {
      FilteringKeepsUses(Init(hs), ids);
      AppendItem(KnownInHistory(Init(hs), ids), KnownInItem(Last(hs), ids));
      ItemKeepsShape(Last(hs), ids);
    }
  }

  lemma FilteringKeepsShape(hs: seq<HistoryItem>, ids: set<string>)
    ensures UseIds(KnownInHistory(hs, ids)) == UseIds(hs)
    ensures |KnownInHistory(hs, ids)| == |hs|
    ensures forall i | 0 <= i < |hs| :: ContentOf(KnownInHistory(hs, ids)[i]) == ContentOf(hs[i])
    ensures forall i | 0 <= i < |hs| :: KnownInHistory(hs, ids)[i].AssistantItem? <==> hs[i].AssistantItem?
  {
    FilteringKeepsUses(hs, ids);
    forall i | 0 <= i < |hs| ensures KnownInHistory(hs, ids)[i] == KnownInItem(hs[i], ids) {
      FilteredItem(hs, ids, i);
    }
    forall i | 0 <= i < |hs|
      ensures ContentOf(KnownInItem(hs[i], ids)) == ContentOf(hs[i])
      ensures KnownInItem(hs[i], ids).AssistantItem? <==> hs[i].AssistantItem?
    {
      ItemKeepsShape(hs[i], ids);
    }
  }

  lemma {:induction false} FilteringKeepsKnown(hs: seq<HistoryItem>, ids: set<string>)
    ensures HistoryResults(KnownInHistory(hs, ids)) == Known(HistoryResults(hs), ids)
  {
    if hs == [] {
    } else {
      FilteringKeepsKnown(Init(hs), ids);
      KnownConcat(HistoryResults(Init(hs)), ItemResults(Last(hs)), ids);
      AppendItem(KnownInHistory(Init(hs), ids), KnownInItem(Last(hs), ids));
      assert ItemResults(KnownInItem(Last(hs), ids)) == Known(ItemResults(Last(hs)), ids);
    }
  }

  /** A tool result of the truncated history survives if and only if some assistant entry of the
      truncated history declares its tool use; the survivors keep their order. */
  lemma OrphansAreExactlyRemoved(hs: seq<HistoryItem>)
    ensures HistoryResults(FilterOrphans(hs)) == Known(HistoryResults(hs), UseIds(hs))
    ensures UseIds(FilterOrphans(hs)) == UseIds(hs)
    ensures forall r :: r in HistoryResults(FilterOrphans(hs)) ==> r.id in UseIds(FilterOrphans(hs))
    ensures forall r :: r in HistoryResults(hs) && r.id in UseIds(hs) ==> r in HistoryResults(FilterOrphans(hs))
  {
    FilteringKeepsShape(hs, UseIds(hs));
    FilteringKeepsKnown(hs, UseIds(hs));
    KnownIsSelective(HistoryResults(hs), UseIds(hs));
  }
}
