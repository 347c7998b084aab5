/** Last stages of the Kiro request pipeline: the current message, the assembly of the request, and
    the pipeline as a whole. */
module KiroRequest {
  import opened Common
  import opened KiroTypes
  import opened KiroHistory
  import opened KiroPreprocess
  import opened Text
  import KiroTools

  // ------------------------------------------------------------------------------------
  // The current message
  // ------------------------------------------------------------------------------------

  /** The results of the unbroken run of tool messages at the end. */
  function TrailingRun(ms: seq<ChatMessage>): seq<ToolResult> {
    if ms == [] || !Last(ms).role.Tool? then [] else TrailingRun(Init(ms)) + [ResultOf(Last(ms))]
  }

  datatype Current = Current(
    history: seq<HistoryItem>, content: string, images: seq<KiroImage>, toolResults: seq<ToolResult>)

  /** History with an assistant entry at its end, if there is any history. */
  function Answered(history: seq<HistoryItem>): seq<HistoryItem> {
    if history != [] && Last(history).UserItem? then history + [AssistantItem(AssistantMessage(CONTINUE, []))]
    else history
  }

  function CurrentOf(ms: seq<ChatMessage>, history: seq<HistoryItem>, pending: seq<ToolResult>): Current
    requires ms != []
  {
    var last := Last(ms);
    if last.role.Assistant? then
      Current(history + [AssistantItem(HistoryAssistant(last))], CONTINUE, [], [])
    else
      var results := pending + TrailingRun(ms);
      var text := if last.role.Tool? then "" else KiroHistory.PlainText(last);
      Current(Answered(history),
              if text != "" then text else if results != [] then TOOL_RESULTS_PROVIDED else CONTINUE,
              if last.role.Tool? then [] else ImagesOf(last.parts),
              results)
  }

  // ------------------------------------------------------------------------------------
  // Assembly
  // ------------------------------------------------------------------------------------

  function Ids(rs: seq<ToolResult>): set<string> {
    set r | r in rs :: r.id
  }

  /** Keeps the first result of each id. */
  function Dedup(rs: seq<ToolResult>): seq<ToolResult> {
    if rs == [] then []
    else Dedup(Init(rs)) + if Last(rs).id in Ids(Init(rs)) then [] else [Last(rs)]
  }

  /** Drops results whose tool use the history does not declare, unless it declares none at all. */
  function Admitted(rs: seq<ToolResult>, history: seq<HistoryItem>): seq<ToolResult> {
    if UseIds(history) == {} then rs else Known(rs, UseIds(history))
  }

  const PROMPT_HEAD := "--- SYSTEM PROMPT ---\n"
  const PROMPT_FOOT := "\n--- END SYSTEM PROMPT ---\n\n"

  function FinalContent(content: string, systemPrompt: string, results: seq<ToolResult>): string {
    var full := (if systemPrompt != "" then
                   PROMPT_HEAD + systemPrompt + PROMPT_FOOT
                 else "") + content;
    OrIfBlank(full, if results != [] then TOOL_RESULTS_PROVIDED else CONTINUE)
  }

  function Assembled(c: Current, modelId: string, systemPrompt: string, tools: seq<ToolSpec>): Request {
    var results := Dedup(Admitted(c.toolResults, c.history));
    Request(UserInput(FinalContent(c.content, systemPrompt, c.toolResults), modelId, ORIGIN, c.images,
                      if results == [] && tools == [] then None else Some(InputContext(results, tools))),
            c.history)
  }

  method DeduplicateToolResults(toolResults: seq<ToolResult>) returns (unique: seq<ToolResult>)
    ensures unique == Dedup(toolResults)
  {
    var seen: set<string> := {};
    unique := [];
    assert toolResults[..|toolResults|] == toolResults;
    for i := 0 to |toolResults|
      invariant seen == Ids(toolResults[..i]) && unique == Dedup(toolResults[..i])
    {
      assert Init(toolResults[..i + 1]) == toolResults[..i];
      assert toolResults[..i + 1] == toolResults[..i] + [toolResults[i]];
      if toolResults[i].id !in seen {
        seen := seen + {toolResults[i].id};
        unique := unique + [toolResults[i]];
      }
    }
  }

  // ------------------------------------------------------------------------------------
  // The pipeline
  // ------------------------------------------------------------------------------------

  function NonSystem(ms: seq<ChatMessage>): seq<ChatMessage> {
    if ms == [] then [] else NonSystem(Init(ms)) + if Last(ms).role.System? then [] else [Last(ms)]
  }

  function SystemText(ms: seq<ChatMessage>): string {
    if ms == [] then ""
    else
      var before, m := SystemText(Init(ms)), Last(ms);
      if !m.role.System? || m.content == "" then before
      else if before == "" then m.content else before + "\n\n" + m.content
  }

  /** The prompt hints of the request, as texts; "" is no hint. */
  datatype Hints = Hints(thinking: string, toolChoice: string, responseFormat: string)

  function WithHint(text: string, hint: string): string {
    if hint == "" then text else if text == "" then hint else text + "\n" + hint
  }

  /** The thinking hint goes in front of the system text, the others behind it. */
  function Decorated(h: Hints, text: string): string {
    var thinking :=
      if h.thinking == "" then text else if text == "" then h.thinking else h.thinking + "\n\n" + text;
    WithHint(WithHint(thinking, h.toolChoice), h.responseFormat)
  }

  datatype Conversion = Failed | FilteredOut | Built(request: Request)

  function CurrentFor(ms: seq<ChatMessage>, modelId: string): Current
    requires ms != []
  {
    CurrentOf(ms, FilterOrphans(Unfiltered(ms, modelId)), DraftOf(Init(ms), modelId, |ms|).pending)
  }

  /** The request for a non-empty conversation without system messages. */
  function RequestFor(ms: seq<ChatMessage>, modelId: string, systemPrompt: string, tools: seq<ToolSpec>): Request
    requires ms != []
  {
    Assembled(CurrentFor(ms, modelId), modelId, systemPrompt, tools)
  }

  function Convert(ms: seq<ChatMessage>, modelId: string, hints: Hints, tools: seq<RequestTool>): Conversion {
    if ms == [] then Failed
    else
      var merged := MergeAll(DropBrace(ms));
      var rest := NonSystem(merged);
      if merged == [] || rest == [] then FilteredOut
      else Built(RequestFor(rest, modelId, Decorated(hints, SystemText(merged)), KiroTools.KiroToolsOf(tools)))
  }

  /** The state the stages share; each stage reads what earlier ones wrote. */
  class BuildContext {
    const modelId: string
    var messages: seq<ChatMessage>
    var systemPrompt: string
    var tools: seq<RequestTool>
    var kiroTools: seq<ToolSpec>
    var history: seq<HistoryItem>
    var pendingToolResults: seq<ToolResult>
    var currentContent: string
    var currentImages: seq<KiroImage>
    var currentToolResults: seq<ToolResult>
    var done: bool

    constructor (modelId: string, messages: seq<ChatMessage>, tools: seq<RequestTool>)
      ensures this.modelId == modelId && this.messages == messages && this.tools == tools
      ensures history == [] && pendingToolResults == [] && !done
    {
      this.modelId, this.messages, this.tools, this.kiroTools := modelId, messages, tools, [];
      systemPrompt, currentContent := "", "";
      history, pendingToolResults, currentImages, currentToolResults, done := [], [], [], [], false;
    }

    method Preprocess()
      modifies this`messages, this`done
      ensures messages == MergeAll(DropBrace(old(messages)))
      ensures done == (old(done) || messages == [])
    {
      messages := PreprocessMessages(messages);
      if |messages| == 0 {
        done := true;
      }
    }

    method ExtractSystemPrompt(hints: Hints)
      modifies this`messages, this`systemPrompt, this`done
      ensures messages == NonSystem(old(messages)) && systemPrompt == Decorated(hints, SystemText(old(messages)))
      ensures done == (old(done) || messages == [])
    {
      var text, rest := "", [];
      assert messages[..|messages|] == messages;
      for i := 0 to |messages|
        invariant messages == old(messages) && done == old(done)
        invariant rest == NonSystem(messages[..i]) && text == SystemText(messages[..i])
      {
        assert Init(messages[..i + 1]) == messages[..i];
        var msg := messages[i];
        if msg.role.System? {
          if msg.content != "" {
            if |text| > 0 {
              text := text + "\n\n";
            }
            text := text + msg.content;
          }
        } else {
          rest := rest + [msg];
        }
      }
      systemPrompt := Decorated(hints, text);
      messages := rest;
      if |messages| == 0 {
        done := true;
      }
    }

    /** The first two stages; either may find that nothing is left to send. */
    method Prepare(hints: Hints)
      requires !done
      modifies this`messages, this`systemPrompt, this`done
      ensures messages == NonSystem(MergeAll(DropBrace(old(messages)))) && done == (messages == [])
      ensures !done ==> systemPrompt == Decorated(hints, SystemText(MergeAll(DropBrace(old(messages)))))
    {
      Preprocess();
      if !done {
        ExtractSystemPrompt(hints);
      }
    }

    method BuildToolsStage()
      modifies this`kiroTools
      ensures kiroTools == KiroTools.KiroToolsOf(tools)
    {
      kiroTools := KiroTools.BuildKiroTools(tools);
    }

    method BuildHistoryStage()
      requires messages != [] && pendingToolResults == []
      modifies this`history, this`pendingToolResults
      ensures history == FilterOrphans(Unfiltered(messages, modelId))
      ensures pendingToolResults == DraftOf(Init(messages), modelId, |messages|).pending
    {
      var pending;
      history, pending := BuildHistory(messages, modelId);
      if |pending| > 0 {
        pendingToolResults := pending;
      }
    }

    /** Scans backwards for the run of tool messages at the end. */
    method CollectTrailingRun() returns (results: seq<ToolResult>)
      requires messages != [] && Last(messages).role.Tool?
      ensures results == TrailingRun(messages)
    {
      var toolStartIdx := |messages| - 1;
      while toolStartIdx > 0 && messages[toolStartIdx - 1].role.Tool?
        invariant 0 <= toolStartIdx < |messages|
        invariant forall j | toolStartIdx <= j < |messages| :: messages[j].role.Tool?
      {
        toolStartIdx := toolStartIdx - 1;
      }
      results := [];
      assert messages[..|messages|] == messages;
      for i := toolStartIdx to |messages|
        invariant results == TrailingRun(messages[..i])
      {
        assert Init(messages[..i + 1]) == messages[..i];
        results := results + [ResultOf(messages[i])];
      }
    }

    method EndHistoryWithAssistant()
      modifies this`history
      ensures history == Answered(old(history))
    {
      if |history| > 0 && !history[|history| - 1].AssistantItem? {
        history := history + [AssistantItem(AssistantMessage(CONTINUE, []))];
      }
    }

    /** The run of tool messages at the end, behind the results no message has carried yet. */
    method CollectToolResults() returns (results: seq<ToolResult>)
      requires messages != []
      modifies this`pendingToolResults
      ensures results == old(pendingToolResults) + TrailingRun(messages)
    {
      results := [];
      if messages[|messages| - 1].role.Tool? {
        results := CollectTrailingRun();
      }
      if |pendingToolResults| > 0 {
        results := pendingToolResults + results;
        pendingToolResults := [];
      }
    }

    method BuildCurrentStage()
      requires messages != []
      modifies this`history, this`pendingToolResults, this`currentContent, this`currentImages, this`currentToolResults
      ensures Current(history, currentContent, currentImages, currentToolResults)
          == CurrentOf(messages, old(history), old(pendingToolResults))
    {
      var lastMsg := messages[|messages| - 1];
      var text, images, results := "", [], [];
      if lastMsg.role.Assistant? {
        var assistantMsg := BuildAssistantMessage(lastMsg);
        history := history + [AssistantItem(assistantMsg)];
        text := CONTINUE;
      } else {
        EndHistoryWithAssistant();
        results := CollectToolResults();
        if !lastMsg.role.Tool? {
          text, images := ReadMessage(lastMsg);
        }
        if |text| == 0 {
          text := if |results| > 0 then TOOL_RESULTS_PROVIDED else CONTINUE;
        }
      }
      currentContent, currentImages, currentToolResults := text, images, results;
    }

    /** Assembles the request out of what the stages have left, `c` and the tools. */
    method Assemble(ghost c: Current) returns (request: Request)
      requires c == Current(history, currentContent, currentImages, currentToolResults)
      ensures request == Assembled(c, modelId, systemPrompt, kiroTools)
    {
      var content := BuildFinalContent(currentContent, systemPrompt, currentToolResults);
      var results: seq<ToolResult> := [];
      var hasContext := false;
      if |currentToolResults| > 0 {
        var admitted := currentToolResults;
        var valid := CollectUseIds(history);
        if valid != {} {
          admitted := KeepKnown(currentToolResults, valid);
        }
        results := DeduplicateToolResults(admitted);
        hasContext := |results| > 0;
      }
      if |kiroTools| > 0 {
        hasContext := true;
      }
      request := Request(
        UserInput(content, modelId, ORIGIN, currentImages,
                  if hasContext then Some(InputContext(results, kiroTools)) else None),
        history);
    }

    /** The history and the current message. */
    method BuildMessages(ghost c: Current)
      requires messages != [] && pendingToolResults == [] && c == CurrentFor(messages, modelId)
      modifies this`history, this`pendingToolResults, this`currentContent, this`currentImages, this`currentToolResults
      ensures Current(history, currentContent, currentImages, currentToolResults) == c
    {
      BuildHistoryStage();
      BuildCurrentStage();
    }

    method BuildRequest() returns (request: Request)
      requires messages != [] && pendingToolResults == []
      modifies this
      ensures request == RequestFor(old(messages), modelId, old(systemPrompt), KiroTools.KiroToolsOf(old(tools)))
    {
      ghost var c := CurrentFor(messages, modelId);
      BuildToolsStage();
      BuildMessages(c);
      request := Assemble(c);
    }

    /** The stages after the first two, for messages that those have left something of. */
    method Finish(ghost ms: seq<ChatMessage>, ghost hints: Hints) returns (r: Conversion)
      requires ms != [] && messages != [] && messages == NonSystem(MergeAll(DropBrace(ms)))
      requires systemPrompt == Decorated(hints, SystemText(MergeAll(DropBrace(ms)))) && pendingToolResults == []
      modifies this
      ensures r == Convert(ms, modelId, hints, old(tools))
    {
      ghost var rest, prompt, given := messages, systemPrompt, tools;
      var request := BuildRequest();
      ConvertBuilt(ms, modelId, hints, given, rest, prompt, request);
      r := Built(request);
    }

    /** All stages in order; an empty list of messages ends them early. */
    method Run(hints: Hints) returns (r: Conversion)
      requires messages != [] && pendingToolResults == [] && !done
      modifies this
      ensures r == Convert(old(messages), modelId, hints, old(tools))
    {
      ghost var ms := messages;
      Prepare(hints);
      if done {
        ConvertFiltered(ms, modelId, hints, tools);
        r := FilteredOut;
      } else {
        r := Finish(ms, hints);
      }
    }
  }

  method ReadParts(parts: seq<ContentPart>) returns (text: string, images: seq<KiroImage>)
    ensures text == TextOf(parts) && images == ImagesOf(parts)
  {
    text, images := "", [];
    assert parts[..|parts|] == parts;
    for i := 0 to |parts|
      invariant text == TextOf(parts[..i]) && images == ImagesOf(parts[..i])
    {
      assert Init(parts[..i + 1]) == parts[..i];
      match parts[i]
      case TextPart(t) => text := text + t.GetOr("");
      case ImagePart(image) =>
        if image.Some? {
          var img := ConvertImage(image.value);
          if img.Some? {
            images := images + [img.value];
          }
        }
      case OtherPart =>
    }
  }

  method ReadMessage(msg: ChatMessage) returns (text: string, images: seq<KiroImage>)
    ensures text == KiroHistory.PlainText(msg) && images == ImagesOf(msg.parts)
  {
    text, images := "", [];
    if |msg.parts| > 0 {
      text, images := ReadParts(msg.parts);
    } else {
      text := msg.content;
    }
  }

  method BuildFinalContent(content: string, systemPrompt: string, toolResults: seq<ToolResult>)
    returns (full: string)
    ensures full == FinalContent(content, systemPrompt, toolResults)
  {
    full := "";
    if systemPrompt != "" {
      full := PROMPT_HEAD + systemPrompt + PROMPT_FOOT;
    }
    full := full + content;
    if Trim(full) == "" {
      full := if |toolResults| > 0 then TOOL_RESULTS_PROVIDED else CONTINUE;
    }
  }

  lemma ConvertBuilt(ms: seq<ChatMessage>, modelId: string, hints: Hints, tools: seq<RequestTool>,
                     rest: seq<ChatMessage>, prompt: string, r: Request)
    requires ms != [] && rest == NonSystem(MergeAll(DropBrace(ms))) && rest != []
    requires prompt == Decorated(hints, SystemText(MergeAll(DropBrace(ms))))
    requires r == RequestFor(rest, modelId, prompt, KiroTools.KiroToolsOf(tools))
    ensures Convert(ms, modelId, hints, tools) == Built(r)
  {
  }

  lemma ConvertFiltered(ms: seq<ChatMessage>, modelId: string, hints: Hints, tools: seq<RequestTool>)
    requires ms != [] && NonSystem(MergeAll(DropBrace(ms))) == []
    ensures Convert(ms, modelId, hints, tools) == FilteredOut
  {
  }

  method ConvertRequest(messages: seq<ChatMessage>, modelId: string, hints: Hints, tools: seq<RequestTool>)
    returns (r: Conversion)
    ensures r == Convert(messages, modelId, hints, tools)
  {
    if |messages| == 0 {
      return Failed;
    }
    var ctx := new BuildContext(modelId, messages, tools);
    r := ctx.Run(hints);
  }

  // ------------------------------------------------------------------------------------
  // The assembled request is consistent
  // ------------------------------------------------------------------------------------

  lemma FallbackIsNotBlank(s: string, fallback: string)
    requires !Blank(fallback)
    ensures !Blank(OrIfBlank(s, fallback))
  {
    TrimEmptiesBlank(s);
  }

  lemma FixedTextsAreNotBlank()
    ensures !Blank(TOOL_RESULTS_PROVIDED) && !Blank(CONTINUE) && !Blank(".")
  {
    assert !IsSpace(TOOL_RESULTS_PROVIDED[0]) && !IsSpace(CONTINUE[0]) && !IsSpace("."[0]);
  }

  ghost predicate NoneBlank(hs: seq<HistoryItem>) {
    forall i | 0 <= i < |hs| :: !Blank(ContentOf(hs[i]))
  }

  lemma MessagesAreNotBlank(m: ChatMessage, modelId: string, keep: bool, pending: seq<ToolResult>)
    ensures !Blank(Carry(HistoryUser(m, modelId, keep), pending).content)
    ensures !Blank(HistoryAssistant(m).content)
  {
    FixedTextsAreNotBlank();
    forall s: string ensures !Blank(OrIfBlank(s, CONTINUE)) && !Blank(OrIfBlank(s, ".")) {
      FallbackIsNotBlank(s, CONTINUE);
      FallbackIsNotBlank(s, ".");
    }
  }

  lemma {:induction false} DraftIsNotBlank(ms: seq<ChatMessage>, modelId: string, total: nat)
    requires |ms| < total
    ensures NoneBlank(DraftOf(ms, modelId, total).items)
  {
    if ms == [] {
    } else {
      DraftIsNotBlank(Init(ms), modelId, total);
      DraftStepIsNotBlank(DraftOf(Init(ms), modelId, total), Last(ms), modelId, total - |ms|);
    }
  }

  lemma DraftStepIsNotBlank(d: Draft, m: ChatMessage, modelId: string, distance: nat)
    requires NoneBlank(d.items)
    ensures NoneBlank(DraftStep(d, m, modelId, distance).items)
  {
    FixedTextsAreNotBlank();
    MessagesAreNotBlank(m, modelId, distance <= KEEP_IMAGE_THRESHOLD, d.pending);
  }

  ghost predicate DistinctIds(rs: seq<ToolResult>) {
    forall i, j | 0 <= i < j < |rs| :: rs[i].id != rs[j].id
  }

  lemma IdsAppend(rs: seq<ToolResult>, r: ToolResult)
    ensures Ids(rs + [r]) == Ids(rs) + {r.id}
  {
  }

  lemma DedupAppend(rs: seq<ToolResult>, r: ToolResult)
    ensures Dedup(rs + [r]) == if r.id in Ids(rs) then Dedup(rs) else Dedup(rs) + [r]
  {
    assert Init(rs + [r]) == rs;
  }

  lemma {:induction false} DedupIsDistinct(rs: seq<ToolResult>)
    ensures DistinctIds(Dedup(rs))
    ensures Ids(Dedup(rs)) == Ids(rs)
    ensures forall r :: r in Dedup(rs) ==> r in rs
  {
    if rs == [] {
    } else {
      DedupIsDistinct(Init(rs));
      IdsAppend(Init(rs), Last(rs));
      InitAndLast(rs);
      IdsAppend(Dedup(Init(rs)), Last(rs));
      if Last(rs).id !in Ids(Init(rs)) {
        DistinctAppend(Dedup(Init(rs)), Last(rs));
      }
    }
  }

  lemma DistinctAppend(rs: seq<ToolResult>, r: ToolResult)
    requires DistinctIds(rs) && r.id !in Ids(rs)
    ensures DistinctIds(rs + [r])
  {
    forall i | 0 <= i < |rs| ensures rs[i].id != r.id {
      assert rs[i].id in Ids(rs);
    }
  }

  /** The history answers for itself: each of its results belongs to a tool use that it still
      declares; it is bounded, ends with the assistant, and has no blank content. */
  ghost predicate HistoryIsSound(history: seq<HistoryItem>) {
    && (forall t :: t in HistoryResults(history) ==> t.id in UseIds(history))
    && |history| <= MAX_HISTORY + 1
    && (history != [] ==> Last(history).AssistantItem?)
    && NoneBlank(history)
  }

  /** Everything the service demands of a request: a sound history, and current results that answer
      distinct tool uses, declared ones whenever any are declared; no blank content. */
  ghost predicate Consistent(r: Request) {
    var current := ContextResults(r.current.context);
    && HistoryIsSound(r.history)
    && DistinctIds(current)
    && (UseIds(r.history) != {} ==> Ids(current) <= UseIds(r.history))
    && !Blank(r.current.content)
  }

  lemma HistoryStageIsSound(ms: seq<ChatMessage>, modelId: string)
    requires ms != []
    ensures var h := FilterOrphans(Unfiltered(ms, modelId));
      && (forall t :: t in HistoryResults(h) ==> t.id in UseIds(h))
      && |h| <= MAX_HISTORY && NoneBlank(h)
  {
    var raw := Unfiltered(ms, modelId);
    UnfilteredIsBounded(ms, modelId);
    OrphansAreExactlyRemoved(raw);
    FilteringKeepsShape(raw, UseIds(raw));
  }

  lemma UnfilteredIsBounded(ms: seq<ChatMessage>, modelId: string)
    requires ms != []
    ensures |Unfiltered(ms, modelId)| <= MAX_HISTORY && NoneBlank(Unfiltered(ms, modelId))
  {
    FixedTextsAreNotBlank();
    DraftIsNotBlank(Init(ms), modelId, |ms|);
    var items := DraftOf(Init(ms), modelId, |ms|).items;
    assert NoneBlank(WithPlaceholder(items, modelId));
  }

  lemma AppendAssistant(history: seq<HistoryItem>, m: AssistantMessage)
    requires forall t :: t in HistoryResults(history) ==> t.id in UseIds(history)
    ensures var h := history + [AssistantItem(m)];
      forall t :: t in HistoryResults(h) ==> t.id in UseIds(h)
  {
    assert Init(history + [AssistantItem(m)]) == history;
  }

  lemma AdmittedAreDeclared(rs: seq<ToolResult>, history: seq<HistoryItem>)
    ensures UseIds(history) != {} ==> Ids(Dedup(Admitted(rs, history))) <= UseIds(history)
  {
    DedupIsDistinct(Admitted(rs, history));
    KnownIsSelective(rs, UseIds(history));
  }

  lemma AssistantIsNotBlank(m: ChatMessage)
    ensures !Blank(HistoryAssistant(m).content) && !Blank(CONTINUE)
  {
    FixedTextsAreNotBlank();
    MessagesAreNotBlank(m, "", false, []);
  }

  lemma CurrentHistoryIsSound(ms: seq<ChatMessage>, modelId: string, pending: seq<ToolResult>)
    requires ms != []
    ensures HistoryIsSound(CurrentOf(ms, FilterOrphans(Unfiltered(ms, modelId)), pending).history)
  {
    var history := FilterOrphans(Unfiltered(ms, modelId));
    HistoryStageIsSound(ms, modelId);
    AssistantIsNotBlank(Last(ms));
    AppendAssistant(history, HistoryAssistant(Last(ms)));
    AppendAssistant(history, AssistantMessage(CONTINUE, []));
  }

  lemma FinalContentIsNotBlank(content: string, prompt: string, results: seq<ToolResult>)
    ensures !Blank(FinalContent(content, prompt, results))
  {
    FixedTextsAreNotBlank();
    var full := (if prompt != "" then
                   PROMPT_HEAD + prompt + PROMPT_FOOT
                 else "") + content;
    FallbackIsNotBlank(full, TOOL_RESULTS_PROVIDED);
    FallbackIsNotBlank(full, CONTINUE);
  }

  lemma AssembledIsConsistent(c: Current, modelId: string, prompt: string, tools: seq<ToolSpec>)
    requires HistoryIsSound(c.history)
    ensures Consistent(Assembled(c, modelId, prompt, tools))
  {
    FinalContentIsNotBlank(c.content, prompt, c.toolResults);
    DedupIsDistinct(Admitted(c.toolResults, c.history));
    AdmittedAreDeclared(c.toolResults, c.history);
  }

  lemma RequestIsConsistent(ms: seq<ChatMessage>, modelId: string, prompt: string, tools: seq<ToolSpec>)
    requires ms != []
    ensures Consistent(RequestFor(ms, modelId, prompt, tools))
  {
    CurrentHistoryIsSound(ms, modelId, DraftOf(Init(ms), modelId, |ms|).pending);
    AssembledIsConsistent(CurrentFor(ms, modelId), modelId, prompt, tools);
  }

  /** Whatever the caller sends, a request that is built at all is consistent, and has tools that
      meet the limits of the service. */
  lemma EveryBuiltRequestIsConsistent(ms: seq<ChatMessage>, modelId: string, hints: Hints, tools: seq<RequestTool>)
    requires Convert(ms, modelId, hints, tools).Built?
    ensures var r := Convert(ms, modelId, hints, tools).request;
      && Consistent(r)
      && r.current.context.Some? && r.current.context.value.tools != []
      && forall t | t in r.current.context.value.tools :: KiroTools.Acceptable(t)
  {
    var merged := MergeAll(DropBrace(ms));
    KiroTools.EveryToolIsAcceptable(tools);
    RequestIsConsistent(NonSystem(merged), modelId, Decorated(hints, SystemText(merged)), KiroTools.KiroToolsOf(tools));
  }
}
