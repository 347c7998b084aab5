/** The Codex stream: decoded events in, chunks out. */
module CodexStream {
  import opened Common
  import opened Accumulator
  import opened StreamChunks

  datatype Typed = Typed(kind: string, text: string)

  datatype Item =
    | MessageItem(content: seq<Typed>)
    | ReasoningItem(summary: seq<Typed>)
    | FunctionItem(callId: string, name: string, args: string)
    | OtherItem

  /** `retryAfter` is the delay found in the message, as it is printed, if it is positive. */
  datatype ApiError = ApiError(code: string, message: string, retryAfter: Option<string>)

  datatype TokenUsage = TokenUsage(input: int, output: int, total: int, cached: Option<int>, reasoning: Option<int>)

  datatype Body =
    | Ignored
    | ItemDone(item: Item)
    | TextDelta(text: string)
    | ReasoningDelta(text: string)
    | Completed(id: string, usage: Option<TokenUsage>)
    | Failed(error: Option<ApiError>)
    | Incomplete(reason: string)

  /** `model` is the model named in the headers that come with the event. */
  datatype Event = Event(model: string, body: Body)

  // ------------------------------------------------------------------------------------
  // What a stream says
  // ------------------------------------------------------------------------------------

  function Joined(kind: string, parts: seq<Typed>): string {
    if parts == [] then "" else Joined(kind, Init(parts)) + if Last(parts).kind == kind then Last(parts).text else ""
  }

  function NonEmpty(text: string, p: Piece): Option<Piece> {
    if text != "" then Some(p) else None
  }

  function CallOf(item: Item, index: nat): ToolCall
    requires item.FunctionItem?
  {
    ToolCall(item.callId, "function", item.name, item.args, Some(index))
  }

  function ItemPiece(item: Item, index: nat): Option<Piece> {
    match item
    case MessageItem(content) => NonEmpty(Joined("output_text", content), Piece.Text(Joined("output_text", content)))
    case ReasoningItem(summary) =>
      NonEmpty(Joined("summary_text", summary), Piece.Reasoning(Joined("summary_text", summary)))
    case FunctionItem(_, _, _) => Some(Call(CallOf(item, index)))
    case OtherItem => None
  }

  function PieceOf(e: Event, index: nat): Option<Piece> {
    match e.body
    case ItemDone(item) => ItemPiece(item, index)
    case TextDelta(text) => NonEmpty(text, Piece.Text(text))
    case ReasoningDelta(text) => NonEmpty(text, Piece.Reasoning(text))
    case _ => None
  }

  predicate IsCall(e: Event) {
    e.body.ItemDone? && e.body.item.FunctionItem?
  }

  function CallCount(events: seq<Event>): nat {
    if events == [] then 0 else CallCount(Init(events)) + if IsCall(Last(events)) then 1 else 0
  }

  /** All that the events say, piece by piece. */
  function Made(events: seq<Event>): seq<Piece> {
    if events == [] then [] else Plus(Made(Init(events)), PieceOf(Last(events), CallCount(Init(events))))
  }

  const UsageGiven := (e: Event) => if e.body.Completed? then e.body.usage else None
  const CachedGiven := (e: Event) => if e.body.Completed? && e.body.usage.Some? then e.body.usage.value.cached else None
  const ReasoningGiven :=
    (e: Event) => if e.body.Completed? && e.body.usage.Some? then e.body.usage.value.reasoning else None
  const IdGiven := (e: Event) => if e.body.Completed? then Some(e.body.id) else None
  const ModelGiven := (e: Event) => if e.model != "" then Some(e.model) else None

  /** The variables that the event handler captures and updates. */
  datatype Captured = Captured(
    usage: Usage, reasoningTokens: int, hasToolCalls: bool, serverModel: string, responseID: string, toolCallIndex: nat)

  function Collected(events: seq<Event>): Usage {
    var u := LastGiven(UsageGiven, events).GetOr(TokenUsage(0, 0, 0, None, None));
    NO_USAGE.(prompt := u.input, completion := u.output, total := u.total,
              cached := LastGiven(CachedGiven, events).GetOr(0))
  }

  function CapturedFrom(events: seq<Event>): Captured {
    Captured(Collected(events), LastGiven(ReasoningGiven, events).GetOr(0), CallCount(events) > 0,
             LastGiven(ModelGiven, events).GetOr(""), LastGiven(IdGiven, events).GetOr(""), CallCount(events))
  }

  // ------------------------------------------------------------------------------------
  // Where a stream ends
  // ------------------------------------------------------------------------------------

  /** A failed or incomplete response ends the parse, and so does a Push that is turned away: the
      queue takes the first `room` chunks. */
  predicate Stopped(heard: seq<Event>, room: nat) {
    (heard != [] && (Last(heard).body.Failed? || Last(heard).body.Incomplete?)) || |Made(heard)| > room
  }

  function UpToStop(events: seq<Event>, room: nat): seq<Event> {
    if events == [] then []
    else
      var before := UpToStop(Init(events), room);
      if Stopped(before, room) then before else before + [Last(events)]
  }

  function FailureText(e: Option<ApiError>): string {
    if e.None? then "response.failed event received" else
    var code, message := e.value.code, e.value.message;
    if code == "context_length_exceeded" then "context window exceeded: " + message
    else if code == "insufficient_quota" then "quota exceeded: " + message
    else if code == "usage_not_included" then "usage not included: " + message
    else if code == "invalid_prompt" then "invalid prompt: " + Or(message, "Invalid request.")
    else if code == "server_is_overloaded" || code == "slow_down" then "server overloaded: " + message
    else if code == "rate_limit_exceeded" then
      (if e.value.retryAfter.Some? then "rate limit exceeded (retry after " + e.value.retryAfter.value + "): " + message
       else "rate limit exceeded: " + message)
    else "codex API error [" + code + "]: " + Or(message, "response.failed event received")
  }

  /** The error an event carries. */
  function EventError(e: Event): Option<string> {
    match e.body
    case Failed(error) => Some(FailureText(error))
    case Incomplete(reason) => Some("incomplete response returned, reason: " + reason)
    case _ => None
  }

  /** `refusal` is the error of a refused Push, `readError` that of reading the body. */
  function ErrorOf(heard: seq<Event>, room: nat, refusal: string, readError: Option<string>): Option<string> {
    if heard != [] && EventError(Last(heard)).Some? then EventError(Last(heard))
    else if |Made(heard)| > room then Some("SSE stream error: " + refusal)
    else if readError.Some? then Some("SSE stream error: " + readError.value)
    else None
  }

  // ------------------------------------------------------------------------------------
  // The final chunk
  // ------------------------------------------------------------------------------------

  function FinalUsage(heard: seq<Event>): Usage {
    var u, r := Collected(heard), LastGiven(ReasoningGiven, heard).GetOr(0);
    u.(total := if u.total == 0 then u.prompt + u.completion else u.total, reasoning := if r > 0 then r else 0)
  }

  function FinishReason(heard: seq<Event>): string {
    if CallCount(heard) > 0 then "tool_calls" else "stop"
  }

  function FinalId(inv: Invocation, heard: seq<Event>): string {
    Or(LastGiven(IdGiven, heard).GetOr(""), inv.id)
  }

  /** The final chunk bears the id of the upstream response if there is one. */
  function FinalOf(inv: Invocation, model: string, heard: seq<Event>, error: Option<string>): Chunk {
    FinalChunk(inv, Or(LastGiven(ModelGiven, heard).GetOr(""), model), FinalUsage(heard), error, FinishReason(heard))
      .(id := FinalId(inv, heard))
  }

  // ------------------------------------------------------------------------------------
  // The processor
  // ------------------------------------------------------------------------------------

  lemma CapturedNext(events: seq<Event>, e: Event)
    ensures CallCount(events + [e]) == CallCount(events) + if IsCall(e) then 1 else 0
    ensures Made(events + [e]) == Plus(Made(events), PieceOf(e, CallCount(events)))
    ensures LastGiven(ModelGiven, events + [e]) == (if e.model != "" then Some(e.model) else LastGiven(ModelGiven, events))
    ensures LastGiven(IdGiven, events + [e]) == (if e.body.Completed? then Some(e.body.id) else LastGiven(IdGiven, events))
  {
    assert Init(events + [e]) == events;
  }

  lemma UsageNext(events: seq<Event>, e: Event)
    ensures Collected(events + [e]) ==
      if e.body.Completed? && e.body.usage.Some? then
        var u := e.body.usage.value;
        Collected(events).(prompt := u.input, completion := u.output, total := u.total,
                           cached := u.cached.GetOr(Collected(events).cached))
      else Collected(events)
    ensures LastGiven(ReasoningGiven, events + [e]).GetOr(0) ==
      if e.body.Completed? && e.body.usage.Some? then
        e.body.usage.value.reasoning.GetOr(LastGiven(ReasoningGiven, events).GetOr(0))
      else LastGiven(ReasoningGiven, events).GetOr(0)
  {
    assert Init(events + [e]) == events;
  }

  method Concatenate(kind: string, parts: seq<Typed>) returns (text: string)
    ensures text == Joined(kind, parts)
  {
    text := "";
    for i := 0 to |parts|
      invariant text == Joined(kind, parts[..i])
    {
      assert Init(parts[..i + 1]) == parts[..i];
      if parts[i].kind == kind {
        text := text + parts[i].text;
      }
    }
    assert parts[..|parts|] == parts;
  }

  /** The chunk of a finished item; a function call takes the next index. */
  method ProcessOutputItemDone(inv: Invocation, model: string, item: Item, toolCallIndex: nat, hasToolCalls: bool)
    returns (chunk: Option<Chunk>, index: nat, has: bool)
    ensures chunk == ChunkOf(inv, model, ItemPiece(item, toolCallIndex))
    ensures index == toolCallIndex + if item.FunctionItem? then 1 else 0
    ensures has == (hasToolCalls || item.FunctionItem?)
  {
    chunk, index, has := None, toolCallIndex, hasToolCalls;
    match item
    case MessageItem(content) =>
      var text := Concatenate("output_text", content);
      if text != "" {
        chunk := Some(PieceChunk(inv, model, Piece.Text(text)));
      }
    case ReasoningItem(summary) =>
      var text := Concatenate("summary_text", summary);
      if text != "" {
        chunk := Some(PieceChunk(inv, model, Piece.Reasoning(text)));
      }
    case FunctionItem(callId, name, args) =>
      has := true;
      var idx := index;
      index := index + 1;
      chunk := Some(PieceChunk(inv, model, Call(ToolCall(callId, "function", name, args, Some(idx)))));
    case OtherItem =>
  }

  function ChunkOf(inv: Invocation, model: string, p: Option<Piece>): Option<Chunk> {
    if p.Some? then Some(PieceChunk(inv, model, p.value)) else None
  }

  method CollectUsage(usage: Usage, reasoningTokens: int, given: Option<TokenUsage>)
    returns (collected: Usage, reasoning: int)
    ensures collected == if given.None? then usage else
      usage.(prompt := given.value.input, completion := given.value.output, total := given.value.total,
             cached := given.value.cached.GetOr(usage.cached))
    ensures reasoning == if given.None? then reasoningTokens else given.value.reasoning.GetOr(reasoningTokens)
  {
    collected, reasoning := usage, reasoningTokens;
    if given.Some? {
      var u := given.value;
      collected := collected.(prompt := u.input, completion := u.output, total := u.total);
      if u.cached.Some? {
        collected := collected.(cached := u.cached.value);
      }
      if u.reasoning.Some? {
        reasoning := u.reasoning.value;
      }
    }
  }

  /** What one event does to the captured variables. */
  function CapturedAfter(c: Captured, e: Event): Captured {
    var named := if e.model != "" then c.(serverModel := e.model) else c;
    match e.body
    case ItemDone(FunctionItem(_, _, _)) => named.(hasToolCalls := true, toolCallIndex := c.toolCallIndex + 1)
    case Completed(id, None) => named.(responseID := id)
    case Completed(id, Some(u)) =>
      named.(responseID := id,
             usage := c.usage.(prompt := u.input, completion := u.output, total := u.total,
                               cached := u.cached.GetOr(c.usage.cached)),
             reasoningTokens := u.reasoning.GetOr(c.reasoningTokens))
    case _ => named
  }

  lemma CapturedSteps(before: seq<Event>, e: Event)
    ensures CapturedFrom(before + [e]) == CapturedAfter(CapturedFrom(before), e)
  {
    CapturedNext(before, e);
    UsageNext(before, e);
  }

  /** What one event does to the captured variables, the chunk it asks to push, and its error. */
  method OnEvent(inv: Invocation, model: string, captured: Captured, event: Event)
    returns (c: Captured, chunk: Option<Chunk>, error: Option<string>)
    ensures c == CapturedAfter(captured, event)
    ensures chunk == ChunkOf(inv, model, PieceOf(event, captured.toolCallIndex))
    ensures error == EventError(event)
  {
    c, chunk, error := captured, None, None;
    if event.model != "" && event.model != c.serverModel {
      c := c.(serverModel := event.model);
    }
    match event.body
    case Ignored =>
    case ItemDone(item) =>
      var index, has;
      chunk, index, has := ProcessOutputItemDone(inv, model, item, c.toolCallIndex, c.hasToolCalls);
      c := c.(toolCallIndex := index, hasToolCalls := has);
    case TextDelta(text) =>
      if text != "" {
        chunk := Some(PieceChunk(inv, model, Piece.Text(text)));
      }
    case ReasoningDelta(text) =>
      if text != "" {
        chunk := Some(PieceChunk(inv, model, Piece.Reasoning(text)));
      }
    case Completed(id, usage) =>
      var collected, reasoning := CollectUsage(c.usage, c.reasoningTokens, usage);
      c := c.(responseID := id, usage := collected, reasoningTokens := reasoning);
    case Failed(e) =>
      error := Some(FailureText(e));
    case Incomplete(reason) =>
      error := Some("incomplete response returned, reason: " + reason);
  }

  lemma {:induction false} StaysStopped(heard: seq<Event>, events: seq<Event>, room: nat)
    requires heard <= events && UpToStop(heard, room) == heard && Stopped(heard, room)
    ensures UpToStop(events, room) == heard
  {
    if |heard| == |events| {
      assert heard == events;
    } else {
      StaysStopped(heard, Init(events), room);
    }
  }

  lemma HeardNext(before: seq<Event>, e: Event, room: nat)
    requires UpToStop(before, room) == before && !Stopped(before, room)
    ensures UpToStop(before + [e], room) == before + [e]
  {
    assert Init(before + [e]) == before;
  }

  lemma MadeNext(before: seq<Event>, e: Event)
    ensures Made(before + [e]) == Plus(Made(before), PieceOf(e, CallCount(before)))
    ensures EventError(e).Some? ==> Made(before + [e]) == Made(before)
  {
    CapturedNext(before, e);
  }

  method FinalResponse(inv: Invocation, model: string, c: Captured, error: Option<string>, ghost heard: seq<Event>)
    returns (finalResp: Chunk)
    requires c == CapturedFrom(heard)
    ensures finalResp == FinalOf(inv, model, heard, error)
  {
    var finishReason := "stop";
    if c.hasToolCalls {
      finishReason := "tool_calls";
    }
    var usage := c.usage;
    if usage.total == 0 {
      usage := usage.(total := usage.prompt + usage.completion);
    }
    if c.reasoningTokens > 0 {
      usage := usage.(reasoning := c.reasoningTokens);
    }
    var finalModel := model;
    if c.serverModel != "" {
      finalModel := c.serverModel;
    }
    finalResp := FinalChunk(inv, finalModel, usage, error, finishReason);
    if c.responseID != "" {
      finalResp := finalResp.(id := c.responseID);
    }
  }

  /** What the queue takes before the final chunk. */
  function Taken(heard: seq<Event>, room: nat): seq<Piece> {
    if |Made(heard)| > room then Made(heard)[..room] else Made(heard)
  }

  function Sent(inv: Invocation, model: string, heard: seq<Event>, room: nat): seq<Chunk> {
    Chunks(inv, model, Taken(heard, room))
  }

  lemma {:induction false} ChunkCount(inv: Invocation, model: string, ps: seq<Piece>)
    ensures |Chunks(inv, model, ps)| == |ps|
  {
    if ps == [] {
    } else {
      ChunkCount(inv, model, Init(ps));
    }
  }

  lemma SentNext(inv: Invocation, model: string, before: seq<Event>, e: Event, room: nat)
    requires |Made(before)| <= room
    ensures var chunk, sent := ChunkOf(inv, model, PieceOf(e, CallCount(before))), Sent(inv, model, before, room);
      && Sent(inv, model, before + [e], room) == (if |sent| < room then Plus(sent, chunk) else sent)
      && (|Made(before + [e])| > room <==> chunk.Some? && |sent| >= room)
  {
    var piece := PieceOf(e, CallCount(before));
    MadeNext(before, e);
    ChunkCount(inv, model, Made(before));
    if piece.Some? {
      ChunksNext(inv, model, Made(before), piece.value);
      assert (Made(before) + [piece.value])[..|Made(before)|] == Made(before);
    }
  }

  /** One event, up to the Push of its chunk. */
  method HandleEvent(inv: Invocation, model: string, captured: Captured, before: seq<Chunk>, event: Event, room: nat,
                     ghost heard: seq<Event>)
    returns (c: Captured, sent: seq<Chunk>, error: Option<string>, refused: bool)
    requires captured == CapturedFrom(heard) && before == Sent(inv, model, heard, room) && |Made(heard)| <= room
    ensures c == CapturedFrom(heard + [event]) && sent == Sent(inv, model, heard + [event], room)
    ensures error == EventError(event) && refused == (|Made(heard + [event])| > room)
    ensures error.Some? ==> !refused
  {
    CapturedSteps(heard, event);
    SentNext(inv, model, heard, event, room);
    MadeNext(heard, event);
    var chunk;
    c, chunk, error := OnEvent(inv, model, captured, event);
    refused := chunk.Some? && |before| >= room;
    sent := if chunk.Some? && !refused then before + [chunk.value] else before;
  }

  /** The event loop: how far it comes, and with which error. */
  method HandleEvents(inv: Invocation, model: string, events: seq<Event>, room: nat, refusal: string)
    returns (captured: Captured, sent: seq<Chunk>, firstErr: Option<string>, pushErr: Option<string>,
             ghost heard: seq<Event>)
    ensures heard == UpToStop(events, room) && captured == CapturedFrom(heard)
    ensures sent == Sent(inv, model, heard, room)
    ensures firstErr == if heard != [] then EventError(Last(heard)) else None
    ensures firstErr.None? ==> pushErr == if |Made(heard)| > room then Some(refusal) else None
  {
    captured, sent, firstErr, pushErr, heard := Captured(NO_USAGE, 0, false, "", "", 0), [], None, None, [];
    for i := 0 to |events|
      invariant heard == events[..i] && UpToStop(heard, room) == heard && !Stopped(heard, room)
      invariant captured == CapturedFrom(heard)
      invariant firstErr.None? && pushErr.None?
      invariant sent == Sent(inv, model, heard, room)
      invariant heard != [] ==> EventError(Last(heard)).None?
    {
      var refused;
      HeardNext(heard, events[i], room);
      TakeNext(events, i);
      captured, sent, firstErr, refused := HandleEvent(inv, model, captured, sent, events[i], room, heard);
      heard := heard + [events[i]];
      if firstErr.Some? || refused {
        StaysStopped(heard, events, room);
        pushErr := if refused then Some(refusal) else None;
        return;
      }
    }
    assert heard == events;
  }

  /** Returns the chunks the queue took, and the final chunk, which is pushed last in any case. */
  method Process(inv: Invocation, model: string, events: seq<Event>, room: nat, refusal: string, readError: Option<string>)
    returns (sent: seq<Chunk>, finalResp: Chunk)
    ensures var heard := UpToStop(events, room);
      && sent == Sent(inv, model, heard, room)
      && finalResp == FinalOf(inv, model, heard, ErrorOf(heard, room, refusal, readError))
  {
    var captured, firstErr, pushErr;
    ghost var heard;
    captured, sent, firstErr, pushErr, heard := HandleEvents(inv, model, events, room, refusal);
    var err := if pushErr.Some? then pushErr else readError;
    if err.Some? && firstErr.None? {
      firstErr := Some("SSE stream error: " + err.value);
    }
    finalResp := FinalResponse(inv, model, captured, firstErr, heard);
  }
}
