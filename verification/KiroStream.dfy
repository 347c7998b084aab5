/** The event loop of the Kiro provider: decoded events in, chunks out. */
module KiroStream {
  import opened Common
  import opened Accumulator
  import opened StreamChunks
  import opened ToolCallIndex
  import KiroMetadata

  datatype Event =
    | Silent                                                     // unreadable, or nothing to say
    | InlineError(error: ResponseError, objectType: string, sendable: bool)
    | Metering(credit: real)
    | Metadata(payload: KiroMetadata.Payload)
    | AssistantText(text: string, stopReason: string)
    | ReasoningText(text: string)
    | ToolUse(fragment: Fragment, partial: bool)
    | MessageStop(stopReason: string)
    | CompletionChunk(text: string, finishReason: string)
    | Completion(text: string, finishReason: string, calls: seq<ToolCall>)

  function MapStopReason(stopReason: string): string {
    if stopReason == "end_turn" || stopReason == "stop_sequence" then "stop"
    else if stopReason == "tool_use" then "tool_calls"
    else if stopReason == "max_tokens" then "length"
    else if stopReason == "content_filtered" then "content_filter"
    else stopReason
  }

  function NonEmpty(s: string): Option<string> {
    if s != "" then Some(s) else None
  }

  /** The finish reason an event gives, or "". */
  function ReasonIn(e: Event): string {
    match e
    case AssistantText(_, stopReason) => MapStopReason(stopReason)
    case MessageStop(stopReason) => MapStopReason(stopReason)
    case CompletionChunk(_, finishReason) => finishReason
    case Completion(_, finishReason, _) => finishReason
    case _ => ""
  }

  /** The increment an event brings; `index` is the one its tool-use id is given. */
  function DeltaIn(e: Event, index: nat): Message {
    match e
    case AssistantText(text, _) => Message(ASSISTANT, text, "", [])
    case ReasoningText(text) => Message(ASSISTANT, "", text, [])
    case ToolUse(f, _) => Message(ASSISTANT, "", "", [FragmentCall(f, index)])
    case CompletionChunk(text, _) => Message(ASSISTANT, text, "", [])
    case Completion(text, _, calls) => Message(ASSISTANT, text, "", calls)
    case _ => NO_MESSAGE
  }

  function FragmentCall(f: Fragment, index: nat): ToolCall {
    ToolCall(f.id, "function", f.name, f.args, Some(index))
  }

  function ChoiceIn(e: Event, index: nat): Choice {
    Choice(0, NO_MESSAGE, DeltaIn(e, index), NonEmpty(ReasonIn(e)))
  }

  /** What the parser of the event returns. */
  function Result(inv: Invocation, e: Event, index: nat): Option<Chunk> {
    var base := NewResponse(inv);
    var said := base.(choices := [ChoiceIn(e, index)]);
    match e
    case Silent => None
    case InlineError(error, objectType, _) =>
      Some(base.(objectType := objectType, error := Some(error), isPartial := false, done := true))
    case Metering(credit) => Some(base.(objectType := COMPLETION, usage := Some(NO_USAGE.(credit := credit))))
    case Metadata(payload) =>
      var usage := KiroMetadata.UsageOf(payload);
      if usage.Some? then Some(base.(usage := usage)) else None
    case AssistantText(text, stopReason) => if text == "" && stopReason == "" then None else Some(said)
    case ReasoningText(text) => if text == "" then None else Some(said)
    case ToolUse(_, partial) => Some(said.(objectType := COMPLETION, isPartial := partial))
    case MessageStop(stopReason) => if stopReason == "" then None else Some(said)
    case CompletionChunk(_, finishReason) =>
      Some(said.(objectType := COMPLETION, isPartial := finishReason == "", done := finishReason != ""))
    case Completion(_, _, calls) => Some(said.(objectType := COMPLETION, isPartial := false, done := calls == []))
  }

  /** Errors with a message end the stream. */
  predicate Fatal(e: Event) {
    e.InlineError? && e.error.message != ""
  }

  /** Whether the result of the event goes into the queue. */
  predicate Pushes(e: Event) {
    Fatal(e) || (if e.InlineError? then e.sendable else !e.Metering? && !e.Metadata?)
  }

  // ------------------------------------------------------------------------------------
  // What a stream says
  // ------------------------------------------------------------------------------------

  function Fragments(events: seq<Event>): seq<Fragment> {
    if events == [] then []
    else Fragments(Init(events)) + if Last(events).ToolUse? then [Last(events).fragment] else []
  }

  /** The index of the last event's tool use. */
  function IndexIn(events: seq<Event>): nat
    requires events != []
  {
    if Last(events).ToolUse? then Last(Deltas(Fragments(events))).index.GetOr(0) else 0
  }

  function ChunkIn(inv: Invocation, events: seq<Event>): Option<Chunk>
    requires events != []
  {
    if Pushes(Last(events)) then Result(inv, Last(events), IndexIn(events)) else None
  }

  function Made(inv: Invocation, events: seq<Event>): seq<Chunk> {
    if events == [] then [] else Plus(Made(inv, Init(events)), ChunkIn(inv, events))
  }

  function UsageIn(e: Event): Option<Usage> {
    match e
    case Metering(credit) => Some(NO_USAGE.(credit := credit))
    case Metadata(payload) => KiroMetadata.UsageOf(payload)
    case _ => None
  }

  const CompletionIn := (e: Event) => UsageIn(e).GetOr(NO_USAGE).completion
  const PromptIn := (e: Event) => UsageIn(e).GetOr(NO_USAGE).prompt
  const TotalIn := (e: Event) => UsageIn(e).GetOr(NO_USAGE).total
  const CacheIn := (e: Event) => UsageIn(e).GetOr(NO_USAGE).cacheRead
  const CreditIn := (e: Event) => if e.Metering? then Some(e.credit) else None
  const FinishIn := (e: Event) => ReasonIn(e)

  /** The counts that the metadata events have left: the last positive ones, in place of which the
      prompt has the estimate made before the call. */
  function Collected(inv: Invocation, events: seq<Event>): Usage {
    var prompt, cache := LastPositive(PromptIn, events), LastPositive(CacheIn, events);
    NO_USAGE.(prompt := if prompt > 0 then prompt else inv.promptTokens,
              completion := LastPositive(CompletionIn, events), total := LastPositive(TotalIn, events),
              cacheRead := cache, cached := cache, credit := LastGiven(CreditIn, events).GetOr(0.0))
  }

  predicate HasCalls(e: Event) {
    e.ToolUse? || (e.Completion? && e.calls != [])
  }

  predicate AnyCalls(events: seq<Event>) {
    events != [] && (HasCalls(Last(events)) || AnyCalls(Init(events)))
  }

  datatype Captured = Captured(usage: Usage, finishReason: string, hasToolCalls: bool)

  function CapturedFrom(inv: Invocation, events: seq<Event>): Captured {
    Captured(Collected(inv, events), LastNonEmpty(FinishIn, events), AnyCalls(events))
  }

  /** A fatal error ends the loop, and so does a Push that is turned away: the queue takes the first
      `room` chunks. */
  predicate Stopped(inv: Invocation, heard: seq<Event>, room: nat) {
    (heard != [] && Fatal(Last(heard))) || |Made(inv, heard)| > room
  }

  function UpToStop(inv: Invocation, events: seq<Event>, room: nat): seq<Event> {
    if events == [] then []
    else
      var before := UpToStop(inv, Init(events), room);
      if Stopped(inv, before, room) then before else before + [Last(events)]
  }

  /** What the queue takes before the final chunk. */
  function Sent(inv: Invocation, heard: seq<Event>, room: nat): seq<Chunk> {
    if |Made(inv, heard)| > room then Made(inv, heard)[..room] else Made(inv, heard)
  }

  /** `readError` is the error of the decoder, unless it is the end of the stream. */
  function ErrorOf(inv: Invocation, heard: seq<Event>, room: nat, readError: Option<string>): Option<string> {
    if |Made(inv, heard)| > room then None
    else if heard != [] && Fatal(Last(heard)) then Some("kiro API error: " + Last(heard).error.message)
    else readError
  }

  function FinalUsage(inv: Invocation, heard: seq<Event>): Usage {
    var u := Collected(inv, heard);
    if u.total == 0 then u.(total := u.prompt + u.completion) else u
  }

  /** The upstream reason goes first, then tool calls, then "stop". */
  function FinishReason(heard: seq<Event>): string {
    var reason := LastNonEmpty(FinishIn, heard);
    if reason != "" then reason else if AnyCalls(heard) then "tool_calls" else "stop"
  }

  function FinalOf(inv: Invocation, heard: seq<Event>, error: Option<string>): Chunk {
    FinalChunk(inv, inv.model, FinalUsage(inv, heard), error, FinishReason(heard))
  }

  // ------------------------------------------------------------------------------------
  // The loop
  // ------------------------------------------------------------------------------------

  /** Text of the assistant, which may come with the reason to stop. */
  method ParseAssistantText(inv: Invocation, text: string, stopReason: string, ghost index: nat)
    returns (result: Option<Chunk>)
    ensures result == Result(inv, AssistantText(text, stopReason), index)
  {
    if text == "" && stopReason == "" {
      return None;
    }
    var choice := Choice(0, NO_MESSAGE, Message(ASSISTANT, text, "", []), None);
    if stopReason != "" {
      choice := choice.(finishReason := Some(MapStopReason(stopReason)));
    }
    result := Some(NewResponse(inv).(choices := [choice]));
  }

  method ParseCompletionChunk(inv: Invocation, text: string, finishReason: string, ghost index: nat)
    returns (result: Option<Chunk>)
    ensures result == Result(inv, CompletionChunk(text, finishReason), index)
  {
    var choice := Choice(0, NO_MESSAGE, Message(ASSISTANT, text, "", []), None);
    var chunk := NewResponse(inv).(objectType := COMPLETION);
    if finishReason != "" {
      choice := choice.(finishReason := Some(finishReason));
      chunk := chunk.(done := true, isPartial := false);
    }
    result := Some(chunk.(choices := [choice]));
  }

  method ParseCompletion(inv: Invocation, text: string, finishReason: string, calls: seq<ToolCall>, ghost index: nat)
    returns (result: Option<Chunk>)
    ensures result == Result(inv, Completion(text, finishReason, calls), index)
  {
    var choice := Choice(0, NO_MESSAGE, Message(ASSISTANT, text, "", []), None);
    var chunk := NewResponse(inv).(objectType := COMPLETION, isPartial := false, done := true);
    if finishReason != "" {
      choice := choice.(finishReason := Some(finishReason));
    }
    if |calls| > 0 {
      choice := choice.(delta := choice.delta.(toolCalls := calls));
      chunk := chunk.(done := false);
    }
    result := Some(chunk.(choices := [choice]));
  }

  /** A part of a tool use, with the index that the manager gives its id. */
  method ParseToolUse(inv: Invocation, f: Fragment, partial: bool, index: nat) returns (result: Option<Chunk>)
    ensures result == Result(inv, ToolUse(f, partial), index)
  {
    var call := ToolCall(f.id, "function", f.name, f.args, Some(index));
    var choice := Choice(0, NO_MESSAGE, Message(ASSISTANT, "", "", [call]), None);
    result := Some(NewResponse(inv).(objectType := COMPLETION, isPartial := partial, choices := [choice]));
  }

  /** The parsers of the events that do not name a tool use. */
  method ParseOther(inv: Invocation, event: Event) returns (result: Option<Chunk>)
    requires !event.ToolUse?
    ensures result == Result(inv, event, 0)
  {
    var base := NewResponse(inv);
    result := None;
    match event
    case Silent =>
    case InlineError(error, objectType, _) =>
      result := Some(base.(objectType := objectType, error := Some(error), isPartial := false, done := true));
    case Metering(credit) =>
      result := Some(base.(objectType := COMPLETION, usage := Some(NO_USAGE.(credit := credit))));
    case Metadata(payload) =>
      var usage := KiroMetadata.ParseMetadataPayload(payload);
      if usage.Some? {
        result := Some(base.(usage := usage));
      }
    case AssistantText(text, stopReason) =>
      result := ParseAssistantText(inv, text, stopReason, 0);
    case ReasoningText(text) =>
      if text != "" {
        result := Some(base.(choices := [Choice(0, NO_MESSAGE, Message(ASSISTANT, "", text, []), None)]));
      }
    case MessageStop(stopReason) =>
      if stopReason != "" {
        result := Some(base.(choices := [Choice(0, NO_MESSAGE, NO_MESSAGE, Some(MapStopReason(stopReason)))]));
      }
    case CompletionChunk(text, finishReason) =>
      result := ParseCompletionChunk(inv, text, finishReason, 0);
    case Completion(text, finishReason, calls) =>
      result := ParseCompletion(inv, text, finishReason, calls, 0);
  }

  lemma FragmentsNext(before: seq<Event>, e: Event)
    ensures Fragments(before + [e]) == if e.ToolUse? then Fragments(before) + [e.fragment] else Fragments(before)
    ensures !e.ToolUse? ==> IndexIn(before + [e]) == 0
  {
    assert Init(before + [e]) == before;
    assert Fragments(before) + [] == Fragments(before);
  }

  /** The parsers of all event types, behind the detection of inline errors. */
  method ConvertResponse(inv: Invocation, event: Event, manager: ToolCallIndexManager, ghost before: seq<Event>)
    returns (result: Option<Chunk>)
    requires manager.Valid() && manager.order == Order(Fragments(before))
    modifies manager
    ensures manager.Valid() && manager.order == Order(Fragments(before + [event]))
    ensures result == Result(inv, event, IndexIn(before + [event]))
  {
    FragmentsNext(before, event);
    if event.ToolUse? {
      var index := manager.GetToolCallIndex(event.fragment.id);
      NextIndex(Fragments(before), event.fragment);
      result := ParseToolUse(inv, event.fragment, event.partial, index);
    } else {
      result := ParseOther(inv, event);
    }
  }

  lemma NextIndex(fs: seq<Fragment>, f: Fragment)
    ensures Order(fs + [f]) == Note(Order(fs), f.id) && f.id in Order(fs + [f])
    ensures Last(Deltas(fs + [f])).index == Some(Position(Order(fs + [f]), f.id))
  {
    assert Init(fs + [f]) == fs;
  }

  lemma CapturedNext(inv: Invocation, events: seq<Event>, e: Event)
    ensures LastNonEmpty(FinishIn, events + [e]) == Or(ReasonIn(e), LastNonEmpty(FinishIn, events))
    ensures AnyCalls(events + [e]) <==> AnyCalls(events) || HasCalls(e)
  {
    assert Init(events + [e]) == events;
  }

  lemma CollectedNext(inv: Invocation, events: seq<Event>, e: Event)
    ensures var u, v := Collected(inv, events), UsageIn(e).GetOr(NO_USAGE);
      Collected(inv, events + [e]) == u.(
        prompt := if v.prompt > 0 then v.prompt else u.prompt,
        completion := if v.completion > 0 then v.completion else u.completion,
        total := if v.total > 0 then v.total else u.total,
        cacheRead := if v.cacheRead > 0 then v.cacheRead else u.cacheRead,
        cached := if v.cacheRead > 0 then v.cacheRead else u.cached,
        credit := if e.Metering? then e.credit else u.credit)
  {
    assert Init(events + [e]) == events;
  }

  /** The completion tokens of every usage are added, but those of metadata then replace the sum. */
  method CollectUsage(inv: Invocation, collected: Usage, event: Event, given: Option<Usage>, ghost before: seq<Event>)
    returns (u: Usage)
    requires collected == Collected(inv, before) && given == UsageIn(event)
    ensures u == Collected(inv, before + [event])
  {
    CollectedNext(inv, before, event);
    u := collected;
    if given.Some? {
      u := u.(completion := u.completion + given.value.completion);
    }
    if event.Metering? && given.Some? {
      u := u.(credit := given.value.credit);
    }
    if event.Metadata? && given.Some? {
      KiroMetadata.CountsAreNotNegative(event.payload);
      var usage := given.value;
      if usage.completion > 0 {
        u := u.(completion := usage.completion);
      }
      if usage.prompt > 0 {
        u := u.(prompt := usage.prompt);
      }
      if usage.total > 0 {
        u := u.(total := usage.total);
      }
      if usage.cacheRead > 0 {
        u := u.(cacheRead := usage.cacheRead, cached := usage.cached);
      }
    }
  }

  predicate IsToolCallResponse(r: Chunk) {
    r.choices != [] && (r.choices[0].message.toolCalls != [] || r.choices[0].delta.toolCalls != [])
  }

  /** What one result does to the captured variables. */
  method Collect(inv: Invocation, captured: Captured, event: Event, result: Chunk, ghost before: seq<Event>, ghost index: nat)
    returns (c: Captured)
    requires captured == CapturedFrom(inv, before) && Some(result) == Result(inv, event, index) && !Fatal(event)
    ensures c == CapturedFrom(inv, before + [event])
  {
    CapturedNext(inv, before, event);
    c := captured;
    var usage := CollectUsage(inv, c.usage, event, result.usage, before);
    c := c.(usage := usage);
    assert |result.choices| <= 1;
    for i := 0 to |result.choices|
      invariant c.usage == usage && c.hasToolCalls == captured.hasToolCalls
      invariant c.finishReason == if i == 0 then captured.finishReason else Or(ReasonIn(event), captured.finishReason)
    {
      var choice := result.choices[i];
      if choice.finishReason.Some? && choice.finishReason.value != "" {
        c := c.(finishReason := choice.finishReason.value);
      }
    }
    if IsToolCallResponse(result) {
      c := c.(hasToolCalls := true);
    }
  }

  lemma QuietEvent(inv: Invocation, before: seq<Event>, e: Event, index: nat)
    requires Result(inv, e, index).None? || Fatal(e)
    ensures CapturedFrom(inv, before + [e]) == CapturedFrom(inv, before)
  {
    CapturedNext(inv, before, e);
    CollectedNext(inv, before, e);
  }

  lemma {:induction false} StaysStopped(inv: Invocation, heard: seq<Event>, events: seq<Event>, room: nat)
    requires heard <= events && UpToStop(inv, heard, room) == heard && Stopped(inv, heard, room)
    ensures UpToStop(inv, events, room) == heard
  {
    if |heard| == |events| {
      assert heard == events;
    } else {
      StaysStopped(inv, heard, Init(events), room);
    }
  }

  lemma HeardNext(inv: Invocation, before: seq<Event>, e: Event, room: nat)
    requires UpToStop(inv, before, room) == before && !Stopped(inv, before, room)
    ensures UpToStop(inv, before + [e], room) == before + [e]
  {
    assert Init(before + [e]) == before;
  }

  lemma SentNext(inv: Invocation, before: seq<Event>, e: Event, room: nat)
    requires |Made(inv, before)| <= room
    ensures var chunk, sent := ChunkIn(inv, before + [e]), Sent(inv, before, room);
      && Sent(inv, before + [e], room) == (if |sent| < room then Plus(sent, chunk) else sent)
      && (|Made(inv, before + [e])| > room <==> chunk.Some? && |sent| >= room)
  {
    assert Init(before + [e]) == before;
    if ChunkIn(inv, before + [e]).Some? {
      assert Made(inv, before + [e])[..|Made(inv, before)|] == Made(inv, before);
    }
  }

  /** The event loop; `refused` tells whether it ended at a Push that was turned away. */
  method HandleEvents(inv: Invocation, events: seq<Event>, room: nat)
    returns (captured: Captured, sent: seq<Chunk>, firstErr: Option<string>, refused: bool, ghost heard: seq<Event>)
    ensures heard == UpToStop(inv, events, room) && captured == CapturedFrom(inv, heard)
    ensures sent == Sent(inv, heard, room) && refused == (|Made(inv, heard)| > room)
    ensures !refused ==> firstErr == ErrorOf(inv, heard, room, None)
    ensures refused ==> firstErr == None
  {
    var manager := new ToolCallIndexManager();
    captured, sent, firstErr, refused := Captured(NO_USAGE.(prompt := inv.promptTokens), "", false), [], None, false;
    heard := [];
    for i := 0 to |events|
      invariant fresh(manager) && manager.Valid() && manager.order == Order(Fragments(heard))
      invariant heard == events[..i] && UpToStop(inv, heard, room) == heard && !Stopped(inv, heard, room)
      invariant captured == CapturedFrom(inv, heard)
      invariant sent == Sent(inv, heard, room) && firstErr.None? && !refused
    {
      ghost var before := heard;
      var event := events[i];
      HeardNext(inv, before, event, room);
      SentNext(inv, before, event, room);
      TakeNext(events, i);
      heard := before + [event];
      var result := ConvertResponse(inv, event, manager, before);
      if result.None? {
        QuietEvent(inv, before, event, IndexIn(heard));
        continue;
      }
      if Fatal(event) {
        QuietEvent(inv, before, event, IndexIn(heard));
        StaysStopped(inv, heard, events, room);
        if |sent| >= room {
          refused := true;
          return;
        }
        sent := sent + [result.value];
        firstErr := Some("kiro API error: " + event.error.message);
        return;
      }
      captured := Collect(inv, captured, event, result.value, before, IndexIn(heard));
      if Pushes(event) {
        if |sent| >= room {
          StaysStopped(inv, heard, events, room);
          refused := true;
          return;
        }
        sent := sent + [result.value];
      }
    }
    assert heard == events;
  }

  /** Returns the chunks the queue took, and the final chunk, which is pushed last in any case. */
  method HandleStreamEvent(inv: Invocation, events: seq<Event>, room: nat, readError: Option<string>)
    returns (sent: seq<Chunk>, finalResp: Chunk)
    ensures var heard := UpToStop(inv, events, room);
      && sent == Sent(inv, heard, room)
      && finalResp == FinalOf(inv, heard, ErrorOf(inv, heard, room, readError))
  {
    var captured, firstErr, refused;
    ghost var heard;
    captured, sent, firstErr, refused, heard := HandleEvents(inv, events, room);
    if firstErr.None? && !refused {
      firstErr := readError;
    }
    var finishReason := captured.finishReason;
    if finishReason == "" {
      finishReason := if captured.hasToolCalls then "tool_calls" else "stop";
    }
    var usage := captured.usage;
    if usage.total == 0 {
      usage := usage.(total := usage.prompt + usage.completion);
    }
    finalResp := FinalChunk(inv, inv.model, usage, firstErr, finishReason);
  }
}
