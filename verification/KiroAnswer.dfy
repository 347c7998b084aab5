/** What the caller of a Kiro stream ends up with. */
module KiroAnswer {
  import opened Common
  import opened Accumulator
  import opened StreamChunks
  import opened ToolCallIndex
  import opened KiroStream
  import StreamDelivery
  import KiroMetadata

  /** The text an event brings for the user. */
  function TextIn(e: Event): string {
    match e
    case AssistantText(text, _) => text
    case CompletionChunk(text, _) => text
    case Completion(text, _, _) => text
    case _ => ""
  }

  /** The thinking it brings. */
  function ThoughtIn(e: Event): string {
    if e.ReasoningText? then e.text else ""
  }

  function Texts(events: seq<Event>): string {
    if events == [] then "" else Texts(Init(events)) + TextIn(Last(events))
  }

  function Reasonings(events: seq<Event>): string {
    if events == [] then "" else Reasonings(Init(events)) + ThoughtIn(Last(events))
  }

  /** The tool calls the last event brings: a fragment, numbered by the first appearance of its id, or the
      calls of a completion. */
  function CallsBrought(events: seq<Event>): seq<ToolCall>
    requires events != []
  {
    match Last(events)
    case ToolUse(f, _) =>
      var order := Order(Fragments(events));
      [ToolCall(f.id, "function", f.name, f.args, Some(if f.id in order then Position(order, f.id) else 0))]
    case Completion(_, _, calls) => calls
    case _ => []
  }

  /** Completion events carry calls without an index, which all merge into tool call 0. */
  predicate NoCompletedCalls(events: seq<Event>) {
    forall e | e in events :: e.Completion? ==> e.calls == []
  }

  // ------------------------------------------------------------------------------------
  // The pushed chunks
  // ------------------------------------------------------------------------------------

  predicate FromStream(id: string, c: Chunk) {
    && c.id == id && c.usage.None?
    && |c.choices| <= 1 && (c.choices != [] ==> c.choices[0].index == 0)
  }

  lemma {:induction false} MadeFromStream(inv: Invocation, events: seq<Event>)
    ensures forall c | c in Made(inv, events) :: FromStream(inv.id, c)
  {
    if events == [] {
    } else {
      MadeFromStream(inv, Init(events));
    }
  }

  lemma {:induction false} OneIdIsFirst(id: string, chunks: seq<Chunk>)
    requires forall c | c in chunks :: c.id == id
    ensures chunks != [] ==> FirstId(chunks) == id
    ensures WithId(id, chunks) == chunks
  {
    if chunks == [] {
    } else {
      OneIdIsFirst(id, Init(chunks));
      assert Last(chunks) in chunks;
    }
  }

  lemma {:induction false} StreamChoices(id: string, chunks: seq<Chunk>)
    requires forall c | c in chunks :: FromStream(id, c)
    ensures !Reported(chunks)
    ensures forall d | d in AllChoices(chunks) :: d.index == 0
  {
    if chunks == [] {
    } else {
      StreamChoices(id, Init(chunks));
      assert FromStream(id, Last(chunks));
    }
  }

  lemma {:induction false} OneExtent(ds: seq<Choice>)
    requires forall d | d in ds :: d.index == 0
    ensures ChoiceExtent(ds) == if ds == [] then 0 else 1
  {
    if ds == [] {
    } else {
      OneExtent(Init(ds));
      assert Last(ds) in ds;
    }
  }

  lemma ChoicesPlus(chunks: seq<Chunk>, c: Option<Chunk>)
    ensures AllChoices(Plus(chunks, c)) == AllChoices(chunks) + if c.Some? then c.value.choices else []
  {
    if c.Some? {
      assert Init(chunks + [c.value]) == chunks;
    }
  }

  /** The choices of one event: at most one, at index 0. */
  function ChoicesOf(inv: Invocation, events: seq<Event>): seq<Choice>
    requires events != []
  {
    var c := ChunkIn(inv, events);
    if c.Some? then c.value.choices else []
  }

  /** An event that the caller gets to see: any but unreadable ones and those that say nothing. */
  predicate Speaks(e: Event) {
    match e
    case Silent => false
    case Metadata(payload) => KiroMetadata.UsageOf(payload).Some?
    case AssistantText(text, reason) => text != "" || reason != ""
    case ReasoningText(text) => text != ""
    case MessageStop(reason) => reason != ""
    case _ => true
  }

  /** Events that their own parser marks as complete answers. */
  predicate CompletesAnswer(e: Event) {
    e.InlineError? || (e.CompletionChunk? && e.finishReason != "") || (e.Completion? && e.calls == [])
  }

  /** The chunk of an event: its envelope, which usage or error it carries, and with what choice. */
  lemma ChunkOfEvent(inv: Invocation, e: Event, index: nat)
    ensures Result(inv, e, index).Some? <==> Speaks(e)
    ensures Speaks(e) ==>
      var c := Result(inv, e, index).value;
      && c.id == inv.id && c.created == inv.created && c.model == inv.model && c.fingerprint.None?
      && (c.done <==> CompletesAnswer(e))
      && (c.isPartial <==> !(CompletesAnswer(e) || e.Completion? || (e.ToolUse? && !e.partial)))
      && c.objectType == (if e.InlineError? then e.objectType
                          else if e.Metering? || e.ToolUse? || e.CompletionChunk? || e.Completion? then "chat.completion"
                          else "chat.completion.chunk")
      && c.error == (if e.InlineError? then Some(e.error) else None)
      && c.usage == (if e.Metering? then Some(NO_USAGE.(credit := e.credit))
                     else if e.Metadata? then KiroMetadata.UsageOf(e.payload) else None)
      && |c.choices| == (if e.InlineError? || e.Metering? || e.Metadata? then 0 else 1)
      && (c.choices != [] ==>
            && c.choices[0].index == 0 && c.choices[0].message == NO_MESSAGE
            && c.choices[0].delta.role == (if e.MessageStop? then "" else "assistant")
            && c.choices[0].finishReason == if ReasonGiven(e) != "" then Some(ReasonGiven(e)) else None)
  {
    match e
    case AssistantText(_, reason) => StopReasonsAreTranslated(reason);
    case MessageStop(reason) => StopReasonsAreTranslated(reason);
    case _ =>
  }

  /** Usage is kept for the final chunk; errors that say something are always sent, others if they may be. */
  lemma SentIff(inv: Invocation, events: seq<Event>)
    requires events != []
    ensures var e := Last(events);
      ChunkIn(inv, events).Some? <==>
      Speaks(e) && !e.Metering? && !e.Metadata? && (e.InlineError? ==> e.sendable || |e.error.message| > 0)
  {
    ChunkOfEvent(inv, Last(events), IndexIn(events));
  }

  lemma EventSays(inv: Invocation, events: seq<Event>)
    requires events != []
    ensures var ds, m := ChoicesOf(inv, events), DeltaIn(Last(events), IndexIn(events));
      && |ds| <= 1
      && (ds != [] ==> ds[0] == ChoiceIn(Last(events), IndexIn(events)))
      && (ds == [] ==> m.content == "" && m.reasoning == "" && m.toolCalls == [])
      && m.content == TextIn(Last(events)) && m.reasoning == ThoughtIn(Last(events)) && m.toolCalls == CallsBrought(events)
  {
    assert Init(events) + [Last(events)] == events;
    FragmentsNext(Init(events), Last(events));
    if Last(events).ToolUse? {
      NextIndex(Fragments(Init(events)), Last(events).fragment);
    }
  }

  lemma AtNext(ds: seq<Choice>, d: Choice)
    requires d.index == 0 && d.message == NO_MESSAGE
    ensures ContentAt(ds + [d], 0) == ContentAt(ds, 0) + d.delta.content
    ensures ReasoningAt(ds + [d], 0) == ReasoningAt(ds, 0) + d.delta.reasoning
    ensures ToolsAt(ds + [d], 0) == ToolsAt(ds, 0) + d.delta.toolCalls
  {
    assert Init(ds + [d]) == ds;
  }

  function CallsIn(events: seq<Event>): seq<ToolCall> {
    if events == [] then [] else CallsIn(Init(events)) + CallsBrought(events)
  }

  lemma {:induction false} MadeSays(inv: Invocation, events: seq<Event>)
    ensures var ds := AllChoices(Made(inv, events));
      ContentAt(ds, 0) == Texts(events) && ReasoningAt(ds, 0) == Reasonings(events) && ToolsAt(ds, 0) == CallsIn(events)
  {
    if events == [] {
    } else {
      var before := AllChoices(Made(inv, Init(events)));
      var ds := ChoicesOf(inv, events);
      MadeSays(inv, Init(events));
      EventSays(inv, events);
      ChoicesPlus(Made(inv, Init(events)), ChunkIn(inv, events));
      assert AllChoices(Made(inv, events)) == before + ds;
      if ds == [] {
        assert before + ds == before;
      } else {
        assert ds == [ds[0]];
        AtNext(before, ds[0]);
      }
    }
  }

  lemma CallsNext(before: seq<Event>, e: Event)
    requires e.Completion? ==> e.calls == []
    ensures CallsIn(before + [e]) ==
      if e.ToolUse? then CallsIn(before) + [Last(Deltas(Fragments(before) + [e.fragment]))] else CallsIn(before)
  {
    assert Init(before + [e]) == before;
    FragmentsNext(before, e);
    if e.ToolUse? {
      NextIndex(Fragments(before), e.fragment);
    } else {
      assert CallsIn(before) + [] == CallsIn(before);
    }
  }

  lemma DeltasNext(fs: seq<Fragment>, f: Fragment)
    ensures Deltas(fs + [f]) == Deltas(fs) + [Last(Deltas(fs + [f]))]
  {
    assert Init(fs + [f]) == fs;
  }

  lemma {:induction false} CallsAreDeltas(events: seq<Event>)
    requires NoCompletedCalls(events)
    ensures CallsIn(events) == Deltas(Fragments(events))
  {
    if events == [] {
    } else {
      var before, e := Init(events), Last(events);
      assert before + [e] == events && e in events;
      CallsAreDeltas(before);
      CallsNext(before, e);
      FragmentsNext(before, e);
      if e.ToolUse? {
        DeltasNext(Fragments(before), e.fragment);
      }
    }
  }

  // ------------------------------------------------------------------------------------
  // The accumulated response
  // ------------------------------------------------------------------------------------

  /** The chunks the queue gets. */
  function Stream(inv: Invocation, heard: seq<Event>, error: Option<string>): seq<Chunk> {
    Made(inv, heard) + [FinalOf(inv, heard, error)]
  }

  lemma StreamIsKept(inv: Invocation, heard: seq<Event>, error: Option<string>)
    ensures Kept(Stream(inv, heard, error)) == Stream(inv, heard, error)
  {
    var all := Stream(inv, heard, error);
    MadeFromStream(inv, heard);
    assert forall c | c in all :: c.id == inv.id;
    OneIdIsFirst(inv.id, all);
  }

  /** Choices that are all at index 0 merge into one. */
  lemma OneChoice(ds: seq<Choice>, d: Choice)
    requires forall c | c in ds :: c.index == 0
    requires d.index == 0 && d.message == d.delta == NO_MESSAGE && d.finishReason.Some?
    ensures var cs := AddChoices([], ds + [d]);
      && |cs| == 1
      && cs[0].message == Message(RoleAt(ds, 0), ContentAt(ds, 0), ReasoningAt(ds, 0), AddTools([], ToolsAt(ds, 0)))
      && cs[0].finishReason == d.finishReason
  {
    var all := ds + [d];
    OneExtent(all);
    ChoiceCount(all);
    ChoiceSlot(all, 0);
    AtNext(ds, d);
    assert Init(all) == ds;
    assert ToolsAt(ds, 0) + [] == ToolsAt(ds, 0);
  }

  lemma MergedChoices(inv: Invocation, heard: seq<Event>, error: Option<string>)
    ensures Accumulate(ZERO, Stream(inv, heard, error)).response.choices ==
      AddChoices([], AllChoices(Made(inv, heard)) + [FinalOf(inv, heard, error).choices[0]])
  {
    var all, final := Stream(inv, heard, error), FinalOf(inv, heard, error);
    StreamInClosedForm(all);
    StreamIsKept(inv, heard, error);
    assert Init(all) == Made(inv, heard) && Last(all) == final;
    assert final.choices == [final.choices[0]];
  }

  /** The merged choice of a Kiro stream. */
  lemma StreamChoice(inv: Invocation, heard: seq<Event>, error: Option<string>)
    ensures var cs := Accumulate(ZERO, Stream(inv, heard, error)).response.choices;
      && |cs| == 1
      && cs[0].message.content == Texts(heard)
      && cs[0].message.reasoning == Reasonings(heard)
      && cs[0].message.toolCalls == AddTools([], CallsIn(heard))
      && cs[0].finishReason == Some(FinishReason(heard))
  {
    MergedChoices(inv, heard, error);
    MadeFromStream(inv, heard);
    StreamChoices(inv.id, Made(inv, heard));
    OneChoice(AllChoices(Made(inv, heard)), FinalOf(inv, heard, error).choices[0]);
    MadeSays(inv, heard);
  }

  /** The tool calls of the response are the group-by of the fragments on their tool-use ids. */
  lemma ToolCallsAreGrouped(inv: Invocation, heard: seq<Event>, error: Option<string>)
    requires NoCompletedCalls(heard)
    ensures var cs := Accumulate(ZERO, Stream(inv, heard, error)).response.choices;
      |cs| == 1 && cs[0].message.toolCalls == GroupById(Fragments(heard))
  {
    StreamChoice(inv, heard, error);
    CallsAreDeltas(heard);
    FragmentsAreGroupedById(Fragments(heard));
  }

  /** The usage of the response is that of the final chunk, which always reaches it. */
  lemma StreamUsage(inv: Invocation, heard: seq<Event>, error: Option<string>)
    ensures var r := Accumulate(ZERO, Stream(inv, heard, error)).response;
      r.done && r.usage == Some(ShownUsage(FinalUsage(inv, heard)))
  {
    var all, made := Stream(inv, heard, error), Made(inv, heard);
    StreamInClosedForm(all);
    StreamIsKept(inv, heard, error);
    MadeFromStream(inv, heard);
    StreamChoices(inv.id, made);
    TotalsOfLast(made, FinalOf(inv, heard, error));
    FirstUsage(FinalUsage(inv, heard));
  }

  lemma TotalsOfLast(before: seq<Chunk>, last: Chunk)
    requires Accumulator.Totals(before) == None
    ensures Totals(before + [last]) == AddUsage(None, last.usage)
    ensures AnyDone(before + [last]) <==> AnyDone(before) || last.done
  {
    assert Init(before + [last]) == before;
    TotalsStep(before + [last]);
  }

  // ------------------------------------------------------------------------------------
  // Counts
  // ------------------------------------------------------------------------------------

  /** What a metadata event reports. */
  function CountsIn(e: Event): Usage {
    if e.Metadata? then KiroMetadata.UsageOf(e.payload).GetOr(NO_USAGE) else NO_USAGE
  }

  lemma CountsAreIn(e: Event)
    ensures PromptIn(e) == CountsIn(e).prompt && CompletionIn(e) == CountsIn(e).completion
    ensures TotalIn(e) == CountsIn(e).total && CacheIn(e) == CountsIn(e).cacheRead
  {
  }

  /** The credit of the last metering event, or none. */
  function LastCredit(events: seq<Event>): real {
    if events == [] then 0.0 else if Last(events).Metering? then Last(events).credit else LastCredit(Init(events))
  }

  lemma {:induction false} CreditIsLast(events: seq<Event>)
    ensures LastGiven(CreditIn, events).GetOr(0.0) == LastCredit(events)
  {
    if events == [] {
    } else {
      CreditIsLast(Init(events));
    }
  }

  /** The final usage, without mention of the running sums: of each token count the last positive
      metadata value, or else 0 and the estimate for the prompt; the total is the last positive one
      reported, or else the sum; the credit is the last one. */
  lemma FinalCounts(inv: Invocation, heard: seq<Event>)
    ensures var u := FinalUsage(inv, heard);
      && Leaves(e => CountsIn(e).completion, heard, 0, u.completion)
      && Leaves(e => CountsIn(e).prompt, heard, inv.promptTokens, u.prompt)
      && Leaves(e => CountsIn(e).total, heard, u.prompt + u.completion, u.total)
      && Leaves(e => CountsIn(e).cacheRead, heard, 0, u.cacheRead)
      && u.cached == u.cacheRead && u.cacheCreation == u.reasoning == 0 && u.credit == LastCredit(heard)
  {
    forall e: Event {
      CountsAreIn(e);
    }
    CreditIsLast(heard);
    CountIs(CompletionIn, e => CountsIn(e).completion, heard, 0);
    CountIs(PromptIn, e => CountsIn(e).prompt, heard, inv.promptTokens);
    CountIs(TotalIn, e => CountsIn(e).total, heard, FinalUsage(inv, heard).prompt + FinalUsage(inv, heard).completion);
    CountIs(CacheIn, e => CountsIn(e).cacheRead, heard, 0);
  }

  // ------------------------------------------------------------------------------------
  // Reasons and errors
  // ------------------------------------------------------------------------------------

  const REASONS := map[
    "end_turn" := "stop", "stop_sequence" := "stop", "tool_use" := "tool_calls",
    "max_tokens" := "length", "content_filtered" := "content_filter"]

  function Translated(reason: string): string {
    if reason in REASONS then REASONS[reason] else reason
  }

  /** The reasons of the service that stand for each of the caller's. */
  lemma StopReasonsAreTranslated(r: string)
    ensures MapStopReason(r) == Translated(r)
    ensures Translated(r) == "stop" <==> r in {"end_turn", "stop_sequence", "stop"}
    ensures Translated(r) == "tool_calls" <==> r in {"tool_use", "tool_calls"}
    ensures Translated(r) == "length" <==> r in {"max_tokens", "length"}
    ensures Translated(r) == "content_filter" <==> r in {"content_filtered", "content_filter"}
    ensures Translated(r) == "" <==> r == ""
  {
  }

  /** The finish reason an event gives: completion events speak the caller's language already. */
  function ReasonGiven(e: Event): string {
    match e
    case AssistantText(_, reason) => Translated(reason)
    case MessageStop(reason) => Translated(reason)
    case CompletionChunk(_, reason) => reason
    case Completion(_, reason, _) => reason
    case _ => ""
  }

  predicate BringsCall(e: Event) {
    e.ToolUse? || (e.Completion? && |e.calls| > 0)
  }

  lemma {:induction false} ReasonsAreGiven(events: seq<Event>)
    ensures LastNonEmpty(FinishIn, events) == LastNonEmpty(ReasonGiven, events)
    ensures AnyCalls(events) <==> exists e :: e in events && BringsCall(e)
  {
    if events == [] {
    } else {
      var e := Last(events);
      ReasonsAreGiven(Init(events));
      assert e in events && forall x | x in events :: x in Init(events) || x == e;
      match e
      case AssistantText(_, reason) => StopReasonsAreTranslated(reason);
      case MessageStop(reason) => StopReasonsAreTranslated(reason);
      case _ =>
    }
  }

  /** The final reason is the last one given, or else tells whether there were tool calls. */
  lemma FinishReasonIs(heard: seq<Event>)
    ensures forall i: nat | IsLastGiven(ReasonGiven, heard, i) :: FinishReason(heard) == ReasonGiven(heard[i])
    ensures NeverGiven(ReasonGiven, heard) ==>
      FinishReason(heard) == if exists e :: e in heard && BringsCall(e) then "tool_calls" else "stop"
  {
    ReasonsAreGiven(heard);
    forall i: nat | IsLastGiven(ReasonGiven, heard, i) ensures FinishReason(heard) == ReasonGiven(heard[i]) {
      LastNonEmptyAt(ReasonGiven, heard, i);
    }
    if NeverGiven(ReasonGiven, heard) {
      LastNonEmptyOfNone(ReasonGiven, heard);
    }
  }

  /** An error that ends the stream: one that says something. */
  predicate SaysError(e: Event) {
    e.InlineError? && |e.error.message| > 0
  }

  /** No event but the last says an error, and no chunk but the last is refused. */
  predicate NoStopBefore(inv: Invocation, heard: seq<Event>, room: nat) {
    && (forall i | 0 <= i < |heard| - 1 :: !SaysError(heard[i]))
    && (forall i | 0 <= i < |heard| :: |Made(inv, heard[..i])| <= room)
  }

  lemma OneMoreHeard(inv: Invocation, before: seq<Event>, e: Event, room: nat)
    requires NoStopBefore(inv, before, room) && |Made(inv, before)| <= room && (before != [] ==> !SaysError(Last(before)))
    ensures NoStopBefore(inv, before + [e], room)
  {
    forall i | 0 <= i < |before| + 1 ensures |Made(inv, (before + [e])[..i])| <= room {
      assert (before + [e])[..i] == if i == |before| then before else before[..i];
    }
  }

  /** The loop hears the events up to the first such error or the first refused Push. */
  lemma {:induction false} HeardUpToFirstStop(inv: Invocation, events: seq<Event>, room: nat)
    ensures var heard := UpToStop(inv, events, room);
      && heard <= events && NoStopBefore(inv, heard, room)
      && (heard == events || SaysError(Last(heard)) || |Made(inv, heard)| > room)
  {
    if events == [] {
    } else {
      var before := UpToStop(inv, Init(events), room);
      HeardUpToFirstStop(inv, Init(events), room);
      InitAndLast(events);
      if !Stopped(inv, before, room) {
        OneMoreHeard(inv, before, Last(events), room);
      }
    }
  }

  /** The last inline error that reached the queue: one that says something, or is sent anyhow. */
  function LastInline(events: seq<Event>): Option<ResponseError> {
    if events == [] then None
    else
      var e := Last(events);
      if e.InlineError? && (SaysError(e) || e.sendable) then Some(e.error) else LastInline(Init(events))
  }

  lemma {:induction false} InlineErrorsAreMade(inv: Invocation, events: seq<Event>)
    ensures LastError(Made(inv, events)) == LastInline(events)
  {
    if events == [] {
    } else {
      InlineErrorsAreMade(inv, Init(events));
      if ChunkIn(inv, events).Some? {
        assert Init(Made(inv, events)) == Made(inv, Init(events));
      }
    }
  }

  /** With which error the loop ends: that of a refused Push is kept from the caller. */
  lemma LoopErrorIs(inv: Invocation, events: seq<Event>, room: nat, readError: Option<string>)
    ensures var heard := UpToStop(inv, events, room);
      ErrorOf(inv, heard, room, readError) ==
        if |Made(inv, heard)| > room then None
        else if heard != [] && SaysError(Last(heard)) then Some("kiro API error: " + Last(heard).error.message)
        else readError
  {
  }

  /** The error of the response is the one that ended the loop, or else the last one without a message
      that the stream carried. */
  lemma StreamError(inv: Invocation, heard: seq<Event>, error: Option<string>)
    ensures Accumulate(ZERO, Stream(inv, heard, error)).response.error ==
      if error.Some? then Some(ResponseError(error.value, "")) else LastInline(heard)
    ensures !Accumulate(ZERO, Stream(inv, heard, error)).response.isPartial
  {
    var all := Stream(inv, heard, error);
    StreamInClosedForm(all);
    ScalarsInClosedForm(all);
    StreamIsKept(inv, heard, error);
    InlineErrorsAreMade(inv, heard);
    assert Init(all) == Made(inv, heard) && Last(all) == FinalOf(inv, heard, error);
  }

  /** What every chunk of an invocation is stamped with. */
  predicate HasStamp(c: Chunk, inv: Invocation) {
    c.id == inv.id && c.created == inv.created && c.model == inv.model && c.fingerprint.None?
  }

  lemma {:induction false} MadeHasStamp(inv: Invocation, events: seq<Event>)
    ensures forall c | c in Made(inv, events) :: HasStamp(c, inv)
  {
    if events == [] {
    } else {
      MadeHasStamp(inv, Init(events));
      if ChunkIn(inv, events).Some? {
        ChunkOfEvent(inv, Last(events), IndexIn(events));
      }
    }
  }

  lemma {:induction false} StampsMerge(inv: Invocation, chunks: seq<Chunk>)
    requires forall c | c in chunks :: HasStamp(c, inv)
    ensures chunks != [] ==>
      LastOf((c: Chunk) => c.model, chunks) == inv.model && LastCreated(chunks) == inv.created
    ensures LastGiven(FingerprintOf, chunks) == None
  {
    if chunks == [] {
    } else {
      StampsMerge(inv, Init(chunks));
      assert Last(chunks) in chunks;
    }
  }

  lemma StreamIsStamped(inv: Invocation, heard: seq<Event>, error: Option<string>)
    ensures HasStamp(Accumulate(ZERO, Stream(inv, heard, error)).response, inv)
  {
    var all := Stream(inv, heard, error);
    StreamIsKept(inv, heard, error);
    MadeHasStamp(inv, heard);
    StampsMerge(inv, all);
    StreamInClosedForm(all);
    ScalarsInClosedForm(all);
    assert forall c | c in all :: c.id == inv.id;
    OneIdIsFirst(inv.id, all);
  }

  /** What the accumulated response of a Kiro stream says. */
  ghost predicate Answers(r: Chunk, inv: Invocation, heard: seq<Event>, error: Option<string>) {
    && r.done && !r.isPartial
    && r.id == inv.id && r.created == inv.created && r.model == inv.model && r.fingerprint.None?
    && r.usage == Some(ShownUsage(FinalUsage(inv, heard)))
    && r.error == (if error.Some? then Some(ResponseError(error.value, "")) else LastInline(heard))
    && |r.choices| == 1
    && r.choices[0].message.content == Texts(heard)
    && r.choices[0].message.reasoning == Reasonings(heard)
    && r.choices[0].finishReason == Some(FinishReason(heard))
    && (NoCompletedCalls(heard) ==> r.choices[0].message.toolCalls == GroupById(Fragments(heard)))
  }

  lemma StreamAnswers(inv: Invocation, heard: seq<Event>, error: Option<string>)
    ensures Answers(Accumulate(ZERO, Stream(inv, heard, error)).response, inv, heard, error)
  {
    StreamIsStamped(inv, heard, error);
    StreamUsage(inv, heard, error);
    StreamError(inv, heard, error);
    StreamChoice(inv, heard, error);
    if NoCompletedCalls(heard) {
      ToolCallsAreGrouped(inv, heard, error);
    }
  }

  /** In every interleaving, once Each returns the accumulated response answers what was heard, and
      GenerateContent changes nothing of it but its object type. */
  lemma EveryDeliveryAnswers(
      capacity: nat, inv: Invocation, heard: seq<Event>, error: Option<string>, moves: seq<StreamDelivery.Move<Chunk>>)
    requires StreamDelivery.IsSchedule(StreamDelivery.Start(capacity, Stream(inv, heard, error), ZERO), moves, Add)
    ensures var s := StreamDelivery.Reach(StreamDelivery.Start(capacity, Stream(inv, heard, error), ZERO), moves, Add);
      s.consumer.Returned? ==>
        && Answers(s.acc.response, inv, heard, error)
        && Generated(s.acc.response) == s.acc.response.(objectType := COMPLETION)
  {
    DeliveredIsAccumulated(capacity, Stream(inv, heard, error), moves);
    StreamAnswers(inv, heard, error);
  }
}
