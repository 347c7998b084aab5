/** What the caller of a Codex stream ends up with. */
module CodexAnswer {
  import opened Common
  import opened Accumulator
  import opened StreamChunks
  import opened CodexStream
  import StreamDelivery

  function OutputText(t: Typed): string {
    if t.kind == "output_text" then t.text else ""
  }

  function SummaryText(t: Typed): string {
    if t.kind == "summary_text" then t.text else ""
  }

  /** The text of an event: a delta, or the output texts of a finished message. */
  function TextIn(e: Event): string {
    match e.body
    case TextDelta(text) => text
    case ItemDone(MessageItem(content)) => Flatten(Mapped(OutputText, content))
    case _ => ""
  }

  /** The reasoning of an event: a delta, or the summary texts of a finished item. */
  function ReasoningIn(e: Event): string {
    match e.body
    case ReasoningDelta(text) => text
    case ItemDone(ReasoningItem(summary)) => Flatten(Mapped(SummaryText, summary))
    case _ => ""
  }

  lemma {:induction false} JoinedAreTexts(parts: seq<Typed>)
    ensures Joined("output_text", parts) == Flatten(Mapped(OutputText, parts))
    ensures Joined("summary_text", parts) == Flatten(Mapped(SummaryText, parts))
  {
    if parts == [] {
    } else {
      JoinedAreTexts(Init(parts));
      MappedLast(OutputText, parts);
      MappedLast(SummaryText, parts);
    }
  }

  function Texts(events: seq<Event>): string {
    if events == [] then "" else Texts(Init(events)) + TextIn(Last(events))
  }

  function Reasonings(events: seq<Event>): string {
    if events == [] then "" else Reasonings(Init(events)) + ReasoningIn(Last(events))
  }

  function FunctionItems(events: seq<Event>): seq<Item> {
    if events == [] then []
    else
      var b := Last(events).body;
      FunctionItems(Init(events)) + if b.ItemDone? && b.item.FunctionItem? then [b.item] else []
  }

  lemma {:induction false} FunctionItemsAreCalls(events: seq<Event>)
    ensures |FunctionItems(events)| == CallCount(events)
    ensures forall item | item in FunctionItems(events) :: item.FunctionItem?
  {
    if events == [] {
    } else {
      FunctionItemsAreCalls(Init(events));
    }
  }

  predicate AllFunctions(items: seq<Item>) {
    forall item | item in items :: item.FunctionItem?
  }

  function Numbering(items: seq<Item>): seq<ToolCall>
    requires AllFunctions(items)
  {
    seq(|items|, k requires 0 <= k < |items| =>
      ToolCall(items[k].callId, "function", items[k].name, items[k].args, Some(k)))
  }

  lemma NumberingNext(items: seq<Item>, item: Item)
    requires AllFunctions(items + [item]) && AllFunctions(items) && item.FunctionItem?
    ensures Numbering(items + [item]) == Numbering(items) + [CallOf(item, |items|)]
  {
  }

  lemma PieceSaysEvent(e: Event, index: nat)
    ensures var p := PieceOf(e, index);
      && (if p.Some? && p.value.Text? then p.value.text else "") == TextIn(e)
      && (if p.Some? && p.value.Reasoning? then p.value.text else "") == ReasoningIn(e)
      && (p.Some? && p.value.Call? <==> IsCall(e))
      && (IsCall(e) ==> p == Some(Call(CallOf(e.body.item, index))))
      && (p.Some? <==> TextIn(e) != "" || ReasoningIn(e) != "" || IsCall(e))
  {
    match e.body
    case ItemDone(MessageItem(content)) => JoinedAreTexts(content);
    case ItemDone(ReasoningItem(summary)) => JoinedAreTexts(summary);
    case _ =>
  }

  lemma PlusSays(ps: seq<Piece>, p: Option<Piece>)
    ensures TextOf(Plus(ps, p)) == TextOf(ps) + if p.Some? && p.value.Text? then p.value.text else ""
    ensures ReasoningOf(Plus(ps, p)) == ReasoningOf(ps) + if p.Some? && p.value.Reasoning? then p.value.text else ""
    ensures CallsOf(Plus(ps, p)) == CallsOf(ps) + if p.Some? && p.value.Call? then [p.value.call] else []
  {
    if p.Some? {
      assert Init(ps + [p.value]) == ps;
    }
  }

  /** The pieces carry all text and reasoning in order, and the k-th function call as call k. */
  lemma {:induction false} MadeSays(events: seq<Event>)
    ensures TextOf(Made(events)) == Texts(events) && ReasoningOf(Made(events)) == Reasonings(events)
    ensures AllFunctions(FunctionItems(events)) && CallsOf(Made(events)) == Numbering(FunctionItems(events))
  {
    FunctionItemsAreCalls(events);
    if events == [] {
    } else {
      var e, n := Last(events), CallCount(Init(events));
      MadeSays(Init(events));
      FunctionItemsAreCalls(Init(events));
      PieceSaysEvent(e, n);
      PlusSays(Made(Init(events)), PieceOf(e, n));
      if IsCall(e) {
        NumberingNext(FunctionItems(Init(events)), e.body.item);
      }
    }
  }

  lemma {:induction false} PrefixCalls(ps: seq<Piece>, n: nat)
    requires n <= |ps|
    ensures CallsOf(ps[..n]) <= CallsOf(ps)
  {
    if n == |ps| {
      assert ps[..n] == ps;
    } else {
      PrefixCalls(Init(ps), n);
      assert Init(ps)[..n] == ps[..n];
    }
  }

  lemma NumberingIsNumbered(items: seq<Item>)
    requires AllFunctions(items)
    ensures Numbered(Numbering(items))
  {
  }

  lemma TakenIsNumbered(heard: seq<Event>, room: nat)
    ensures Numbered(CallsOf(Taken(heard, room)))
  {
    MadeSays(heard);
    NumberingIsNumbered(FunctionItems(heard));
    if |Made(heard)| > room {
      PrefixCalls(Made(heard), room);
    }
  }

  /** The chunks the queue gets from StreamProcessor.Process. */
  function Stream(inv: Invocation, model: string, heard: seq<Event>, room: nat, error: Option<string>): seq<Chunk> {
    Sent(inv, model, heard, room) + [FinalOf(inv, model, heard, error)]
  }

  /** The accumulator takes the final chunk if nothing came before it, or no id is known, or the
      upstream response named no id or the one of the invocation. */
  predicate IdsAgree(inv: Invocation, heard: seq<Event>, room: nat) {
    var id := UpstreamId(heard);
    Taken(heard, room) == [] || inv.id == "" || id == "" || id == inv.id
  }

  /** The id of the upstream response, or "". */
  function UpstreamId(heard: seq<Event>): string {
    if heard == [] then ""
    else match Last(heard).body
      case Completed(id, _) => id
      case _ => UpstreamId(Init(heard))
  }

  /** The model the server last named, or "". */
  function ServerModel(heard: seq<Event>): string {
    if heard == [] then "" else if |Last(heard).model| > 0 then Last(heard).model else ServerModel(Init(heard))
  }

  lemma {:induction false} NamesAreLast(heard: seq<Event>)
    ensures LastGiven(IdGiven, heard).GetOr("") == UpstreamId(heard)
    ensures LastGiven(ModelGiven, heard).GetOr("") == ServerModel(heard)
  {
    if heard == [] {
    } else {
      NamesAreLast(Init(heard));
    }
  }

  /** The usage and the finish reason of a Codex stream, and its error, reach the accumulated response
      exactly if the ids agree; otherwise they are lost and the response is never done. */
  lemma StreamAnswersIff(inv: Invocation, model: string, heard: seq<Event>, room: nat, error: Option<string>)
    ensures var r, ps := Accumulate(ZERO, Stream(inv, model, heard, room, error)).response, Taken(heard, room);
      if IdsAgree(inv, heard, room) then StreamChunks.Completed(r, ps, FinalUsage(heard), error, FinishReason(heard))
      else r == Heard(inv, model, ps) && r.usage.None? && !r.done
  {
    TakenIsNumbered(heard, room);
    NamesAreLast(heard);
    FinalAddsUp(inv, model, Taken(heard, room), FinalId(inv, heard), Or(LastGiven(ModelGiven, heard).GetOr(""), model),
                FinalUsage(heard), error, FinishReason(heard));
  }

  /** What else a completed response says: its model is the one the server named, or the one asked for. */
  lemma CompletedIsStamped(inv: Invocation, model: string, heard: seq<Event>, room: nat, error: Option<string>)
    requires IdsAgree(inv, heard, room)
    ensures var r := Accumulate(ZERO, Stream(inv, model, heard, room, error)).response;
      && r.model == (if ServerModel(heard) != "" then ServerModel(heard) else model)
      && r.id == (if inv.id != "" && (Taken(heard, room) != [] || UpstreamId(heard) == "") then inv.id
                  else UpstreamId(heard))
      && r.objectType == "chat.completion.chunk" && r.created == inv.created
  {
    TakenIsNumbered(heard, room);
    NamesAreLast(heard);
    FinalAddsUp(inv, model, Taken(heard, room), FinalId(inv, heard), Or(LastGiven(ModelGiven, heard).GetOr(""), model),
                FinalUsage(heard), error, FinishReason(heard));
  }

  // ------------------------------------------------------------------------------------
  // The final chunk and the end of the stream
  // ------------------------------------------------------------------------------------

  function ReportedUsage(e: Event): Option<TokenUsage> {
    match e.body
    case Completed(_, usage) => usage
    case _ => None
  }

  function ReportedCache(e: Event): Option<int> {
    if ReportedUsage(e).Some? then ReportedUsage(e).value.cached else None
  }

  function ReportedReasoning(e: Event): Option<int> {
    if ReportedUsage(e).Some? then ReportedUsage(e).value.reasoning else None
  }

  lemma {:induction false} ReportsAreGiven(heard: seq<Event>)
    ensures LastGiven(UsageGiven, heard) == LastGiven(ReportedUsage, heard)
    ensures LastGiven(CachedGiven, heard) == LastGiven(ReportedCache, heard)
    ensures LastGiven(ReasoningGiven, heard) == LastGiven(ReportedReasoning, heard)
  {
    if heard == [] {
    } else {
      ReportsAreGiven(Init(heard));
    }
  }

  /** The counts of a final usage: those of the usage reported last, with their sum if it names no total. */
  predicate CountsAre(u: Usage, t: TokenUsage) {
    u.prompt == t.input && u.completion == t.output && u.total == if t.total == 0 then t.input + t.output else t.total
  }

  lemma FinalUsageIs(heard: seq<Event>)
    ensures forall i: nat | IsLastSome(ReportedUsage, heard, i) ::
      CountsAre(FinalUsage(heard), ReportedUsage(heard[i]).value)
    ensures NeverSome(ReportedUsage, heard) ==> CountsAre(FinalUsage(heard), TokenUsage(0, 0, 0, None, None))
    ensures forall i: nat | IsLastSome(ReportedCache, heard, i) :: FinalUsage(heard).cached == ReportedCache(heard[i]).value
    ensures NeverSome(ReportedCache, heard) ==> FinalUsage(heard).cached == 0
    ensures forall i: nat | IsLastSome(ReportedReasoning, heard, i) ::
      FinalUsage(heard).reasoning == (if ReportedReasoning(heard[i]).value > 0 then ReportedReasoning(heard[i]).value else 0)
    ensures NeverSome(ReportedReasoning, heard) ==> FinalUsage(heard).reasoning == 0
    ensures FinalUsage(heard).cacheCreation == FinalUsage(heard).cacheRead == 0 && FinalUsage(heard).credit == 0.0
  {
    ReportsAreGiven(heard);
    LastSomeIs(ReportedUsage, heard);
    LastSomeIs(ReportedCache, heard);
    LastSomeIs(ReportedReasoning, heard);
  }

  lemma LastSomeIs<T(!new)>(field: Event -> Option<T>, heard: seq<Event>)
    ensures forall i: nat | IsLastSome(field, heard, i) :: LastGiven(field, heard) == field(heard[i])
    ensures NeverSome(field, heard) ==> LastGiven(field, heard) == None
  {
    forall i: nat | IsLastSome(field, heard, i) ensures LastGiven(field, heard) == field(heard[i]) {
      LastGivenAt(field, heard, i);
    }
    if NeverSome(field, heard) {
      LastGivenOfNone(field, heard);
    }
  }

  /** The reason tells whether there was a function call. */
  lemma FinishReasonIs(heard: seq<Event>)
    ensures FinishReason(heard) == if FunctionItems(heard) != [] then "tool_calls" else "stop"
  {
    FunctionItemsAreCalls(heard);
  }

  /** A failed or incomplete response ends the parse. */
  predicate EndsParse(e: Event) {
    match e.body
    case Failed(_) => true
    case Incomplete(_) => true
    case _ => false
  }

  /** No event but the last ends the parse, and no chunk but the last is refused. */
  predicate NoStopBefore(heard: seq<Event>, room: nat) {
    && (forall i | 0 <= i < |heard| - 1 :: !EndsParse(heard[i]))
    && (forall i | 0 <= i < |heard| :: |Made(heard[..i])| <= room)
  }

  lemma OneMoreHeard(before: seq<Event>, e: Event, room: nat)
    requires NoStopBefore(before, room) && |Made(before)| <= room && (before != [] ==> !EndsParse(Last(before)))
    ensures NoStopBefore(before + [e], room)
  {
    var heard := before + [e];
    forall i | 0 <= i < |heard| - 1 ensures !EndsParse(heard[i]) {
      assert heard[i] == before[i];
    }
    forall i | 0 <= i < |heard| ensures |Made(heard[..i])| <= room {
      assert heard[..i] == if i == |before| then before else before[..i];
    }
  }

  /** The events up to the first one that ends the parse or whose chunk is refused are heard. */
  lemma {:induction false} HeardUpToFirstStop(events: seq<Event>, room: nat)
    ensures var heard := UpToStop(events, room);
      && heard <= events && NoStopBefore(heard, room)
      && (heard == events || EndsParse(Last(heard)) || |Made(heard)| > room)
  {
    if events == [] {
    } else {
      var before := UpToStop(Init(events), room);
      HeardUpToFirstStop(Init(events), room);
      InitAndLast(events);
      if !Stopped(before, room) {
        OneMoreHeard(before, Last(events), room);
      }
    }
  }

  /** What the known error codes are told as. */
  const FAILURES := map[
    "context_length_exceeded" := "context window exceeded: ", "insufficient_quota" := "quota exceeded: ",
    "usage_not_included" := "usage not included: ", "invalid_prompt" := "invalid prompt: ",
    "server_is_overloaded" := "server overloaded: ", "slow_down" := "server overloaded: "]

  function Told(e: ApiError): string {
    var delay := if e.retryAfter.Some? then " (retry after " + e.retryAfter.value + ")" else "";
    var prefix :=
      if e.code in FAILURES then FAILURES[e.code]
      else if e.code == "rate_limit_exceeded" then "rate limit exceeded" + delay + ": "
      else "codex API error [" + e.code + "]: ";
    var silent :=
      if e.code == "invalid_prompt" then "Invalid request."
      else if e.code in FAILURES || e.code == "rate_limit_exceeded" then "" else "response.failed event received";
    prefix + if e.message == "" then silent else e.message
  }

  lemma FailureIsTold(e: ApiError)
    ensures FailureText(Some(e)) == Told(e) && FailureText(None) == "response.failed event received"
  {
    DelayIsTold(e.retryAfter.GetOr(""));
  }

  lemma DelayIsTold(after: string)
    ensures "rate limit exceeded" + "" + ": " == "rate limit exceeded: "
    ensures "rate limit exceeded" + (" (retry after " + after + ")") + ": " ==
            "rate limit exceeded (retry after " + after + "): "
  {
  }

  /** The error an event ends the parse with. */
  function EndError(e: Event): Option<string> {
    match e.body
    case Failed(Some(error)) => Some(Told(error))
    case Failed(None) => Some("response.failed event received")
    case Incomplete(reason) => Some("incomplete response returned, reason: " + reason)
    case _ => None
  }

  lemma EventErrorIsEnd(e: Event)
    ensures EventError(e) == EndError(e) && (EndError(e).Some? <==> EndsParse(e))
  {
    if e.body.Failed? && e.body.error.Some? {
      FailureIsTold(e.body.error.value);
    }
  }

  /** With which error the stream ends: that of the last event, or a refused Push, or a read error. */
  lemma StreamErrorIs(heard: seq<Event>, room: nat, refusal: string, readError: Option<string>)
    ensures ErrorOf(heard, room, refusal, readError) ==
      if heard != [] && EndsParse(Last(heard)) then EndError(Last(heard))
      else if |Made(heard)| > room then Some("SSE stream error: " + refusal)
      else if readError.Some? then Some("SSE stream error: " + readError.value) else None
  {
    if heard != [] {
      EventErrorIsEnd(Last(heard));
    }
  }

  lemma {:induction false} PrefixSays(ps: seq<Piece>, n: nat)
    requires n <= |ps|
    ensures TextOf(ps[..n]) <= TextOf(ps) && ReasoningOf(ps[..n]) <= ReasoningOf(ps)
  {
    if n == |ps| {
      assert ps[..n] == ps;
    } else {
      PrefixSays(Init(ps), n);
      assert Init(ps)[..n] == ps[..n];
    }
  }

  /** The message of the response, complete or not, says all that the queue took: all that was heard
      if no Push was refused, and the beginning of it otherwise. */
  lemma MessageSays(inv: Invocation, model: string, heard: seq<Event>, room: nat, error: Option<string>)
    ensures var r := Accumulate(ZERO, Stream(inv, model, heard, room, error)).response;
      && |r.choices| == 1
      && r.choices[0].message.content == TextOf(Taken(heard, room)) <= Texts(heard)
      && r.choices[0].message.reasoning == ReasoningOf(Taken(heard, room)) <= Reasonings(heard)
      && r.choices[0].message.toolCalls == CallsOf(Taken(heard, room))
      && AllFunctions(FunctionItems(heard)) && CallsOf(Taken(heard, room)) <= Numbering(FunctionItems(heard))
      && (|Made(heard)| <= room ==>
            && r.choices[0].message.content == Texts(heard)
            && r.choices[0].message.reasoning == Reasonings(heard)
            && r.choices[0].message.toolCalls == Numbering(FunctionItems(heard)))
  {
    MadeSays(heard);
    StreamAnswersIff(inv, model, heard, room, error);
    if |Made(heard)| > room {
      PrefixSays(Made(heard), room);
      PrefixCalls(Made(heard), room);
    }
  }

  /** It does happen: the upstream names its response, and the call has an id of its own. */
  lemma UsageIsLost(inv: Invocation, model: string)
    requires inv.id != "" && inv.id != "resp_1"
    ensures var heard := [
        Event("", TextDelta("hi")), Event("", Body.Completed("resp_1", Some(TokenUsage(3, 5, 8, None, None))))];
      && FinalUsage(heard).total == 8
      && Accumulate(ZERO, Stream(inv, model, heard, 2, None)).response.usage.None?
  {
    var first := Event("", TextDelta("hi"));
    var last := Event("", Body.Completed("resp_1", Some(TokenUsage(3, 5, 8, None, None))));
    assert [first, last] == [first] + [last] && [first] == [] + [first];
    CapturedNext([], first);
    CapturedNext([first], last);
    UsageNext([first], last);
    assert UpstreamId([first, last]) == "resp_1";
    StreamAnswersIff(inv, model, [first, last], 2, None);
  }

  /** The usage the stream ends with is the usage of the accumulated response if and only if the ids
      agree and no reasoning tokens were reported: those are not added up. */
  lemma UsageArrivesIff(inv: Invocation, model: string, heard: seq<Event>, room: nat, error: Option<string>)
    ensures Accumulate(ZERO, Stream(inv, model, heard, room, error)).response.usage == Some(FinalUsage(heard)) <==>
      IdsAgree(inv, heard, room) && LastGiven(ReportedReasoning, heard).GetOr(0) <= 0
  {
    ReportsAreGiven(heard);
    FirstUsage(FinalUsage(heard));
    StreamAnswersIff(inv, model, heard, room, error);
  }

  /** In every interleaving, once Each returns: the response has its usage and its finish reason, and
      GenerateContent changes nothing of it but its object type, if and only if the ids agree.
      GenerateContent calls it done in any case. */
  lemma EveryDeliveryAnswersIff(
      capacity: nat, inv: Invocation, model: string, heard: seq<Event>, room: nat, error: Option<string>,
      moves: seq<StreamDelivery.Move<Chunk>>)
    requires StreamDelivery.IsSchedule(
      StreamDelivery.Start(capacity, Stream(inv, model, heard, room, error), ZERO), moves, Add)
    ensures var s := StreamDelivery.Reach(
        StreamDelivery.Start(capacity, Stream(inv, model, heard, room, error), ZERO), moves, Add);
      var r := s.acc.response;
      s.consumer.Returned? ==>
        && (r.usage.Some? <==> IdsAgree(inv, heard, room))
        && |r.choices| == 1 && (r.choices[0].finishReason.Some? <==> IdsAgree(inv, heard, room))
        && (Generated(r) == r.(objectType := COMPLETION) <==> IdsAgree(inv, heard, room))
  {
    DeliveredIsAccumulated(capacity, Stream(inv, model, heard, room, error), moves);
    StreamAnswersIff(inv, model, heard, room, error);
    MessageSays(inv, model, heard, room, error);
  }
}
