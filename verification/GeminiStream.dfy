/** The Gemini CLI stream: decoded events in, chunks out. */
module GeminiStream {
  import opened Common
  import opened Text
  import opened Accumulator
  import opened StreamChunks

  /** `time` is what the clock says when the id of the call is drawn. */
  datatype FunctionCall = FunctionCall(name: string, args: string, time: nat)

  datatype Part = Part(text: string, thought: bool, call: Option<FunctionCall>)

  datatype Candidate = Candidate(finishReason: string, parts: seq<Part>)

  datatype UsageMetadata = UsageMetadata(prompt: int, candidates: int, total: int)

  datatype Event =
    | Unreadable
    | ApiError(code: int, message: string)
    | Empty                      // no response in it
    | Reply(modelVersion: string, candidates: seq<Candidate>, usage: Option<UsageMetadata>)

  // ------------------------------------------------------------------------------------
  // Finish reasons
  // ------------------------------------------------------------------------------------

  /** strings.ToUpper as far as a comparison with ASCII text can see it. */
  function UpperChar(c: char): char {
    if 'a' <= c <= 'z' then c - 'a' + 'A'
    else if c == '\U{17F}' then 'S'
    else if c == '\U{131}' then 'I'
    else c
  }

  function Upper(s: string): string {
    seq(|s|, i requires 0 <= i < |s| => UpperChar(s[i]))
  }

  function MapFinishReason(reason: string, hasToolCalls: bool): string {
    if hasToolCalls then "tool_calls" else
    var upper := Upper(reason);
    if upper in {"STOP", "FINISH_REASON_UNSPECIFIED", "UNKNOWN", "", "OTHER"} then "stop"
    else if upper == "MAX_TOKENS" then "length"
    else if upper in {"SAFETY", "RECITATION", "LANGUAGE", "BLOCKLIST", "PROHIBITED_CONTENT", "SPII", "IMAGE_SAFETY"}
      then "content_filter"
    else if upper in {"MALFORMED_FUNCTION_CALL", "UNEXPECTED_TOOL_CALL"} then "error"
    else "stop"
  }

  // ------------------------------------------------------------------------------------
  // What a stream says
  // ------------------------------------------------------------------------------------

  /** The events up to the first API error, which ends the parse. */
  function UpToError(events: seq<Event>): seq<Event> {
    if events == [] then []
    else
      var before := UpToError(Init(events));
      if before != [] && Last(before).ApiError? then before else before + [Last(events)]
  }

  /** Only the first candidate of a reply is looked at. */
  function PartsIn(e: Event): seq<Part> {
    if e.Reply? && e.candidates != [] then e.candidates[0].parts else []
  }

  function Parts(events: seq<Event>): seq<Part> {
    if events == [] then [] else Parts(Init(events)) + PartsIn(Last(events))
  }

  /** A part with text is text or thought, whatever else it has. */
  predicate IsCall(p: Part) {
    p.text == "" && p.call.Some?
  }

  function CallCount(parts: seq<Part>): nat {
    if parts == [] then 0 else CallCount(Init(parts)) + if IsCall(Last(parts)) then 1 else 0
  }

  /** The ids carry the processor's running number and the time at which it was drawn. */
  function ToolId(name: string, time: nat, seqNo: nat): string {
    name + "-" + Decimal(time) + "-" + Decimal(seqNo)
  }

  function CallOf(p: Part, index: nat, id: string): ToolCall
    requires p.call.Some?
  {
    ToolCall(id, "function", p.call.value.name, p.call.value.args, Some(index))
  }

  /** `drawn` ids were drawn before this stream. */
  function PieceOf(p: Part, index: nat, drawn: nat): Option<Piece> {
    if p.text != "" then Some(if p.thought then Piece.Reasoning(p.text) else Piece.Text(p.text))
    else if p.call.Some? then
      Some(Call(CallOf(p, index, ToolId(p.call.value.name, p.call.value.time, drawn + 1))))
    else None
  }

  function Pieces(parts: seq<Part>, drawn: nat): seq<Piece> {
    if parts == [] then []
    else
      var n := CallCount(Init(parts));
      Plus(Pieces(Init(parts), drawn), PieceOf(Last(parts), n, drawn + n))
  }

  const PromptCount := (e: Event) => if e.Reply? && e.usage.Some? then e.usage.value.prompt else 0
  const CandidatesCount := (e: Event) => if e.Reply? && e.usage.Some? then e.usage.value.candidates else 0
  const TotalCount := (e: Event) => if e.Reply? && e.usage.Some? then e.usage.value.total else 0

  const ReasonOf := (e: Event) => if e.Reply? && e.candidates != [] then e.candidates[0].finishReason else ""
  const VersionOf := (e: Event) => if e.Reply? then e.modelVersion else ""

  function Collected(events: seq<Event>): Usage {
    NO_USAGE.(prompt := LastPositive(PromptCount, events),
              completion := LastPositive(CandidatesCount, events),
              total := LastPositive(TotalCount, events))
  }

  /** The reported total, or the sum if none was reported. */
  function WithTotal(u: Usage): Usage {
    if u.total == 0 then u.(total := u.prompt + u.completion) else u
  }

  function ErrorText(e: Event): string
    requires e.ApiError?
  {
    "gemini API error [" + Number(e.code) + "]: " + e.message
  }

  function ErrorOf(heard: seq<Event>, readError: Option<string>): Option<string> {
    if heard != [] && Last(heard).ApiError? then Some(ErrorText(Last(heard)))
    else if readError.Some? then Some("SSE stream error: " + readError.value)
    else None
  }

  function FinalOf(inv: Invocation, heard: seq<Event>, readError: Option<string>): Chunk {
    FinalChunk(inv, Or(LastNonEmpty(VersionOf, heard), inv.model), WithTotal(Collected(heard)),
               ErrorOf(heard, readError),
               MapFinishReason(LastNonEmpty(ReasonOf, heard), CallCount(Parts(heard)) > 0))
  }

  // ------------------------------------------------------------------------------------
  // The processor
  // ------------------------------------------------------------------------------------

  function ChunkOf(inv: Invocation, model: string, p: Part, index: nat, drawn: nat): Option<Chunk> {
    var piece := PieceOf(p, index, drawn);
    if piece.Some? then Some(PieceChunk(inv, model, piece.value)) else None
  }

  lemma CountNext(parts: seq<Part>, p: Part)
    ensures CallCount(parts + [p]) == CallCount(parts) + if IsCall(p) then 1 else 0
  {
    assert Init(parts + [p]) == parts;
  }

  /** The chunks of some parts. */
  function Sent(inv: Invocation, model: string, parts: seq<Part>, drawn: nat): seq<Chunk> {
    if parts == [] then []
    else
      var n := CallCount(Init(parts));
      Plus(Sent(inv, model, Init(parts), drawn), ChunkOf(inv, model, Last(parts), n, drawn + n))
  }

  lemma SentNext(inv: Invocation, model: string, parts: seq<Part>, p: Part, drawn: nat)
    ensures Sent(inv, model, parts + [p], drawn) ==
      Plus(Sent(inv, model, parts, drawn), ChunkOf(inv, model, p, CallCount(parts), drawn + CallCount(parts)))
  {
    assert Init(parts + [p]) == parts;
  }

  lemma ChunksPlus(inv: Invocation, model: string, ps: seq<Piece>, p: Option<Piece>)
    ensures Chunks(inv, model, Plus(ps, p)) ==
      Plus(Chunks(inv, model, ps), if p.Some? then Some(PieceChunk(inv, model, p.value)) else None)
  {
    if p.Some? {
      ChunksNext(inv, model, ps, p.value);
    }
  }

  lemma {:induction false} SentIsChunks(inv: Invocation, model: string, parts: seq<Part>, drawn: nat)
    ensures Sent(inv, model, parts, drawn) == Chunks(inv, model, Pieces(parts, drawn))
  {
    if parts == [] {
    } else {
      var n := CallCount(Init(parts));
      SentIsChunks(inv, model, Init(parts), drawn);
      ChunksPlus(inv, model, Pieces(Init(parts), drawn), PieceOf(Last(parts), n, drawn + n));
    }
  }

  /** The variables that the event handler captures and updates. */
  datatype Captured = Captured(
    usage: Usage, hasToolCalls: bool, finishReason: string, modelVersion: string, toolCallIndex: nat)

  function CapturedFrom(events: seq<Event>): Captured {
    Captured(Collected(events), CallCount(Parts(events)) > 0, LastNonEmpty(ReasonOf, events),
             LastNonEmpty(VersionOf, events), CallCount(Parts(events)))
  }

  lemma CapturedNext(events: seq<Event>, e: Event)
    ensures Parts(events + [e]) == Parts(events) + PartsIn(e)
    ensures Collected(events + [e]) == Usage(
      if PromptCount(e) > 0 then PromptCount(e) else Collected(events).prompt,
      if CandidatesCount(e) > 0 then CandidatesCount(e) else Collected(events).completion,
      if TotalCount(e) > 0 then TotalCount(e) else Collected(events).total, 0, 0, 0, 0, 0.0)
    ensures LastNonEmpty(ReasonOf, events + [e]) == Or(ReasonOf(e), LastNonEmpty(ReasonOf, events))
    ensures LastNonEmpty(VersionOf, events + [e]) == Or(VersionOf(e), LastNonEmpty(VersionOf, events))
  {
    assert Init(events + [e]) == events;
  }

  lemma QuietEvent(events: seq<Event>, e: Event)
    requires !e.Reply?
    ensures Parts(events + [e]) == Parts(events) && CapturedFrom(events + [e]) == CapturedFrom(events)
  {
    CapturedNext(events, e);
  }

  method CollectUsage(before: Usage, event: Event, ghost events: seq<Event>) returns (collected: Usage)
    requires event.Reply? && before == Collected(events)
    ensures collected == Collected(events + [event])
  {
    CapturedNext(events, event);
    collected := before;
    if event.usage.Some? {
      var usage := event.usage.value;
      if usage.prompt > 0 {
        collected := collected.(prompt := usage.prompt);
      }
      if usage.candidates > 0 {
        collected := collected.(completion := usage.candidates);
      }
      if usage.total > 0 {
        collected := collected.(total := usage.total);
      }
    }
  }

  lemma {:induction false} HeardNext(events: seq<Event>, e: Event)
    requires forall e' | e' in events :: !e'.ApiError?
    ensures UpToError(events + [e]) == events + [e]
  {
    assert Init(events + [e]) == events;
    if events == [] {
    } else {
      HeardNext(Init(events), Last(events));
      assert Init(events) + [Last(events)] == events;
    }
  }

  lemma {:induction false} StaysUpToError(heard: seq<Event>, events: seq<Event>)
    requires heard <= events && heard != [] && Last(heard).ApiError? && UpToError(heard) == heard
    ensures UpToError(events) == heard
  {
    if |heard| == |events| {
      assert heard == events;
    } else {
      StaysUpToError(heard, Init(events));
    }
  }

  method FinalResponse(inv: Invocation, c: Captured, err: Option<string>, readError: Option<string>, ghost heard: seq<Event>)
    returns (finalResp: Chunk)
    requires c == CapturedFrom(heard)
    requires err == if heard != [] && Last(heard).ApiError? then Some(ErrorText(Last(heard))) else None
    ensures finalResp == FinalOf(inv, heard, readError)
  {
    var firstErr, collectedUsage := err, c.usage;
    if readError.Some? && firstErr.None? {
      firstErr := Some("SSE stream error: " + readError.value);
    }
    var finishReason := MapFinishReason(c.finishReason, c.hasToolCalls);
    if collectedUsage.total == 0 {
      collectedUsage := collectedUsage.(total := collectedUsage.prompt + collectedUsage.completion);
    }
    finalResp := FinalChunk(inv, inv.model, collectedUsage, firstErr, finishReason);
    if c.modelVersion != "" {
      finalResp := finalResp.(model := c.modelVersion);
    }
  }

  class StreamProcessor {
    const model: string
    var toolCallSeq: nat

    constructor (model: string)
      ensures this.model == model && toolCallSeq == 0
    {
      this.model, toolCallSeq := model, 0;
    }

    method ConvertPart(inv: Invocation, part: Part, toolCallIndex: nat, hasToolCalls: bool)
      returns (chunk: Option<Chunk>, index: nat, has: bool)
      modifies this`toolCallSeq
      ensures chunk == ChunkOf(inv, model, part, toolCallIndex, old(toolCallSeq))
      ensures var drawn := if IsCall(part) then 1 else 0;
        index == toolCallIndex + drawn && toolCallSeq == old(toolCallSeq) + drawn
      ensures has == (hasToolCalls || IsCall(part))
    {
      index, has := toolCallIndex, hasToolCalls;
      if part.thought && part.text != "" {
        return Some(PieceChunk(inv, model, Piece.Reasoning(part.text))), index, has;
      }
      if part.text != "" && !part.thought {
        return Some(PieceChunk(inv, model, Piece.Text(part.text))), index, has;
      }
      if part.call.Some? {
        has := true;
        toolCallSeq := toolCallSeq + 1;
        var toolID := ToolId(part.call.value.name, part.call.value.time, toolCallSeq);
        var idx := index;
        index := index + 1;
        return Some(PieceChunk(inv, model, Call(CallOf(part, idx, toolID)))), index, has;
      }
      chunk := None;
    }

    /** One part, behind `before` parts of the same stream. */
    method ConvertNext(inv: Invocation, part: Part, ghost before: seq<Part>, ghost drawn: nat,
                       toolCallIndex: nat, hasToolCalls: bool, sent: seq<Chunk>)
      returns (pushed: seq<Chunk>, index: nat, has: bool)
      requires toolCallIndex == CallCount(before) && toolCallSeq == drawn + CallCount(before)
      requires hasToolCalls == (CallCount(before) > 0) && sent == Sent(inv, model, before, drawn)
      modifies this`toolCallSeq
      ensures index == CallCount(before + [part]) && toolCallSeq == drawn + index
      ensures has == (index > 0) && pushed == Sent(inv, model, before + [part], drawn)
    {
      SentNext(inv, model, before, part, drawn);
      CountNext(before, part);
      var chunk;
      chunk, index, has := ConvertPart(inv, part, toolCallIndex, hasToolCalls);
      pushed := if chunk.Some? then sent + [chunk.value] else sent;
    }

    method ConvertParts(inv: Invocation, parts: seq<Part>, ghost before: seq<Part>, ghost drawn: nat,
                        toolCallIndex: nat, hasToolCalls: bool, sent: seq<Chunk>)
      returns (pushed: seq<Chunk>, index: nat, has: bool)
      requires toolCallIndex == CallCount(before) && toolCallSeq == drawn + CallCount(before)
      requires hasToolCalls == (CallCount(before) > 0)
      requires sent == Sent(inv, model, before, drawn)
      modifies this`toolCallSeq
      ensures index == CallCount(before + parts) && toolCallSeq == drawn + index
      ensures has == (index > 0)
      ensures pushed == Sent(inv, model, before + parts, drawn)
    {
      pushed, index, has := sent, toolCallIndex, hasToolCalls;
      ghost var all := before;
      for i := 0 to |parts|
        invariant all == before + parts[..i]
        invariant index == CallCount(all) && toolCallSeq == drawn + index
        invariant has == (index > 0)
        invariant pushed == Sent(inv, model, all, drawn)
      {
        pushed, index, has := ConvertNext(inv, parts[i], all, drawn, index, has, pushed);
        TakeNext(parts, i);
        Reassociate(before, parts[..i], [parts[i]]);
        all := all + [parts[i]];
      }
      assert parts[..|parts|] == parts;
    }

    method OnReply(inv: Invocation, captured: Captured, sent: seq<Chunk>, event: Event,
                   ghost before: seq<Event>, ghost drawn: nat)
      returns (c: Captured, pushed: seq<Chunk>)
      requires event.Reply? && captured == CapturedFrom(before)
      requires sent == Sent(inv, model, Parts(before), drawn)
      requires toolCallSeq == drawn + captured.toolCallIndex
      modifies this`toolCallSeq
      ensures c == CapturedFrom(before + [event])
      ensures pushed == Sent(inv, model, Parts(before + [event]), drawn)
      ensures toolCallSeq == drawn + c.toolCallIndex
    {
      CapturedNext(before, event);
      pushed := sent;
      var modelVersion := if event.modelVersion != "" then event.modelVersion else captured.modelVersion;
      var finishReason, index, has := captured.finishReason, captured.toolCallIndex, captured.hasToolCalls;
      assert Parts(before) + [] == Parts(before);
      if |event.candidates| > 0 {
        var candidate := event.candidates[0];
        if candidate.finishReason != "" {
          finishReason := candidate.finishReason;
        }
        pushed, index, has := ConvertParts(inv, candidate.parts, Parts(before), drawn, index, has, sent);
      }
      var usage := CollectUsage(captured.usage, event, before);
      c := Captured(usage, has, finishReason, modelVersion, index);
    }

    /** Returns the chunks in the order in which Push is called; the result of Push is ignored. */
    method Process(inv: Invocation, events: seq<Event>, readError: Option<string>) returns (pushed: seq<Chunk>)
      modifies this`toolCallSeq
      ensures var heard := UpToError(events);
        pushed == Sent(inv, model, Parts(heard), old(toolCallSeq)) + [FinalOf(inv, heard, readError)]
      ensures toolCallSeq == old(toolCallSeq) + CallCount(Parts(UpToError(events)))
    {
      var captured, firstErr := Captured(NO_USAGE, false, "", "", 0), None;
      pushed := [];
      ghost var heard: seq<Event> := [];
      for i := 0 to |events|
        invariant heard == events[..i] && firstErr.None?
        invariant forall e | e in heard :: !e.ApiError?
        invariant UpToError(heard) == heard
        invariant captured == CapturedFrom(heard)
        invariant toolCallSeq == old(toolCallSeq) + captured.toolCallIndex
        invariant pushed == Sent(inv, model, Parts(heard), old(toolCallSeq))
      {
        var event := events[i];
        ghost var before := heard;
        HeardNext(before, event);
        TakeNext(events, i);
        heard := before + [event];
        if event.Reply? {
          captured, pushed := OnReply(inv, captured, pushed, event, before, old(toolCallSeq));
        } else {
          QuietEvent(before, event);
          if event.ApiError? {
            firstErr := Some(ErrorText(event));
            StaysUpToError(heard, events);
            break;
          }
        }
      }
      assert firstErr.None? ==> heard == events;
      var finalResp := FinalResponse(inv, captured, firstErr, readError, heard);
      pushed := pushed + [finalResp];
    }
  }
}
