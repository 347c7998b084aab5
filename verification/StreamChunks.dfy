/** The chunks that a provider makes out of a stream, and what the accumulator makes of them. */
module StreamChunks {
  import opened Common
  import opened Accumulator
  import StreamDelivery

  /** What every chunk of one call is stamped with. */
  datatype Invocation = Invocation(id: string, model: string, created: int, promptTokens: int)

  const ASSISTANT := "assistant"

  function NewResponse(inv: Invocation): Chunk {
    Response(inv.id, "chat.completion.chunk", inv.created, inv.model, [], None, None, None, false, true)
  }

  function ErrorField(error: Option<string>): Option<ResponseError> {
    if error.Some? then Some(ResponseError(error.value, "")) else None
  }

  /** The last chunk of a stream; an error is carried by it too. */
  function FinalChunk(inv: Invocation, model: string, usage: Usage, error: Option<string>, finishReason: string)
    : Chunk
  {
    NewResponse(inv).(
      model := model, usage := Some(usage), done := true, isPartial := false,
      error := ErrorField(error),
      choices := [Choice(0, NO_MESSAGE, NO_MESSAGE, Some(finishReason))])
  }

  /** What one chunk of a stream carries. */
  datatype Piece = Text(text: string) | Reasoning(text: string) | Call(call: ToolCall)

  function PieceMessage(p: Piece): Message {
    match p
    case Text(text) => Message(ASSISTANT, text, "", [])
    case Reasoning(text) => Message(ASSISTANT, "", text, [])
    case Call(call) => Message(ASSISTANT, "", "", [call])
  }

  function PieceChunk(inv: Invocation, model: string, p: Piece): Chunk {
    NewResponse(inv).(model := model, choices := [Choice(0, NO_MESSAGE, PieceMessage(p), None)])
  }

  /** Field by field: the chunks of a stream are partial, the final one is done. */
  lemma ChunksAre(inv: Invocation, model: string, p: Piece, usage: Usage, error: Option<string>, finishReason: string)
    ensures var c := PieceChunk(inv, model, p);
      && c.choices == [Choice(0, NO_MESSAGE, c.choices[0].delta, None)] && c.choices[0].delta.role == "assistant"
      && c == Response(inv.id, "chat.completion.chunk", inv.created, model, c.choices, None, None, None, false, true)
    ensures FinalChunk(inv, model, usage, error, finishReason) ==
            Response(inv.id, "chat.completion.chunk", inv.created, model,
                     [Choice(0, NO_MESSAGE, NO_MESSAGE, Some(finishReason))], Some(usage), None, ShownError(error), true, false)
  {
  }

  function Chunks(inv: Invocation, model: string, ps: seq<Piece>): seq<Chunk> {
    if ps == [] then [] else Chunks(inv, model, Init(ps)) + [PieceChunk(inv, model, Last(ps))]
  }

  lemma ChunksNext(inv: Invocation, model: string, ps: seq<Piece>, p: Piece)
    ensures Chunks(inv, model, ps + [p]) == Chunks(inv, model, ps) + [PieceChunk(inv, model, p)]
  {
    assert Init(ps + [p]) == ps;
  }

  function TextOf(ps: seq<Piece>): string {
    if ps == [] then "" else TextOf(Init(ps)) + if Last(ps).Text? then Last(ps).text else ""
  }

  function ReasoningOf(ps: seq<Piece>): string {
    if ps == [] then "" else ReasoningOf(Init(ps)) + if Last(ps).Reasoning? then Last(ps).text else ""
  }

  function CallsOf(ps: seq<Piece>): seq<ToolCall> {
    if ps == [] then [] else CallsOf(Init(ps)) + if Last(ps).Call? then [Last(ps).call] else []
  }

  /** The calls of a stream are numbered 0, 1, 2, ... in order. */
  predicate Numbered(calls: seq<ToolCall>) {
    forall k | 0 <= k < |calls| :: calls[k].index == Some(k)
  }

  // ------------------------------------------------------------------------------------
  // The accumulated response
  // ------------------------------------------------------------------------------------

  function Said(ps: seq<Piece>, finishReason: Option<string>): Choice {
    Choice(0, Message("assistant", TextOf(ps), ReasoningOf(ps), CallsOf(ps)), NO_MESSAGE, finishReason)
  }

  /** What the accumulator holds after the pieces of a stream. */
  function Heard(inv: Invocation, model: string, ps: seq<Piece>): Chunk {
    if ps == [] then NO_RESPONSE
    else Response(inv.id, "chat.completion.chunk", inv.created, model, [Said(ps, None)],
                  None, None, None, false, false)
  }

  lemma PieceSays(ps: seq<Piece>)
    requires ps != []
    ensures var m := PieceMessage(Last(ps));
      && TextOf(ps) == TextOf(Init(ps)) + m.content
      && ReasoningOf(ps) == ReasoningOf(Init(ps)) + m.reasoning
      && CallsOf(ps) == CallsOf(Init(ps)) + m.toolCalls
  {
  }

  lemma AddNumbered(before: seq<ToolCall>, more: seq<ToolCall>)
    requires |more| <= 1 && Numbered(before + more)
    ensures AddTools(before, more) == before + more
  {
    if more == [] {
      assert before + more == before;
    } else {
      var call := more[0];
      assert (before + more)[|before|] == call;
      assert "" + call.args == call.args;
      assert AddTool(before, call) == before + [call];
      assert more == [call] && Init(more) == [];
    }
  }

  lemma AddPiece(inv: Invocation, model: string, ps: seq<Piece>)
    requires ps != [] && Numbered(CallsOf(ps))
    ensures Merge(Heard(inv, model, Init(ps)), PieceChunk(inv, model, Last(ps))) == Heard(inv, model, ps)
  {
    var before, d := Init(ps), Choice(0, NO_MESSAGE, PieceMessage(Last(ps)), None);
    PieceSays(ps);
    AddNumbered(CallsOf(before), d.delta.toolCalls);
    assert ToolDeltas(d) == d.delta.toolCalls;
    var c := if before == [] then NO_CHOICE else Said(before, None);
    assert MergeChoice(c, d) == Said(ps, None);
    assert [d] != [] && Init([d]) == [];
    assert AddChoices(if before == [] then [] else [c], [d]) == [Said(ps, None)];
  }

  /** The pieces of one stream add up: the text and the reasoning are concatenated, and the k-th
      call is the k-th tool call of the response. */
  lemma {:induction false} PiecesAddUp(inv: Invocation, model: string, ps: seq<Piece>)
    requires Numbered(CallsOf(ps))
    ensures Accumulate(ZERO, Chunks(inv, model, ps)).response == Heard(inv, model, ps)
  {
    if ps == [] {
    } else {
      assert forall k | 0 <= k < |CallsOf(Init(ps))| :: CallsOf(Init(ps))[k] == CallsOf(ps)[k];
      PiecesAddUp(inv, model, Init(ps));
      AddPiece(inv, model, ps);
      assert Init(Chunks(inv, model, ps)) == Chunks(inv, model, Init(ps));
    }
  }

  /** The accumulator takes the final chunk if no id stands against its own. */
  predicate FinalAccepted(inv: Invocation, ps: seq<Piece>, finalId: string) {
    ps == [] || inv.id == "" || finalId == "" || finalId == inv.id
  }

  /** A usage as the response shows it: reasoning tokens are not accumulated, nor is a credit that is not
      positive. */
  function ShownUsage(u: Usage): Usage {
    u.(reasoning := 0, credit := if u.credit > 0.0 then u.credit else 0.0)
  }

  lemma FirstUsage(u: Usage)
    ensures AddUsage(None, Some(u)) == Some(ShownUsage(u))
  {
  }

  function ShownError(error: Option<string>): Option<ResponseError> {
    match error
    case Some(text) => Some(ResponseError(text, ""))
    case None => None
  }

  /** The response with its final chunk. */
  ghost predicate Completed(
      r: Chunk, ps: seq<Piece>, usage: Usage, error: Option<string>, finishReason: string)
  {
    && r.usage == Some(ShownUsage(usage))
    && r.error == ShownError(error)
    && r.done && !r.isPartial
    && |r.choices| == 1
    && r.choices[0].finishReason == Some(finishReason)
    && r.choices[0].message == (if ps == [] then NO_MESSAGE else Said(ps, None).message)
  }

  /** A chunk at the end of a stream is accepted and merged, or leaves no trace. */
  lemma OneMoreChunk(inv: Invocation, model: string, ps: seq<Piece>, c: Chunk)
    requires Numbered(CallsOf(ps))
    ensures Accumulate(ZERO, Chunks(inv, model, ps) + [c]).response ==
      if FinalAccepted(inv, ps, c.id) then Merge(Heard(inv, model, ps), c) else Heard(inv, model, ps)
  {
    var all := Chunks(inv, model, ps) + [c];
    assert Init(all) == Chunks(inv, model, ps) && Last(all) == c;
    PiecesAddUp(inv, model, ps);
    assert Accepts(Heard(inv, model, ps), c) <==> FinalAccepted(inv, ps, c.id);
  }

  lemma MergeFinal(inv: Invocation, model: string, ps: seq<Piece>, final: Chunk)
    requires |final.choices| == 1 && final.choices[0].finishReason.Some?
    requires final.choices[0] == Choice(0, NO_MESSAGE, NO_MESSAGE, final.choices[0].finishReason)
    ensures Merge(Heard(inv, model, ps), final).choices ==
      [(if ps == [] then NO_CHOICE else Said(ps, None)).(finishReason := final.choices[0].finishReason)]
  {
    var r, d := Heard(inv, model, ps), final.choices[0];
    assert Init(final.choices) == [];
    assert AddChoices(r.choices, final.choices) == AddChoice(r.choices, d);
    var c := if ps == [] then NO_CHOICE else Said(ps, None);
    assert MergeChoice(c, d) == c.(finishReason := d.finishReason);
  }

  /** The final chunk completes the response exactly if it is accepted; if it is not, its usage,
      finish reason and error are lost. */
  lemma FinalAddsUp(inv: Invocation, model: string, ps: seq<Piece>, finalId: string, finalModel: string,
                    usage: Usage, error: Option<string>, finishReason: string)
    requires Numbered(CallsOf(ps))
    ensures var final := FinalChunk(inv, finalModel, usage, error, finishReason).(id := finalId);
      var r := Accumulate(ZERO, Chunks(inv, model, ps) + [final]).response;
      if FinalAccepted(inv, ps, finalId) then Completed(r, ps, usage, error, finishReason)
      else r == Heard(inv, model, ps) && r.usage.None? && !r.done
    ensures FinalAccepted(inv, ps, finalId) ==>
      var final := FinalChunk(inv, finalModel, usage, error, finishReason).(id := finalId);
      var r := Accumulate(ZERO, Chunks(inv, model, ps) + [final]).response;
      && r.id == (if ps != [] && inv.id != "" then inv.id else finalId)
      && r.model == (if finalModel != "" || ps == [] then finalModel else model)
      && r.objectType == "chat.completion.chunk" && r.created == inv.created && r.fingerprint.None?
  {
    var final := FinalChunk(inv, finalModel, usage, error, finishReason).(id := finalId);
    OneMoreChunk(inv, model, ps, final);
    MergeFinal(inv, model, ps, final);
    FirstUsage(usage);
  }

  // ------------------------------------------------------------------------------------
  // Through the queue
  // ------------------------------------------------------------------------------------

  const Add := (s: State, c: Chunk) => AddChunk(s, c)

  lemma {:induction false} FoldIsAccumulate(chunks: seq<Chunk>)
    ensures StreamDelivery.Fold(Add, ZERO, chunks) == Accumulate(ZERO, chunks)
  {
    if chunks == [] {
    } else {
      FoldIsAccumulate(Init(chunks));
    }
  }

  const COMPLETION := "chat.completion"

  /** What GenerateContent returns of the accumulated response: marked as complete, whatever was
      accumulated. */
  function Generated(r: Chunk): Chunk {
    r.(objectType := COMPLETION, isPartial := false, done := true)
  }

  /** However producer and consumer interleave, and whatever the capacity, what GenerateContent has
      accumulated when Each returns is what the chunks add up to in order. */
  lemma DeliveredIsAccumulated(capacity: nat, chunks: seq<Chunk>, moves: seq<StreamDelivery.Move<Chunk>>)
    requires StreamDelivery.IsSchedule(StreamDelivery.Start(capacity, chunks, ZERO), moves, Add)
    ensures var s := StreamDelivery.Reach(StreamDelivery.Start(capacity, chunks, ZERO), moves, Add);
      s.consumer.Returned? ==> s.acc == Accumulate(ZERO, chunks)
  {
    StreamDelivery.EachReturnsEverything(capacity, chunks, moves, ZERO, Add);
    FoldIsAccumulate(chunks);
  }

  /** And a stream always gets that far: when nothing can move any more, both goroutines have ended
      and every chunk has been accumulated, in order, exactly once. */
  lemma EveryStreamArrives(capacity: nat, chunks: seq<Chunk>, moves: seq<StreamDelivery.Move<Chunk>>)
    requires StreamDelivery.IsSchedule(StreamDelivery.Start(capacity, chunks, ZERO), moves, Add)
    requires forall m: StreamDelivery.Move<Chunk> ::
      !StreamDelivery.CanMove(StreamDelivery.Reach(StreamDelivery.Start(capacity, chunks, ZERO), moves, Add), m)
    ensures var s := StreamDelivery.Reach(StreamDelivery.Start(capacity, chunks, ZERO), moves, Add);
      StreamDelivery.Finished(s) && s.acc == Accumulate(ZERO, chunks)
  {
    StreamDelivery.MaximalSchedulesDeliverAll(capacity, chunks, moves, ZERO, Add);
    FoldIsAccumulate(chunks);
  }
}
