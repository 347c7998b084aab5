/** What the caller of a Gemini stream ends up with. */
module GeminiAnswer {
  import opened Common
  import opened Text
  import opened Accumulator
  import opened StreamChunks
  import opened GeminiStream
  import StreamDelivery

  /** The text of the parts that have any, thoughts or not. */
  function Texts(parts: seq<Part>, thought: bool): string {
    if parts == [] then ""
    else Texts(Init(parts), thought) + if Last(parts).thought == thought then Last(parts).text else ""
  }

  function FunctionCalls(parts: seq<Part>): seq<FunctionCall> {
    if parts == [] then []
    else FunctionCalls(Init(parts)) +
         if |Last(parts).text| == 0 && Last(parts).call.Some? then [Last(parts).call.value] else []
  }

  lemma {:induction false} PiecesSay(parts: seq<Part>, drawn: nat)
    ensures TextOf(Pieces(parts, drawn)) == Texts(parts, false)
    ensures ReasoningOf(Pieces(parts, drawn)) == Texts(parts, true)
  {
    if parts == [] {
    } else {
      PiecesSay(Init(parts), drawn);
      var before, p := Pieces(Init(parts), drawn), Last(parts);
      var piece := PieceOf(p, CallCount(Init(parts)), drawn + CallCount(Init(parts)));
      if piece.Some? {
        assert Init(before + [piece.value]) == before;
      }
    }
  }

  /** The tool call that the k-th function call becomes. */
  function KthCall(call: FunctionCall, k: nat, drawn: nat): ToolCall {
    ToolCall(call.name + "-" + Decimal(call.time) + "-" + Decimal(drawn + k + 1), "function",
             call.name, call.args, Some(k))
  }

  function Numbering(calls: seq<FunctionCall>, drawn: nat): seq<ToolCall> {
    seq(|calls|, k requires 0 <= k < |calls| => KthCall(calls[k], k, drawn))
  }

  lemma NumberingNext(calls: seq<FunctionCall>, call: FunctionCall, drawn: nat)
    ensures Numbering(calls + [call], drawn) == Numbering(calls, drawn) + [KthCall(call, |calls|, drawn)]
  {
  }

  lemma PieceIsKthCall(p: Part, n: nat, drawn: nat)
    requires IsCall(p)
    ensures PieceOf(p, n, drawn + n) == Some(Call(KthCall(p.call.value, n, drawn)))
  {
  }

  lemma CallsPlus(ps: seq<Piece>, p: Option<Piece>)
    ensures CallsOf(Plus(ps, p)) == CallsOf(ps) + if p.Some? && p.value.Call? then [p.value.call] else []
  {
    if p.Some? {
      assert Init(ps + [p.value]) == ps;
    }
  }

  /** There are as many tool calls as function calls, so indexes run from 0 without gaps. */
  lemma {:induction false} CallsAreCounted(parts: seq<Part>)
    ensures |FunctionCalls(parts)| == CallCount(parts)
  {
    if parts == [] {
    } else {
      CallsAreCounted(Init(parts));
    }
  }

  /** The k-th function call of the parts is call k of the stream. */
  lemma {:induction false} CallsAreNumbered(parts: seq<Part>, drawn: nat)
    ensures CallsOf(Pieces(parts, drawn)) == Numbering(FunctionCalls(parts), drawn)
  {
    if parts == [] {
    } else {
      var p, n := Last(parts), CallCount(Init(parts));
      CallsAreCounted(Init(parts));
      CallsAreNumbered(Init(parts), drawn);
      CallsPlus(Pieces(Init(parts), drawn), PieceOf(p, n, drawn + n));
      if IsCall(p) {
        PieceIsKthCall(p, n, drawn);
        NumberingNext(FunctionCalls(Init(parts)), p.call.value, drawn);
      }
    }
  }

  /** All text and thoughts in order, and the k-th function call as the k-th tool call. */
  ghost predicate Says(m: Message, parts: seq<Part>, drawn: nat) {
    && m.content == Texts(parts, false)
    && m.reasoning == Texts(parts, true)
    && m.toolCalls == Numbering(FunctionCalls(parts), drawn)
  }

  lemma NumberingIsNumbered(calls: seq<FunctionCall>, drawn: nat)
    ensures Numbered(Numbering(calls, drawn))
  {
  }

  lemma PiecesAreNumbered(parts: seq<Part>, drawn: nat)
    ensures Numbered(CallsOf(Pieces(parts, drawn)))
  {
    CallsAreNumbered(parts, drawn);
    NumberingIsNumbered(FunctionCalls(parts), drawn);
  }

  lemma PiecesMessageSays(parts: seq<Part>, drawn: nat)
    ensures Says(Message(ASSISTANT, TextOf(Pieces(parts, drawn)), ReasoningOf(Pieces(parts, drawn)),
                         CallsOf(Pieces(parts, drawn))), parts, drawn)
    ensures Pieces(parts, drawn) == [] ==> Says(NO_MESSAGE, parts, drawn)
  {
    CallsAreNumbered(parts, drawn);
    PiecesSay(parts, drawn);
  }

  lemma PartsAnswer(inv: Invocation, model: string, parts: seq<Part>, drawn: nat, finalModel: string,
                    usage: Usage, error: Option<string>, finishReason: string)
    ensures var final := FinalChunk(inv, finalModel, usage, error, finishReason);
      var r := Accumulate(ZERO, Sent(inv, model, parts, drawn) + [final]).response;
      && Completed(r, Pieces(parts, drawn), usage, error, finishReason) && Says(r.choices[0].message, parts, drawn)
      && r.id == inv.id && r.created == inv.created && r.objectType == "chat.completion.chunk" && r.fingerprint.None?
      && (finalModel != "" ==> r.model == finalModel)
  {
    SentIsChunks(inv, model, parts, drawn);
    PiecesAreNumbered(parts, drawn);
    FinalAddsUp(inv, model, Pieces(parts, drawn), inv.id, finalModel, usage, error, finishReason);
    PiecesMessageSays(parts, drawn);
  }

  lemma GeminiUsage(heard: seq<Event>)
    ensures ShownUsage(WithTotal(Collected(heard))) == WithTotal(Collected(heard))
  {
  }

  // ------------------------------------------------------------------------------------
  // What was heard
  // ------------------------------------------------------------------------------------

  /** The first candidate of an event. */
  function FirstCandidate(e: Event): Option<Candidate> {
    match e
    case Reply(_, candidates, _) => if |candidates| > 0 then Some(candidates[0]) else None
    case _ => None
  }

  function FirstParts(e: Event): seq<Part> {
    if FirstCandidate(e).Some? then FirstCandidate(e).value.parts else []
  }

  function FirstReason(e: Event): string {
    if FirstCandidate(e).Some? then FirstCandidate(e).value.finishReason else ""
  }

  function Version(e: Event): string {
    match e
    case Reply(version, _, _) => version
    case _ => ""
  }

  function UsageIn(e: Event): UsageMetadata {
    match e
    case Reply(_, _, Some(usage)) => usage
    case _ => UsageMetadata(0, 0, 0)
  }

  /** All parts of the first candidates. */
  function AllParts(events: seq<Event>): seq<Part> {
    Flatten(Mapped(FirstParts, events))
  }

  lemma {:induction false} PartsAreFirst(events: seq<Event>)
    ensures Parts(events) == AllParts(events)
    ensures LastNonEmpty(ReasonOf, events) == LastNonEmpty(FirstReason, events)
    ensures LastNonEmpty(VersionOf, events) == LastNonEmpty(Version, events)
  {
    if events == [] {
    } else {
      PartsAreFirst(Init(events));
      MappedLast(FirstParts, events);
    }
  }

  lemma CallsAreAsked(events: seq<Event>)
    ensures CallCount(Parts(events)) > 0 <==> FunctionCalls(AllParts(events)) != []
  {
    PartsAreFirst(events);
    CallsAreCounted(Parts(events));
  }

  function PromptIn(e: Event): int { UsageIn(e).prompt }

  function CandidatesIn(e: Event): int { UsageIn(e).candidates }

  function TotalIn(e: Event): int { UsageIn(e).total }

  lemma CountsAreIn(e: Event)
    ensures PromptCount(e) == PromptIn(e) && CandidatesCount(e) == CandidatesIn(e) && TotalCount(e) == TotalIn(e)
  {
  }

  /** The counts of the final usage: the last positive ones, and the sum if no total was reported. */
  ghost predicate CountsAre(u: Usage, heard: seq<Event>) {
    && Leaves(PromptIn, heard, 0, u.prompt)
    && Leaves(CandidatesIn, heard, 0, u.completion)
    && Leaves(TotalIn, heard, u.prompt + u.completion, u.total)
    && u == NO_USAGE.(prompt := u.prompt, completion := u.completion, total := u.total)
  }

  lemma FinalCounts(heard: seq<Event>)
    ensures CountsAre(WithTotal(Collected(heard)), heard)
  {
    var u := WithTotal(Collected(heard));
    forall e: Event {
      CountsAreIn(e);
    }
    CountIs(PromptCount, PromptIn, heard, 0);
    CountIs(CandidatesCount, CandidatesIn, heard, 0);
    CountIs(TotalCount, TotalIn, heard, u.prompt + u.completion);
  }

  predicate NoErrorBefore(heard: seq<Event>) {
    forall i | 0 <= i < |heard| - 1 :: !heard[i].ApiError?
  }

  lemma OneMoreHeard(before: seq<Event>, e: Event)
    requires NoErrorBefore(before) && (before != [] ==> !Last(before).ApiError?)
    ensures NoErrorBefore(before + [e])
  {
  }

  /** An API error ends the parse: no event but the last is one, and there are no more events behind it. */
  lemma {:induction false} HeardUpToFirstError(events: seq<Event>)
    ensures var heard := UpToError(events);
      heard <= events && NoErrorBefore(heard) && (heard == events || Last(heard).ApiError?)
  {
    if events == [] {
    } else {
      var before := UpToError(Init(events));
      HeardUpToFirstError(Init(events));
      InitAndLast(events);
      if before == [] || !Last(before).ApiError? {
        OneMoreHeard(before, Last(events));
      }
    }
  }

  /** The error a stream ends with. */
  function EndError(heard: seq<Event>, readError: Option<string>): Option<string> {
    if heard != [] && Last(heard).ApiError? then
      Some("gemini API error [" + Number(Last(heard).code) + "]: " + Last(heard).message)
    else match readError
      case Some(text) => Some("SSE stream error: " + text)
      case None => None
  }

  /** The stamp of the invocation, and the model version last named or else the model asked for. */
  predicate HasModel(r: Chunk, inv: Invocation, version: string) {
    && r.id == inv.id && r.created == inv.created && r.objectType == "chat.completion.chunk" && r.fingerprint.None?
    && (version != "" ==> r.model == version)
    && (version == "" && inv.model != "" ==> r.model == inv.model)
  }

  /** The response answers what was heard: the message says it, and there are the last positive
      counts, the mapped finish reason, the error if any, and the model version last named. */
  ghost predicate Answers(r: Chunk, inv: Invocation, heard: seq<Event>, readError: Option<string>, drawn: nat) {
    && r.usage.Some? && CountsAre(r.usage.value, heard)
    && (match EndError(heard, readError)
        case Some(text) => r.error == Some(ResponseError(text, ""))
        case None => r.error.None?)
    && r.done && !r.isPartial
    && |r.choices| == 1
    && r.choices[0].finishReason ==
       Some(ReasonFor(LastNonEmpty(FirstReason, heard), FunctionCalls(AllParts(heard)) != []))
    && Says(r.choices[0].message, AllParts(heard), drawn)
    && HasModel(r, inv, LastNonEmpty(Version, heard))
  }

  /** The chunks StreamProcessor.Process pushes. */
  function Stream(inv: Invocation, model: string, heard: seq<Event>, readError: Option<string>, drawn: nat): seq<Chunk> {
    Sent(inv, model, Parts(heard), drawn) + [FinalOf(inv, heard, readError)]
  }

  /** The final chunk completes the response. */
  ghost predicate Completes(r: Chunk, inv: Invocation, heard: seq<Event>, readError: Option<string>, drawn: nat) {
    && Completed(r, Pieces(Parts(heard), drawn), WithTotal(Collected(heard)), ErrorOf(heard, readError),
                 MapFinishReason(LastNonEmpty(ReasonOf, heard), CallCount(Parts(heard)) > 0))
    && Says(r.choices[0].message, Parts(heard), drawn)
    && HasModel(r, inv, LastNonEmpty(VersionOf, heard))
  }

  lemma StreamCompletes(inv: Invocation, model: string, heard: seq<Event>, readError: Option<string>, drawn: nat)
    ensures Completes(Accumulate(ZERO, Stream(inv, model, heard, readError, drawn)).response, inv, heard, readError, drawn)
  {
    PartsAnswer(inv, model, Parts(heard), drawn, Or(LastNonEmpty(VersionOf, heard), inv.model),
                WithTotal(Collected(heard)), ErrorOf(heard, readError),
                MapFinishReason(LastNonEmpty(ReasonOf, heard), CallCount(Parts(heard)) > 0));
  }

  lemma CompletedAnswers(r: Chunk, inv: Invocation, heard: seq<Event>, readError: Option<string>, drawn: nat)
    requires Completes(r, inv, heard, readError, drawn)
    ensures Answers(r, inv, heard, readError, drawn)
  {
    GeminiUsage(heard);
    FinalCounts(heard);
    PartsAreFirst(heard);
    CallsAreAsked(heard);
    ReasonIsMapped(LastNonEmpty(FirstReason, heard), FunctionCalls(AllParts(heard)) != []);
  }

  lemma StreamAnswers(inv: Invocation, model: string, events: seq<Event>, readError: Option<string>, drawn: nat)
    ensures var heard := UpToError(events);
      Answers(Accumulate(ZERO, Stream(inv, model, heard, readError, drawn)).response, inv, heard, readError, drawn)
  {
    var heard := UpToError(events);
    StreamCompletes(inv, model, heard, readError, drawn);
    CompletedAnswers(Accumulate(ZERO, Stream(inv, model, heard, readError, drawn)).response, inv, heard, readError, drawn);
  }

  /** The end-to-end guarantee: in every interleaving of the stream's producer and Each, over a queue
      of any capacity, once Each returns the accumulated response answers what was heard, and
      GenerateContent changes nothing of it but its object type. */
  lemma EveryDeliveryAnswers(
      capacity: nat, inv: Invocation, model: string, events: seq<Event>, readError: Option<string>, drawn: nat,
      moves: seq<StreamDelivery.Move<Chunk>>)
    requires StreamDelivery.IsSchedule(
      StreamDelivery.Start(capacity, Stream(inv, model, UpToError(events), readError, drawn), ZERO), moves, Add)
    ensures var start := StreamDelivery.Start(capacity, Stream(inv, model, UpToError(events), readError, drawn), ZERO);
      var s := StreamDelivery.Reach(start, moves, Add);
      s.consumer.Returned? ==>
        && Answers(s.acc.response, inv, UpToError(events), readError, drawn)
        && Generated(s.acc.response) == s.acc.response.(objectType := COMPLETION)
  {
    DeliveredIsAccumulated(capacity, Stream(inv, model, UpToError(events), readError, drawn), moves);
    StreamAnswers(inv, model, events, readError, drawn);
  }

  // ------------------------------------------------------------------------------------
  // Ids
  // ------------------------------------------------------------------------------------

  lemma {:induction false} DecimalIsDigits(n: nat)
    ensures Decimal(n) != "" && '-' !in Decimal(n)
  {
    assert '-' !in "0123456789";
    if n < 10 {
    } else {
      DecimalIsDigits(n / 10);
    }
  }

  lemma LastDigit(n: nat)
    requires n >= 10
    ensures Decimal(n) != "" && Init(Decimal(n)) == Decimal(n / 10) && Last(Decimal(n)) == "0123456789"[n % 10]
  {
  }

  lemma DigitDecides(m: nat, n: nat)
    requires m < 10 && n < 10 && "0123456789"[m] == "0123456789"[n]
    ensures m == n
  {
  }

  lemma LongerDecimal(n: nat)
    ensures n < 10 <==> |Decimal(n)| == 1
  {
    DecimalIsDigits(n / 10);
  }

  lemma {:induction false} DecimalDecides(m: nat, n: nat)
    requires Decimal(m) == Decimal(n)
    ensures m == n
  {
    LongerDecimal(m);
    LongerDecimal(n);
    if m < 10 {
      DigitDecides(m, n);
    } else {
      LastDigit(m);
      LastDigit(n);
      DecimalDecides(m / 10, n / 10);
      DigitDecides(m % 10, n % 10);
    }
  }

  /** Whatever the names and times, ids with different running numbers differ: no two tool calls of
      one processor share an id. */
  lemma IdsDiffer(name: string, time: nat, m: nat, name': string, time': nat, n: nat)
    requires m != n
    ensures ToolId(name, time, m) != ToolId(name', time', n)
  {
    var a, b := name + "-" + Decimal(time), name' + "-" + Decimal(time');
    if a + "-" + Decimal(m) == b + "-" + Decimal(n) {
      DecimalIsDigits(m);
      DecimalIsDigits(n);
      SameLastField(a, Decimal(m), b, Decimal(n));
      DecimalDecides(m, n);
    }
  }

  lemma SameLastField(a: string, x: string, b: string, y: string)
    requires a + "-" + x == b + "-" + y && '-' !in x && '-' !in y
    ensures x == y
  {
    var s := a + "-" + x;
    assert s == b + "-" + y;
    assert s[|a|] == '-' && s[|b|] == '-';
    assert forall i | |a| < i < |s| :: s[i] == x[i - |a| - 1];
    assert forall i | |b| < i < |s| :: s[i] == y[i - |b| - 1];
    assert |a| == |b|;
    assert x == s[|a| + 1..];
  }

  lemma CallIdsAreDistinct(calls: seq<FunctionCall>, drawn: nat, calls': seq<FunctionCall>, drawn': nat, i: nat, j: nat)
    requires i < |calls| && j < |calls'| && drawn + i != drawn' + j
    ensures Numbering(calls, drawn)[i].id != Numbering(calls', drawn')[j].id
  {
    IdsDiffer(calls[i].name, calls[i].time, drawn + i + 1, calls'[j].name, calls'[j].time, drawn' + j + 1);
  }

  // ------------------------------------------------------------------------------------
  // Finish reasons
  // ------------------------------------------------------------------------------------

  /** One letter of a reason, in either case; two more characters have 'S' and 'I' as their capitals. */
  predicate SameLetter(c: char, capital: char) {
    || c == capital
    || ('A' <= capital <= 'Z' && c == capital - 'A' + 'a')
    || (capital == 'S' && c == '\U{17F}') || (capital == 'I' && c == '\U{131}')
  }

  predicate IsReason(reason: string, word: string) {
    |reason| == |word| && forall i | 0 <= i < |word| :: SameLetter(reason[i], word[i])
  }

  const CUT_SHORT := ["MAX_TOKENS"]
  const FILTERED := ["SAFETY", "RECITATION", "LANGUAGE", "BLOCKLIST", "PROHIBITED_CONTENT", "SPII", "IMAGE_SAFETY"]
  const MALFORMED := ["MALFORMED_FUNCTION_CALL", "UNEXPECTED_TOOL_CALL"]

  predicate IsOneOf(reason: string, words: seq<string>) {
    exists i :: 0 <= i < |words| && IsReason(reason, words[i])
  }

  /** What a reason is mapped to, whatever its case; one that is not known is an ordinary end. */
  function ReasonFor(reason: string, hasToolCalls: bool): string {
    if hasToolCalls then "tool_calls"
    else if IsOneOf(reason, CUT_SHORT) then "length"
    else if IsOneOf(reason, FILTERED) then "content_filter"
    else if IsOneOf(reason, MALFORMED) then "error"
    else "stop"
  }

  lemma UpperIsReason(reason: string, word: string)
    requires forall c | c in word :: 'A' <= c <= 'Z' || c == '_'
    ensures Upper(reason) == word <==> IsReason(reason, word)
  {
    if |reason| == |word| {
      assert forall i | 0 <= i < |word| :: word[i] in word;
      assert forall i | 0 <= i < |word| :: UpperChar(reason[i]) == word[i] <==> SameLetter(reason[i], word[i]);
    }
  }

  lemma UpperIsOneOf(reason: string, words: seq<string>)
    requires forall i | 0 <= i < |words| :: forall c | c in words[i] :: 'A' <= c <= 'Z' || c == '_'
    ensures Upper(reason) in words <==> IsOneOf(reason, words)
  {
    forall i | 0 <= i < |words| ensures Upper(reason) == words[i] <==> IsReason(reason, words[i]) {
      UpperIsReason(reason, words[i]);
    }
  }

  lemma WordsAre(word: string)
    ensures word in CUT_SHORT <==> word == "MAX_TOKENS"
    ensures word in FILTERED <==>
      word in {"SAFETY", "RECITATION", "LANGUAGE", "BLOCKLIST", "PROHIBITED_CONTENT", "SPII", "IMAGE_SAFETY"}
    ensures word in MALFORMED <==> word in {"MALFORMED_FUNCTION_CALL", "UNEXPECTED_TOOL_CALL"}
  {
  }

  lemma WordsAreCapital(words: seq<string>)
    requires words == CUT_SHORT || words == FILTERED || words == MALFORMED
    ensures forall i | 0 <= i < |words| :: forall c | c in words[i] :: 'A' <= c <= 'Z' || c == '_'
  {
  }

  lemma ReasonIsMapped(reason: string, hasToolCalls: bool)
    ensures MapFinishReason(reason, hasToolCalls) == ReasonFor(reason, hasToolCalls)
  {
    WordsAre(Upper(reason));
    WordsAreCapital(CUT_SHORT);
    WordsAreCapital(FILTERED);
    WordsAreCapital(MALFORMED);
    UpperIsOneOf(reason, CUT_SHORT);
    UpperIsOneOf(reason, FILTERED);
    UpperIsOneOf(reason, MALFORMED);
  }

  /** The mapping knows only five answers, prefers the tool calls, and does not mind the case. */
  lemma FinishReasonsAreKnown(reason: string, hasToolCalls: bool)
    ensures MapFinishReason(reason, hasToolCalls) in {"tool_calls", "stop", "length", "content_filter", "error"}
    ensures MapFinishReason(reason, hasToolCalls) == "tool_calls" <==> hasToolCalls
    ensures MapFinishReason(Upper(reason), hasToolCalls) == MapFinishReason(reason, hasToolCalls)
  {
    assert Upper(Upper(reason)) == Upper(reason);
  }
}
