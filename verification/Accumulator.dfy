/** Merging a stream of chunks into one response, on values. The class in
    ResponseAccumulator.dfy does the same work in place and is proved equal to AddChunk. */
module Accumulator {
  import opened Common

  datatype ToolCall = ToolCall(id: string, kind: string, name: string, args: string, index: Option<nat>)

  datatype Message = Message(role: string, content: string, reasoning: string, toolCalls: seq<ToolCall>)

  /** A chunk carries its increments in `delta`; the accumulated response keeps them in `message`. */
  datatype Choice = Choice(index: nat, message: Message, delta: Message, finishReason: Option<string>)

  datatype Usage = Usage(
    prompt: int, completion: int, total: int,
    cached: int, cacheCreation: int, cacheRead: int, reasoning: int, credit: real)

  datatype ResponseError = ResponseError(message: string, kind: string)

  datatype Response<T> = Response(
    id: string, objectType: string, created: int, model: string, choices: seq<T>, usage: Option<Usage>,
    fingerprint: Option<string>, error: Option<ResponseError>, done: bool, isPartial: bool)

  type Chunk = Response<Choice>

  const NO_TOOL := ToolCall("", "", "", "", None)
  const NO_MESSAGE := Message("", "", "", [])
  const NO_CHOICE := Choice(0, NO_MESSAGE, NO_MESSAGE, None)
  const NO_USAGE := Usage(0, 0, 0, 0, 0, 0, 0, 0.0)
  const NO_RESPONSE: Chunk := Response("", "", 0, "", [], None, None, None, false, false)

  // ------------------------------------------------------------------------------------
  // One chunk
  // ------------------------------------------------------------------------------------

  function Or(new_: string, old_: string): string {
    if new_ != "" then new_ else old_
  }

  function Grow<T>(s: seq<T>, index: nat, zero: T): seq<T> {
    if index < |s| then s else s + seq(index + 1 - |s|, _ => zero)
  }

  function ToolIndex(d: ToolCall): nat {
    d.index.GetOr(0)
  }

  function MergeTool(t: ToolCall, d: ToolCall): ToolCall {
    ToolCall(Or(d.id, t.id), Or(d.kind, t.kind), Or(d.name, t.name), t.args + d.args, Some(ToolIndex(d)))
  }

  function AddTool(tools: seq<ToolCall>, d: ToolCall): seq<ToolCall> {
    var grown := Grow(tools, ToolIndex(d), NO_TOOL);
    grown[ToolIndex(d) := MergeTool(grown[ToolIndex(d)], d)]
  }

  function AddTools(tools: seq<ToolCall>, ds: seq<ToolCall>): seq<ToolCall> {
    if ds == [] then tools else AddTool(AddTools(tools, Init(ds)), Last(ds))
  }

  /** The tool calls of a chunk's choice: those of the delta, or else those of the message. */
  function ToolDeltas(d: Choice): seq<ToolCall> {
    if d.delta.toolCalls != [] then d.delta.toolCalls else d.message.toolCalls
  }

  function MergeChoice(c: Choice, d: Choice): Choice {
    c.(index := d.index,
       finishReason := if d.finishReason.Some? then d.finishReason else c.finishReason,
       message := Message(Or(d.delta.role, c.message.role),
                          c.message.content + d.delta.content,
                          c.message.reasoning + d.delta.reasoning,
                          AddTools(c.message.toolCalls, ToolDeltas(d))))
  }

  function AddChoice(cs: seq<Choice>, d: Choice): seq<Choice> {
    var grown := Grow(cs, d.index, NO_CHOICE);
    grown[d.index := MergeChoice(grown[d.index], d)]
  }

  function AddChoices(cs: seq<Choice>, ds: seq<Choice>): seq<Choice> {
    if ds == [] then cs else AddChoice(AddChoices(cs, Init(ds)), Last(ds))
  }

  function AddUsage(old_: Option<Usage>, d: Option<Usage>): Option<Usage> {
    if d.None? then old_ else
    var u := old_.GetOr(NO_USAGE);
    var v := d.value;
    Some(Usage(u.prompt + v.prompt, u.completion + v.completion, u.total + v.total,
               u.cached + v.cached, u.cacheCreation + v.cacheCreation, u.cacheRead + v.cacheRead,
               u.reasoning, if v.credit > 0.0 then v.credit else u.credit))
  }

  predicate Accepts<T>(r: Response<T>, chunk: Chunk) {
    r.id == "" || chunk.id == "" || r.id == chunk.id
  }

  /** The scalar fields of the response after an accepted chunk. */
  function MergeHead<T>(r: Response<T>, chunk: Chunk): Response<T> {
    Response(if r.id == "" then chunk.id else r.id,
             Or(chunk.objectType, r.objectType),
             if chunk.created != 0 then chunk.created else r.created,
             Or(chunk.model, r.model),
             r.choices,
             AddUsage(r.usage, chunk.usage),
             if chunk.fingerprint.Some? then chunk.fingerprint else r.fingerprint,
             if chunk.error.Some? then chunk.error else r.error,
             r.done || chunk.done,
             r.isPartial && !chunk.done)
  }

  function Merge(r: Chunk, chunk: Chunk): Chunk {
    MergeHead(r, chunk).(choices := AddChoices(r.choices, chunk.choices))
  }

  // ------------------------------------------------------------------------------------
  // The run detector behind the just-finished events
  // ------------------------------------------------------------------------------------

  datatype Phase = Empty | Content | Tool | Finished

  datatype RunState = RunState(phase: Phase, index: nat)

  const NO_RUN := RunState(Empty, 0)

  function Classify(chunk: Chunk): RunState
    requires chunk.choices != []
  {
    var c := chunk.choices[0];
    if c.delta.content != "" then RunState(Content, 0)
    else if c.delta.toolCalls != [] then RunState(Tool, ToolIndex(c.delta.toolCalls[0]))
    else if chunk.done then RunState(Finished, 0)
    else if c.message.toolCalls != [] then RunState(Tool, ToolIndex(c.message.toolCalls[0]))
    else RunState(Finished, 0)
  }

  datatype State = State(response: Chunk, runs: seq<RunState>, justFinished: RunState, count: nat)

  const ZERO := State(NO_RESPONSE, [], NO_RUN, 0)

  function NoteRun(runs: seq<RunState>, chunk: Chunk): (seq<RunState>, RunState) {
    if chunk.choices == [] then (runs, NO_RUN) else
    var k := chunk.choices[0].index;
    var grown := Grow(runs, k, NO_RUN);
    var current := Classify(chunk);
    (grown[k := current], if grown[k] != current then grown[k] else NO_RUN)
  }

  function AddChunk(s: State, chunk: Chunk): State {
    if !Accepts(s.response, chunk) then s.(justFinished := NO_RUN) else
    var (runs, finished) := NoteRun(s.runs, chunk);
    State(Merge(s.response, chunk), runs, finished, s.count + 1)
  }

  function JustFinishedContent(s: State): Option<string> {
    if s.justFinished.phase == Content && s.response.choices != []
    then Some(s.response.choices[0].message.content) else None
  }

  function JustFinishedToolCall(s: State): Option<ToolCall> {
    if s.justFinished.phase == Tool && s.response.choices != []
       && s.justFinished.index < |s.response.choices[0].message.toolCalls|
    then Some(s.response.choices[0].message.toolCalls[s.justFinished.index]) else None
  }

  function Accumulate(s: State, chunks: seq<Chunk>): State {
    if chunks == [] then s else AddChunk(Accumulate(s, Init(chunks)), Last(chunks))
  }

  // ------------------------------------------------------------------------------------
  // What a whole stream adds up to
  // ------------------------------------------------------------------------------------

  /** The first non-empty chunk id. */
  function FirstId(chunks: seq<Chunk>): string {
    if chunks == [] then "" else Or(FirstId(Init(chunks)), Last(chunks).id)
  }

  function WithId(id: string, chunks: seq<Chunk>): seq<Chunk> {
    if chunks == [] then []
    else WithId(id, Init(chunks)) + if Last(chunks).id == "" || Last(chunks).id == id then [Last(chunks)] else []
  }

  /** The chunks that count: those without an id and those with the first id of the stream. */
  function Kept(chunks: seq<Chunk>): seq<Chunk> {
    WithId(FirstId(chunks), chunks)
  }

  function AllChoices(chunks: seq<Chunk>): seq<Choice> {
    if chunks == [] then [] else AllChoices(Init(chunks)) + Last(chunks).choices
  }

  function ContentAt(ds: seq<Choice>, k: nat): string {
    if ds == [] then "" else ContentAt(Init(ds), k) + if Last(ds).index == k then Last(ds).delta.content else ""
  }

  function ReasoningAt(ds: seq<Choice>, k: nat): string {
    if ds == [] then "" else ReasoningAt(Init(ds), k) + if Last(ds).index == k then Last(ds).delta.reasoning else ""
  }

  function RoleAt(ds: seq<Choice>, k: nat): string {
    if ds == [] then ""
    else if Last(ds).index == k && Last(ds).delta.role != "" then Last(ds).delta.role
    else RoleAt(Init(ds), k)
  }

  function FinishReasonAt(ds: seq<Choice>, k: nat): Option<string> {
    if ds == [] then None
    else if Last(ds).index == k && Last(ds).finishReason.Some? then Last(ds).finishReason
    else FinishReasonAt(Init(ds), k)
  }

  function ToolsAt(ds: seq<Choice>, k: nat): seq<ToolCall> {
    if ds == [] then [] else ToolsAt(Init(ds), k) + if Last(ds).index == k then ToolDeltas(Last(ds)) else []
  }

  function ArgsAt(ts: seq<ToolCall>, j: nat): string {
    if ts == [] then "" else ArgsAt(Init(ts), j) + if ToolIndex(Last(ts)) == j then Last(ts).args else ""
  }

  /** The last non-empty value of a field among the fragments with index j. */
  function LastAt(field: ToolCall -> string, ts: seq<ToolCall>, j: nat): string {
    if ts == [] then ""
    else if ToolIndex(Last(ts)) == j && field(Last(ts)) != "" then field(Last(ts))
    else LastAt(field, Init(ts), j)
  }

  const IdOf := (t: ToolCall) => t.id
  const KindOf := (t: ToolCall) => t.kind
  const NameOf := (t: ToolCall) => t.name

  predicate Touches(ts: seq<ToolCall>, j: nat) {
    ts != [] && (ToolIndex(Last(ts)) == j || Touches(Init(ts), j))
  }

  /** One more than the largest index among the fragments. */
  function Extent(ts: seq<ToolCall>): nat {
    if ts == [] then 0
    else if ToolIndex(Last(ts)) < Extent(Init(ts)) then Extent(Init(ts)) else ToolIndex(Last(ts)) + 1
  }

  lemma {:induction false} ToolCount(tools: seq<ToolCall>, ds: seq<ToolCall>)
    ensures |AddTools(tools, ds)| == if |tools| < Extent(ds) then Extent(ds) else |tools|
  {
    if ds == [] {
    } else {
      ToolCount(tools, Init(ds));
    }
  }

  /** What the fragments with index j make of a tool call t. */
  function Slot(t: ToolCall, ds: seq<ToolCall>, j: nat): ToolCall {
    ToolCall(Or(LastAt(IdOf, ds, j), t.id), Or(LastAt(KindOf, ds, j), t.kind),
             Or(LastAt(NameOf, ds, j), t.name), t.args + ArgsAt(ds, j),
             if Touches(ds, j) then Some(j) else t.index)
  }

  lemma SlotStep(t: ToolCall, ds: seq<ToolCall>, j: nat)
    requires ds != []
    ensures Slot(t, ds, j) ==
      if ToolIndex(Last(ds)) == j then MergeTool(Slot(t, Init(ds), j), Last(ds)) else Slot(t, Init(ds), j)
  {
    if ToolIndex(Last(ds)) == j {
      Reassociate(t.args, ArgsAt(Init(ds), j), Last(ds).args);
    } else {
      assert ArgsAt(Init(ds), j) + "" == ArgsAt(Init(ds), j);
    }
  }

  /** Every field of every tool slot after any fragments, in closed form. */
  lemma {:induction false} ToolSlot(tools: seq<ToolCall>, ds: seq<ToolCall>, j: nat)
    requires j < |AddTools(tools, ds)|
    ensures AddTools(tools, ds)[j] == Slot(if j < |tools| then tools[j] else NO_TOOL, ds, j)
  {
    var t := if j < |tools| then tools[j] else NO_TOOL;
    if ds == [] {
      assert t.args + "" == t.args;
    } else {
      SlotStep(t, ds, j);
      ToolCount(tools, Init(ds));
      if j < |AddTools(tools, Init(ds))| {
        ToolSlot(tools, Init(ds), j);
      } else {
        UntouchedBeyond(Init(ds), j);
        assert t.args + "" == t.args;
      }
    }
  }

  /** The fragments say nothing about tool call j that t does not say already. */
  predicate Silent(p: seq<ToolCall>, t: ToolCall, j: nat) {
    && ArgsAt(p, j) == ""
    && LastAt(IdOf, p, j) in {"", t.id}
    && LastAt(KindOf, p, j) in {"", t.kind}
    && LastAt(NameOf, p, j) in {"", t.name}
    && (Touches(p, j) ==> t.index == Some(j))
  }

  lemma SilentMeansSame(ds: seq<ToolCall>, t: ToolCall, j: nat)
    ensures Slot(t, ds, j) == t <==> Silent(ds, t, j)
  {
    assert |t.args + ArgsAt(ds, j)| == |t.args| + |ArgsAt(ds, j)|;
    assert t.args + "" == t.args;
  }

  lemma {:induction false} UntouchedBeyond(ds: seq<ToolCall>, j: nat)
    requires Extent(ds) <= j
    ensures !Touches(ds, j) && ArgsAt(ds, j) == ""
    ensures forall field :: LastAt(field, ds, j) == ""
  {
    if ds == [] {
    } else {
      UntouchedBeyond(Init(ds), j);
    }
  }

  // ------------------------------------------------------------------------------------
  // Choices
  // ------------------------------------------------------------------------------------

  predicate Addressed(ds: seq<Choice>, k: nat) {
    ds != [] && (Last(ds).index == k || Addressed(Init(ds), k))
  }

  function ChoiceExtent(ds: seq<Choice>): nat {
    if ds == [] then 0
    else if Last(ds).index < ChoiceExtent(Init(ds)) then ChoiceExtent(Init(ds)) else Last(ds).index + 1
  }

  lemma {:induction false} AddToolsConcat(tools: seq<ToolCall>, a: seq<ToolCall>, b: seq<ToolCall>)
    ensures AddTools(AddTools(tools, a), b) == AddTools(tools, a + b)
  {
    if b == [] {
      assert a + b == a;
    } else {
      AddToolsConcat(tools, a, Init(b));
      assert Init(a + b) == a + Init(b);
    }
  }

  lemma {:induction false} ChoiceCount(ds: seq<Choice>)
    ensures |AddChoices([], ds)| == ChoiceExtent(ds)
  {
    if ds == [] {
    } else {
      ChoiceCount(Init(ds));
    }
  }

  lemma {:induction false} UnaddressedBeyond(ds: seq<Choice>, k: nat)
    requires ChoiceExtent(ds) <= k
    ensures !Addressed(ds, k) && ContentAt(ds, k) == "" && ReasoningAt(ds, k) == ""
    ensures RoleAt(ds, k) == "" && FinishReasonAt(ds, k).None? && ToolsAt(ds, k) == []
  {
    if ds == [] {
    } else {
      UnaddressedBeyond(Init(ds), k);
    }
  }

  /** Every accumulated choice in closed form: text is the concatenation of the increments at its
      index, the role and the finish reason are the last ones given, and its tool calls are those
      of the fragments at its index. */
  lemma {:induction false} ChoiceSlot(ds: seq<Choice>, k: nat)
    requires k < |AddChoices([], ds)|
    ensures AddChoices([], ds)[k] ==
      Choice(if Addressed(ds, k) then k else 0,
             Message(RoleAt(ds, k), ContentAt(ds, k), ReasoningAt(ds, k), AddTools([], ToolsAt(ds, k))),
             NO_MESSAGE, FinishReasonAt(ds, k))
  {
    if ds == [] {
    } else {
      var before := AddChoices([], Init(ds));
      if k < |before| {
        ChoiceSlot(Init(ds), k);
      } else {
        ChoiceCount(Init(ds));
        UnaddressedBeyond(Init(ds), k);
      }
      AddToolsConcat([], ToolsAt(Init(ds), k), ToolDeltas(Last(ds)));
      assert ToolsAt(Init(ds), k) + [] == ToolsAt(Init(ds), k);
    }
  }

  lemma AddChoicesNext(cs: seq<Choice>, ds: seq<Choice>, d: Choice)
    ensures AddChoices(cs, ds + [d]) == AddChoice(AddChoices(cs, ds), d)
  {
    assert Init(ds + [d]) == ds;
  }

  lemma {:induction false} AddChoicesConcat(cs: seq<Choice>, a: seq<Choice>, b: seq<Choice>)
    ensures AddChoices(AddChoices(cs, a), b) == AddChoices(cs, a + b)
  {
    if b == [] {
      assert a + b == a;
    } else {
      InitOfConcat(a, b);
      AddChoicesConcat(cs, a, Init(b));
    }
  }

  // ------------------------------------------------------------------------------------
  // Usage and the whole response
  // ------------------------------------------------------------------------------------

  function Sum(f: Usage -> int, chunks: seq<Chunk>): int {
    if chunks == [] then 0
    else Sum(f, Init(chunks)) + if Last(chunks).usage.Some? then f(Last(chunks).usage.value) else 0
  }

  function LastCredit(chunks: seq<Chunk>): real {
    if chunks == [] then 0.0
    else if Last(chunks).usage.Some? && Last(chunks).usage.value.credit > 0.0 then Last(chunks).usage.value.credit
    else LastCredit(Init(chunks))
  }

  predicate Reported(chunks: seq<Chunk>) {
    chunks != [] && (Last(chunks).usage.Some? || Reported(Init(chunks)))
  }

  const PromptOf := (u: Usage) => u.prompt
  const CompletionOf := (u: Usage) => u.completion
  const TotalOf := (u: Usage) => u.total
  const CachedOf := (u: Usage) => u.cached
  const CacheCreationOf := (u: Usage) => u.cacheCreation
  const CacheReadOf := (u: Usage) => u.cacheRead

  function Totals(chunks: seq<Chunk>): Option<Usage> {
    if !Reported(chunks) then None
    else Some(Usage(Sum(PromptOf, chunks), Sum(CompletionOf, chunks), Sum(TotalOf, chunks),
                    Sum(CachedOf, chunks), Sum(CacheCreationOf, chunks), Sum(CacheReadOf, chunks),
                    0, LastCredit(chunks)))
  }

  function LastOf(field: Chunk -> string, chunks: seq<Chunk>): string {
    if chunks == [] then "" else Or(field(Last(chunks)), LastOf(field, Init(chunks)))
  }

  predicate AnyDone(chunks: seq<Chunk>) {
    chunks != [] && (Last(chunks).done || AnyDone(Init(chunks)))
  }

  function LastError(chunks: seq<Chunk>): Option<ResponseError> {
    if chunks == [] then None
    else if Last(chunks).error.Some? then Last(chunks).error else LastError(Init(chunks))
  }

  lemma {:induction false} UnreportedSums(f: Usage -> int, chunks: seq<Chunk>)
    requires !Reported(chunks)
    ensures Sum(f, chunks) == 0 && LastCredit(chunks) == 0.0
  {
    if chunks == [] {
    } else {
      UnreportedSums(f, Init(chunks));
    }
  }

  lemma TotalsStep(chunks: seq<Chunk>)
    requires chunks != []
    ensures Totals(chunks) == AddUsage(Totals(Init(chunks)), Last(chunks).usage)
  {
    var before := Init(chunks);
    if Last(chunks).usage.Some? && !Reported(before) {
      UnreportedSums(PromptOf, before);
      UnreportedSums(CompletionOf, before);
      UnreportedSums(TotalOf, before);
      UnreportedSums(CachedOf, before);
      UnreportedSums(CacheCreationOf, before);
      UnreportedSums(CacheReadOf, before);
    }
  }

  lemma {:induction false} NoIdYet(id: string, chunks: seq<Chunk>)
    requires FirstId(chunks) == ""
    ensures WithId(id, chunks) == chunks
  {
    if chunks == [] {
    } else {
      NoIdYet(id, Init(chunks));
    }
  }

  lemma KeptStep(chunks: seq<Chunk>)
    requires chunks != []
    ensures Kept(chunks) == Kept(Init(chunks)) +
        if FirstId(Init(chunks)) == "" || Last(chunks).id == "" || Last(chunks).id == FirstId(Init(chunks))
        then [Last(chunks)] else []
  {
    if FirstId(Init(chunks)) == "" {
      NoIdYet(FirstId(chunks), Init(chunks));
      NoIdYet("", Init(chunks));
    }
  }

  /** After any stream at all: the response is the one of the kept chunks, with its choices merged
      increment by increment and its token counts summed; every other chunk left no trace in it. */
  lemma {:induction false} StreamInClosedForm(chunks: seq<Chunk>)
    ensures var r := Accumulate(ZERO, chunks).response;
      && r.id == FirstId(chunks)
      && r.choices == AddChoices([], AllChoices(Kept(chunks)))
      && r.usage == Totals(Kept(chunks))
      && r.done == AnyDone(Kept(chunks))
      && r.error == LastError(Kept(chunks))
      && r.model == LastOf((c: Chunk) => c.model, Kept(chunks))
      && Accumulate(ZERO, chunks).count == |Kept(chunks)|
  {
    if chunks == [] {
    } else {
      StreamInClosedForm(Init(chunks));
      KeptStep(chunks);
      var prev, c := Kept(Init(chunks)), Last(chunks);
      if Accepts(Accumulate(ZERO, Init(chunks)).response, c) {
        assert Kept(chunks) == prev + [c];
        assert Init(Kept(chunks)) == prev;
        TotalsStep(Kept(chunks));
        AddChoicesConcat([], AllChoices(prev), c.choices);
      } else {
        assert Kept(chunks) == prev;
      }
    }
  }

  const FingerprintOf := (c: Chunk) => c.fingerprint
  const ObjectTypeOf := (c: Chunk) => c.objectType

  /** The last creation time that is not 0. */
  function LastCreated(chunks: seq<Chunk>): int {
    if chunks == [] then 0 else if Last(chunks).created != 0 then Last(chunks).created else LastCreated(Init(chunks))
  }

  /** The remaining scalars: the last ones given by the kept chunks; the response is never partial. */
  lemma {:induction false} ScalarsInClosedForm(chunks: seq<Chunk>)
    ensures var r := Accumulate(ZERO, chunks).response;
      && r.objectType == LastOf(ObjectTypeOf, Kept(chunks))
      && r.created == LastCreated(Kept(chunks))
      && r.fingerprint == LastGiven(FingerprintOf, Kept(chunks))
      && !r.isPartial
  {
    if chunks == [] {
    } else {
      ScalarsInClosedForm(Init(chunks));
      StreamInClosedForm(Init(chunks));
      KeptStep(chunks);
      var prev, c := Kept(Init(chunks)), Last(chunks);
      if Accepts(Accumulate(ZERO, Init(chunks)).response, c) {
        assert Kept(chunks) == prev + [c];
        assert Init(Kept(chunks)) == prev;
      } else {
        assert Kept(chunks) == prev;
      }
    }
  }
}
