/** The accumulator as the object it is: its choices hold slices of tool calls that live in shared
    arrays, so a copy of the response shares those arrays with it. */
module ResponseAccumulators {
  import opened Common
  import opened Accumulator

  /** A choice of the accumulated response; `tools` is null for a nil slice. */
  datatype Slot = Slot(
    index: nat, role: string, content: string, reasoning: string,
    tools: array?<ToolCall>, finishReason: Option<string>)

  const NO_SLOT := Slot(0, "", "", "", null, None)

  function ToolsOf(a: array?<ToolCall>): seq<ToolCall>
    reads a
  {
    if a == null then [] else a[..]
  }

  /** The value a slot stands for in the current heap. */
  function SlotValue(s: Slot): Choice
    reads s.tools
  {
    Choice(s.index, Message(s.role, s.content, s.reasoning, ToolsOf(s.tools)), NO_MESSAGE, s.finishReason)
  }

  function Arrays(slots: seq<Slot>): set<array?<ToolCall>> {
    set i | 0 <= i < |slots| :: slots[i].tools
  }

  predicate Unshared(slots: seq<Slot>) {
    forall i, j | 0 <= i < j < |slots| :: slots[i].tools == null || slots[i].tools != slots[j].tools
  }

  function Values(slots: seq<Slot>): seq<Choice>
    reads Arrays(slots)
  {
    seq(|slots|, i requires 0 <= i < |slots| reads Arrays(slots) =>
      assert slots[i].tools in Arrays(slots); SlotValue(slots[i]))
  }

  predicate Fits(n: nat, ds: seq<ToolCall>) {
    forall i | 0 <= i < |ds| :: ToolIndex(ds[i]) < n
  }

  /** What an array that is already handed out holds after the fragments `ds` for its choice: each
      fragment is written in place until one needs a larger array, which from then on takes over. */
  function InPlace(tools: seq<ToolCall>, ds: seq<ToolCall>): seq<ToolCall> {
    if ds == [] then tools
    else if Fits(|tools|, ds) then AddTool(InPlace(tools, Init(ds)), Last(ds))
    else InPlace(tools, Init(ds))
  }

  lemma {:induction false} FittingIsAdding(tools: seq<ToolCall>, ds: seq<ToolCall>)
    requires Fits(|tools|, ds)
    ensures InPlace(tools, ds) == AddTools(tools, ds) && |AddTools(tools, ds)| == |tools|
  {
    if ds == [] {
    } else {
      FittingIsAdding(tools, Init(ds));
    }
  }

  lemma FitsConcat(n: nat, a: seq<ToolCall>, b: seq<ToolCall>)
    ensures Fits(n, a + b) <==> Fits(n, a) && Fits(n, b)
  {
    if Fits(n, a + b) {
      forall i | 0 <= i < |b| ensures ToolIndex(b[i]) < n {
        assert (a + b)[|a| + i] == b[i];
      }
      forall i | 0 <= i < |a| ensures ToolIndex(a[i]) < n {
        assert (a + b)[i] == a[i];
      }
    }
  }

  lemma {:induction false} InPlaceConcat(tools: seq<ToolCall>, a: seq<ToolCall>, b: seq<ToolCall>)
    ensures InPlace(tools, a + b) == if Fits(|tools|, a) then InPlace(InPlace(tools, a), b) else InPlace(tools, a)
    ensures Fits(|tools|, a) ==> |InPlace(tools, a)| == |tools|
  {
    if Fits(|tools|, a) {
      FittingIsAdding(tools, a);
    }
    if b == [] {
      assert a + b == a;
    } else {
      InPlaceConcat(tools, a, Init(b));
      InitOfConcat(a, b);
      FitsConcat(|tools|, a, b);
    }
  }

  /** The slots after one choice of a chunk, given the slice that now holds its tool calls. */
  function MergeSlot(slots: seq<Slot>, d: Choice, tools: array?<ToolCall>): seq<Slot> {
    var grown := Grow(slots, d.index, NO_SLOT);
    var s := grown[d.index];
    grown[d.index := Slot(d.index, Or(d.delta.role, s.role), s.content + d.delta.content,
                          s.reasoning + d.delta.reasoning, tools,
                          if d.finishReason.Some? then d.finishReason else s.finishReason)]
  }

  /** How the slices `first`, which held the tool calls of `was`, stand after the choices `ds`. */
  ghost predicate Tracks(first: seq<Slot>, was: seq<Choice>, ds: seq<Choice>, now: seq<Slot>)
    reads Arrays(first)
  {
    && |was| == |first| <= |now|
    && forall i | 0 <= i < |first| ::
      assert first[i].tools in Arrays(first);
      && ToolsOf(first[i].tools) == InPlace(was[i].message.toolCalls, ToolsAt(ds, i))
      && (now[i].tools == first[i].tools <==> Fits(|was[i].message.toolCalls|, ToolsAt(ds, i)))
  }

  /** Every slice now in use is the one its slot began with, or belongs to no slot of `first`. */
  predicate Apart(first: seq<Slot>, now: seq<Slot>) {
    forall i, j | 0 <= i < |first| && 0 <= j < |now| ::
      now[j].tools == null || now[j].tools != first[i].tools || i == j
  }

  /** Every slice now in use is the one its slot began with, or was made since. */
  twostate predicate OldOrFresh(first: seq<Slot>, new now: seq<Slot>) {
    forall i | 0 <= i < |now| ::
      now[i].tools == SliceAt(first, i) || (now[i].tools != null && fresh(now[i].tools))
  }

  function SliceAt(slots: seq<Slot>, k: nat): array?<ToolCall> {
    if k < |slots| then slots[k].tools else null
  }

  lemma TracksFront(first: seq<Slot>, was: seq<Choice>, slots: seq<Slot>, values: seq<Choice>, ds: seq<Choice>,
                    now: seq<Slot>)
    requires |first| == |was| && first <= slots && was <= values && Tracks(slots, values, ds, now)
    ensures Tracks(first, was, ds, now)
  {
    assert forall i | 0 <= i < |first| :: first[i] == slots[i] && was[i] == values[i];
  }

  twostate lemma OldOrFreshIsApart(first: seq<Slot>, new now: seq<Slot>)
    requires Unshared(first) && OldOrFresh(first, now)
    ensures Apart(first, now)
  {
  }

  /** The fragments that are written in place: all of them up to the first one that does not fit. */
  function Fitting(n: nat, ds: seq<ToolCall>): seq<ToolCall> {
    if ds == [] || Fits(n, ds) then ds else Fitting(n, Init(ds))
  }

  lemma {:induction false} InPlaceIsFitting(tools: seq<ToolCall>, ds: seq<ToolCall>)
    ensures InPlace(tools, ds) == AddTools(tools, Fitting(|tools|, ds))
    ensures Fits(|tools|, Fitting(|tools|, ds))
  {
    if ds == [] {
    } else {
      if Fits(|tools|, ds) {
        FittingIsAdding(tools, ds);
      } else {
        InPlaceIsFitting(tools, Init(ds));
      }
    }
  }

  /** The tool calls seen through an earlier copy of the response stay what they were exactly as
      long as the fragments that still go into the shared array say nothing new. */
  lemma CopiedToolCallsSurviveIff(tools: seq<ToolCall>, ds: seq<ToolCall>)
    ensures InPlace(tools, ds) == tools
        <==> forall j | 0 <= j < |tools| :: Silent(Fitting(|tools|, ds), tools[j], j)
  {
    var p := Fitting(|tools|, ds);
    InPlaceIsFitting(tools, ds);
    FittingIsAdding(tools, p);
    forall j | 0 <= j < |tools| ensures AddTools(tools, p)[j] == tools[j] <==> Silent(p, tools[j], j) {
      ToolSlot(tools, p, j);
      SilentMeansSame(p, tools[j], j);
    }
  }

  lemma ArgumentsGrow(t: ToolCall, d: ToolCall)
    requires t == d.(args := t.args) && d.index == Some(0)
    ensures InPlace([t], [d]) == [t.(args := t.args + d.args)]
  {
    assert Init([d]) == [] && InPlace([t], [d]) == AddTool([t], d);
  }

  /** Grows the slice so that `index` exists, as make-and-copy does. */
  method ExpandToolCalls(slice: array?<ToolCall>, index: nat) returns (r: array<ToolCall>)
    ensures ToolsOf(r) == Grow(ToolsOf(slice), index, NO_TOOL)
    ensures if index < |ToolsOf(slice)| then r == slice else fresh(r)
  {
    var length := if slice == null then 0 else slice.Length;
    if index < length {
      return slice;
    }
    r := new ToolCall[index + 1](_ => NO_TOOL);
    for j := 0 to length
      invariant r[..j] == ToolsOf(slice)[..j]
      invariant forall m | j <= m <= index :: r[m] == NO_TOOL
    {
      r[j] := slice[j];
    }
    assert r[..] == Grow(ToolsOf(slice), index, NO_TOOL);
  }

  lemma FragmentNext(was: seq<ToolCall>, before: seq<ToolCall>, d: ToolCall)
    ensures AddTools(was, before + [d]) == AddTool(AddTools(was, before), d)
    ensures Fits(|was|, before + [d]) <==> Fits(|was|, before) && ToolIndex(d) < |was|
    ensures InPlace(was, before + [d]) ==
      if Fits(|was|, before + [d]) then AddTools(was, before + [d]) else InPlace(was, before)
    ensures Fits(|was|, before) ==> |AddTools(was, before)| == |was| && InPlace(was, before) == AddTools(was, before)
  {
    assert Init(before + [d]) == before;
    FitsConcat(|was|, before, [d]);
    if Fits(|was|, before) {
      FittingIsAdding(was, before);
    }
  }

  /** Merges one fragment; `slice` is the array that was in use before all of them. */
  method AddFragment(ghost slice: array?<ToolCall>, ghost was: seq<ToolCall>, ghost before: seq<ToolCall>,
                     r: array?<ToolCall>, d: ToolCall)
    returns (larger: array<ToolCall>)
    requires ToolsOf(r) == AddTools(was, before) && ToolsOf(slice) == InPlace(was, before)
    requires r == slice <==> Fits(|was|, before)
    modifies r
    ensures ToolsOf(larger) == AddTools(was, before + [d]) && ToolsOf(slice) == InPlace(was, before + [d])
    ensures larger == r || fresh(larger)
    ensures larger == slice <==> Fits(|was|, before + [d])
  {
    FragmentNext(was, before, d);
    larger := ExpandToolCalls(r, ToolIndex(d));
    larger[ToolIndex(d)] := MergeTool(larger[ToolIndex(d)], d);
    assert larger[..] == AddTool(AddTools(was, before), d);
  }

  /** Merges the tool fragments of one choice of a chunk into that choice's slice. */
  method AddFragments(slice: array?<ToolCall>, ds: seq<ToolCall>) returns (r: array?<ToolCall>)
    modifies slice
    ensures ToolsOf(r) == AddTools(old(ToolsOf(slice)), ds)
    ensures ToolsOf(slice) == InPlace(old(ToolsOf(slice)), ds)
    ensures r == slice || (r != null && fresh(r))
    ensures r == slice <==> Fits(|old(ToolsOf(slice))|, ds)
  {
    r := slice;
    ghost var was, before := ToolsOf(slice), [];
    for i := 0 to |ds|
      invariant before == ds[..i]
      invariant ToolsOf(r) == AddTools(was, before) && ToolsOf(slice) == InPlace(was, before)
      invariant r == slice || (r != null && fresh(r))
      invariant r == slice <==> Fits(|was|, before)
    {
      r := AddFragment(slice, was, before, r, ds[i]);
      TakeNext(ds, i);
      before := before + [ds[i]];
    }
    assert before == ds;
  }

  /** The slot stands for c but for its tool calls. */
  predicate SameText(s: Slot, c: Choice) {
    && s.index == c.index && s.role == c.message.role && s.content == c.message.content
    && s.reasoning == c.message.reasoning && s.finishReason == c.finishReason && c.delta == NO_MESSAGE
  }

  /** MergeSlot does to slots what AddChoice does to the values `was` they had, once `tools` holds
      the merged tool calls and the other slices are as they were. */
  lemma MergeSlotValues(slots: seq<Slot>, was: seq<Choice>, d: Choice, tools: array?<ToolCall>)
    requires |was| == |slots| && forall i | 0 <= i < |slots| :: SameText(slots[i], was[i])
    requires forall i | 0 <= i < |slots| && i != d.index :: ToolsOf(slots[i].tools) == was[i].message.toolCalls
    requires ToolsOf(tools) == AddTools(if d.index < |was| then was[d.index].message.toolCalls else [], ToolDeltas(d))
    ensures Values(MergeSlot(slots, d, tools)) == AddChoice(was, d)
  {
    var merged, expected := MergeSlot(slots, d, tools), AddChoice(was, d);
    assert |merged| == |expected|;
    forall i | 0 <= i < |merged| ensures SlotValue(merged[i]) == expected[i] {
      if i == d.index {
        assert ToolsOf(merged[i].tools) == expected[i].message.toolCalls;
      } else if i < |slots| {
        assert SlotValue(slots[i]) == was[i];
      }
    }
  }

  lemma MergeSlotUnshared(slots: seq<Slot>, d: Choice, tools: array?<ToolCall>)
    requires Unshared(slots) && (tools == SliceAt(slots, d.index) || tools !in Arrays(slots))
    ensures Unshared(MergeSlot(slots, d, tools))
  {
    if tools !in Arrays(slots) {
      assert forall i | 0 <= i < |slots| :: slots[i].tools in Arrays(slots);
    }
  }

  lemma ToolsAtOne(d: Choice, k: nat)
    ensures ToolsAt([d], k) == if d.index == k then ToolDeltas(d) else []
  {
    assert Init([d]) == [];
  }

  lemma TracksMore(tools: seq<ToolCall>, a: seq<Choice>, b: seq<Choice>, k: nat)
    ensures var t, u, all := ToolsAt(a, k), ToolsAt(b, k), ToolsAt(a + b, k);
      && (Fits(|tools|, all) <==> Fits(|tools|, t) && Fits(|tools|, u))
      && InPlace(tools, all) == (if Fits(|tools|, t) then InPlace(InPlace(tools, t), u) else InPlace(tools, t))
      && (Fits(|tools|, t) ==> |InPlace(tools, t)| == |tools|)
  {
    ToolsAtConcat(a, b, k);
    InPlaceConcat(tools, ToolsAt(a, k), ToolsAt(b, k));
    FitsConcat(|tools|, ToolsAt(a, k), ToolsAt(b, k));
  }

  /** A slice that choice k began with is tracked on while it goes from `mid` to `now`: the slot has it
      before (`had`) and behind (`has`) the choices `more`. */
  lemma TracksNext(was: seq<ToolCall>, prefix: seq<Choice>, more: seq<Choice>, k: nat,
                   mid: seq<ToolCall>, had: bool, now: seq<ToolCall>, has: bool)
    requires mid == InPlace(was, ToolsAt(prefix, k)) && (had <==> Fits(|was|, ToolsAt(prefix, k)))
    requires if had then now == InPlace(mid, ToolsAt(more, k)) && (has <==> Fits(|mid|, ToolsAt(more, k)))
             else now == mid && !has
    ensures now == InPlace(was, ToolsAt(prefix + more, k)) && (has <==> Fits(|was|, ToolsAt(prefix + more, k)))
  {
    TracksMore(was, prefix, more, k);
  }

  /** Grows the slice of choices likewise. */
  method ExpandChoices(slice: array<Slot>, index: nat) returns (r: array<Slot>)
    ensures r[..] == Grow(slice[..], index, NO_SLOT)
    ensures if index < slice.Length then r == slice else fresh(r)
  {
    if index < slice.Length {
      return slice;
    }
    r := new Slot[index + 1](_ => NO_SLOT);
    for j := 0 to slice.Length
      invariant r[..j] == slice[..j]
      invariant forall m | j <= m <= index :: r[m] == NO_SLOT
    {
      r[j] := slice[j];
    }
    assert r[..] == Grow(slice[..], index, NO_SLOT);
  }

  /** Where a response keeps its usage. */
  class UsageCell {
    var usage: Usage

    constructor (usage: Usage)
      ensures this.usage == usage
    {
      this.usage := usage;
    }
  }

  function UsageOf(cell: UsageCell?): Option<Usage>
    reads cell
  {
    if cell == null then None else Some(cell.usage)
  }

  /** A response in memory: its scalars, its slice of choices and its usage. */
  datatype Stored = Stored(head: Chunk, choices: array<Slot>, usage: UsageCell?)

  /** The scalars, with the choices and the usage left out. */
  function MergeScalars(head: Chunk, chunk: Chunk): Chunk {
    MergeHead(head, chunk).(choices := [], usage := None)
  }

  lemma MergeInParts(r: Chunk, head: Chunk, chunk: Chunk)
    requires head == r.(choices := [], usage := None)
    ensures Merge(r, chunk) == MergeScalars(head, chunk).(
      choices := AddChoices(r.choices, chunk.choices), usage := AddUsage(r.usage, chunk.usage))
  {
  }

  lemma GrowTwice<T>(s: seq<T>, index: nat, zero: T)
    ensures Grow(Grow(s, index, zero), index, zero) == Grow(s, index, zero)
    ensures index < |Grow(s, index, zero)| && Grow(s, index, zero)[index] == if index < |s| then s[index] else zero
  {
  }

  class ResponseAccumulator {
    var head: Chunk
    var choices: array<Slot>
    var usage: UsageCell?
    var choiceStates: seq<RunState>
    var justFinished: RunState
    var chunkCount: nat

    predicate Valid()
      reads this, choices
    {
      Unshared(choices[..]) && head.choices == [] && head.usage == None
    }

    /** The response this object stands for. */
    function ResponseValue(): Chunk
      reads this, choices, usage, Arrays(choices[..])
    {
      head.(choices := Values(choices[..]), usage := UsageOf(usage))
    }

    function Value(): State
      reads this, choices, usage, Arrays(choices[..])
    {
      State(ResponseValue(), choiceStates, justFinished, chunkCount)
    }

    constructor ()
      ensures Valid() && Value() == ZERO
      ensures fresh(choices) && choices.Length == 0 && usage == null
    {
      head, usage := NO_RESPONSE, null;
      choices := new Slot[0];
      choiceStates, justFinished, chunkCount := [], NO_RUN, 0;
    }

    /** Makes sure that the slot of an index exists. */
    method MakeRoom(index: nat)
      requires Valid()
      modifies this`choices
      ensures Valid() && choices[..] == Grow(old(choices[..]), index, NO_SLOT)
      ensures if index < old(choices.Length) then choices == old(choices) else fresh(choices)
      ensures Values(choices[..]) == Grow(old(Values(choices[..])), index, NO_CHOICE)
    {
      choices := ExpandChoices(choices, index);
    }

    /** Merges one choice of a chunk into its slot, in place. */
    method MergeInSlot(d: Choice)
      requires Valid() && d.index < choices.Length
      modifies choices, choices[d.index].tools
      ensures Valid()
      ensures choices[..] == MergeSlot(old(choices[..]), d, choices[d.index].tools)
      ensures var slice, was := old(choices[d.index].tools), old(ToolsOf(choices[d.index].tools));
        && ToolsOf(slice) == InPlace(was, ToolDeltas(d))
        && (choices[d.index].tools == slice || fresh(choices[d.index].tools))
        && (choices[d.index].tools == slice <==> Fits(|was|, ToolDeltas(d)))
      ensures Values(choices[..]) == AddChoice(old(Values(choices[..])), d)
    {
      ghost var slots, was := choices[..], Values(choices[..]);
      var s := choices[d.index];
      assert forall i | 0 <= i < |slots| && i != d.index :: slots[i].tools == null || slots[i].tools != s.tools;
      assert ToolsOf(s.tools) == was[d.index].message.toolCalls;
      var tools := AddFragments(s.tools, ToolDeltas(d));
      MergeSlotUnshared(slots, d, tools);
      WriteSlot(d.index, Slot(d.index, Or(d.delta.role, s.role), s.content + d.delta.content,
                              s.reasoning + d.delta.reasoning, tools,
                              if d.finishReason.Some? then d.finishReason else s.finishReason));
      MergeSlotValues(slots, was, d, tools);
    }

    /** What that does to the slices of all slots. */
    method MergeTracked(d: Choice)
      requires Valid() && d.index < choices.Length
      modifies choices, choices[d.index].tools
      ensures Valid() && Tracks(old(choices[..]), old(Values(choices[..])), [d], choices[..])
      ensures OldOrFresh(old(choices[..]), choices[..])
      ensures Values(choices[..]) == AddChoice(old(Values(choices[..])), d)
    {
      ghost var slots, was := choices[..], Values(choices[..]);
      MergeInSlot(d);
      forall i | 0 <= i < |slots|
        ensures ToolsOf(slots[i].tools) == InPlace(was[i].message.toolCalls, ToolsAt([d], i))
        ensures choices[..][i].tools == slots[i].tools <==> Fits(|was[i].message.toolCalls|, ToolsAt([d], i))
      {
        ToolsAtOne(d, i);
        if i != d.index && slots[i].tools != null {
          assert slots[i].tools != slots[d.index].tools;
          assert unchanged(slots[i].tools);
        }
      }
    }

    method WriteSlot(index: nat, s: Slot)
      requires index < choices.Length
      modifies choices
      ensures choices[..] == old(choices[..])[index := s]
    {
      choices[index] := s;
    }

    /** Merges one choice of a chunk, in place if its slot exists. */
    method AddChoiceDelta(d: Choice)
      requires Valid()
      modifies this`choices, choices, SliceAt(choices[..], d.index)
      ensures Valid() && Tracks(old(choices[..]), old(Values(choices[..])), [d], choices[..])
      ensures Values(choices[..]) == AddChoice(old(Values(choices[..])), d)
      ensures OldOrFresh(old(choices[..]), choices[..])
      ensures if d.index < old(choices.Length) then choices == old(choices) else fresh(choices)
      ensures old(choices.Length) <= choices.Length
    {
      ghost var first, was := choices[..], Values(choices[..]);
      MakeRoom(d.index);
      ghost var grown, values := choices[..], Values(choices[..]);
      GrowTwice(was, d.index, NO_CHOICE);
      MergeTracked(d);
      TracksFront(first, was, grown, values, [d], choices[..]);
    }

    /** One step of the loop below: the slices `first`, which held `was` when the loop began, keep
        following InPlace, and a slot has another slice than it began with exactly if it had to grow. */
    method AddNextChoice(ghost first: seq<Slot>, ghost was: seq<Choice>, ghost prefix: seq<Choice>, d: Choice)
      requires Valid() && Tracks(first, was, prefix, choices[..]) && Apart(first, choices[..])
      modifies this`choices, choices, SliceAt(choices[..], d.index)
      ensures Valid() && Tracks(first, was, prefix + [d], choices[..])
      ensures Values(choices[..]) == AddChoice(old(Values(choices[..])), d)
      ensures OldOrFresh(old(choices[..]), choices[..])
      ensures if d.index < old(choices.Length) then choices == old(choices) else fresh(choices)
      ensures old(choices.Length) <= choices.Length
    {
      AddChoiceDelta(d);
      forall i | 0 <= i < |first|
        ensures ToolsOf(first[i].tools) == InPlace(was[i].message.toolCalls, ToolsAt(prefix + [d], i))
        ensures choices[..][i].tools == first[i].tools
          <==> Fits(|was[i].message.toolCalls|, ToolsAt(prefix + [d], i))
      {
        var slice := first[i].tools;
        var had, has := old(choices[..][i].tools) == slice, choices[..][i].tools == slice;
        if !had && slice != null {
          assert slice != old(SliceAt(choices[..], d.index));
          assert unchanged(slice);
        }
        TracksNext(was[i].message.toolCalls, prefix, [d], i, old(ToolsOf(slice)), had, ToolsOf(slice), has);
      }
    }

    /** Merges all choices of a chunk, one after the other. */
    method AddChoiceDeltas(ds: seq<Choice>)
      requires Valid()
      modifies this`choices, choices, Arrays(choices[..])
      ensures Valid() && Tracks(old(choices[..]), old(Values(choices[..])), ds, choices[..])
      ensures Values(choices[..]) == AddChoices(old(Values(choices[..])), ds)
      ensures OldOrFresh(old(choices[..]), choices[..])
      ensures choices == old(choices) || fresh(choices)
    {
      ghost var first, was := choices[..], Values(choices[..]);
      for n := 0 to |ds|
        invariant Valid() && Tracks(first, was, ds[..n], choices[..])
        invariant Values(choices[..]) == AddChoices(was, ds[..n])
        invariant OldOrFresh(first, choices[..])
        invariant choices == old(choices) || fresh(choices)
      {
        OldOrFreshIsApart(first, choices[..]);
        AddChoiceAt(first, was, ds, n);
      }
      assert ds[..|ds|] == ds;
    }

    method AddChoiceAt(ghost first: seq<Slot>, ghost was: seq<Choice>, ds: seq<Choice>, n: nat)
      requires n < |ds| && Valid() && Tracks(first, was, ds[..n], choices[..]) && Apart(first, choices[..])
      requires Values(choices[..]) == AddChoices(was, ds[..n])
      modifies this`choices, choices, SliceAt(choices[..], ds[n].index)
      ensures Valid() && Tracks(first, was, ds[..n + 1], choices[..])
      ensures Values(choices[..]) == AddChoices(was, ds[..n + 1])
      ensures OldOrFresh(old(choices[..]), choices[..])
      ensures if ds[n].index < old(choices.Length) then choices == old(choices) else fresh(choices)
      ensures old(choices.Length) <= choices.Length
    {
      TakeNext(ds, n);
      AddChoicesNext(was, ds[..n], ds[n]);
      AddNextChoice(first, was, ds[..n], ds[n]);
    }

    /** Adds to the usage in its cell; the first usage makes the cell. */
    method AccumulateUsage(d: Option<Usage>)
      modifies this`usage, usage
      ensures UsageOf(usage) == AddUsage(old(UsageOf(usage)), d)
      ensures usage == old(usage) || fresh(usage)
    {
      if d.Some? {
        if usage == null {
          usage := new UsageCell(NO_USAGE);
        }
        var u, v := usage.usage, d.value;
        usage.usage := u.(
          completion := u.completion + v.completion, prompt := u.prompt + v.prompt, total := u.total + v.total,
          cached := u.cached + v.cached, cacheCreation := u.cacheCreation + v.cacheCreation,
          cacheRead := u.cacheRead + v.cacheRead, credit := if v.credit > 0.0 then v.credit else u.credit);
      }
    }

    /** All that an accepted chunk changes but the choices. */
    method AccumulateHead(chunk: Chunk)
      requires Valid()
      modifies this`head, this`usage, this`chunkCount, this`choiceStates, this`justFinished, usage
      ensures head == MergeScalars(old(head), chunk) && chunkCount == old(chunkCount) + 1
      ensures UsageOf(usage) == AddUsage(old(UsageOf(usage)), chunk.usage)
      ensures usage == old(usage) || fresh(usage)
      ensures (choiceStates, justFinished) == NoteRun(old(choiceStates), chunk)
    {
      justFinished := NO_RUN;
      AccumulateUsage(chunk.usage);
      head := MergeScalars(head, chunk);
      chunkCount := chunkCount + 1;
      NoteChunk(chunk);
    }

    /** Merges an accepted chunk. The parts of the object that this touches are apart from one another;
        the choices come last here. */
    method AddAccepted(chunk: Chunk)
      requires Valid() && Accepts(head, chunk)
      modifies this, choices, usage, Arrays(choices[..])
      ensures Valid() && Value() == Accumulator.AddChunk(old(Value()), chunk)
      ensures Tracks(old(choices[..]), old(Values(choices[..])), chunk.choices, choices[..])
      ensures OldOrFresh(old(choices[..]), choices[..])
      ensures (choices == old(choices) || fresh(choices)) && (usage == old(usage) || fresh(usage))
    {
      MergeInParts(ResponseValue(), head, chunk);
      ghost var values := Values(choices[..]);
      AccumulateHead(chunk);
      assert Values(choices[..]) == values;
      AddChoiceDeltas(chunk.choices);
    }

    /** A nil chunk is accepted and ignored; a chunk with another id is rejected. */
    method AddChunk(chunk: Option<Chunk>) returns (ok: bool)
      requires Valid()
      modifies this, choices, usage, Arrays(choices[..])
      ensures Valid()
      ensures ok == (chunk.None? || Accepts(old(head), chunk.value))
      ensures Value() == if chunk.None? then old(Value()) else Accumulator.AddChunk(old(Value()), chunk.value)
      ensures Tracks(old(choices[..]), old(Values(choices[..])),
                     if chunk.Some? && ok then chunk.value.choices else [], choices[..])
      ensures OldOrFresh(old(choices[..]), choices[..])
      ensures (choices == old(choices) || fresh(choices)) && (usage == old(usage) || fresh(usage))
    {
      if chunk.None? {
        return true;
      }
      if !Accepts(head, chunk.value) {
        justFinished := NO_RUN;
        return false;
      }
      AddAccepted(chunk.value);
      return true;
    }

    /** Only a chunk with choices moves the run detector. */
    method NoteChunk(chunk: Chunk)
      requires justFinished == NO_RUN
      modifies this`choiceStates, this`justFinished
      ensures (choiceStates, justFinished) == NoteRun(old(choiceStates), chunk)
    {
      if chunk.choices != [] {
        var k := chunk.choices[0].index;
        choiceStates := Grow(choiceStates, k, NO_RUN);
        var current := Classify(chunk);
        justFinished := if choiceStates[k] != current then choiceStates[k] else NO_RUN;
        choiceStates := choiceStates[k := current];
      }
    }

    /** Clone: a new slice with the same choices and a new cell with the same usage. The choices are
        copied as they are, so the arrays of their tool calls are shared. */
    method CloneResponse() returns (copy: Stored)
      requires Valid()
      ensures copy.head == head
      ensures fresh(copy.choices) && copy.choices[..] == choices[..]
      ensures (copy.usage == null || fresh(copy.usage)) && UsageOf(copy.usage) == UsageOf(usage)
    {
      var slots := new Slot[choices.Length](_ => NO_SLOT);
      for i := 0 to choices.Length
        invariant slots[..i] == choices[..i]
      {
        slots[i] := choices[i];
      }
      var cell: UsageCell? := null;
      if usage != null {
        cell := new UsageCell(usage.usage);
      }
      copy := Stored(head, slots, cell);
    }

    method GetJustFinishedContent() returns (content: Option<string>)
      requires Valid()
      ensures content == JustFinishedContent(Value())
    {
      content := None;
      if justFinished.phase == Content && choices.Length > 0 {
        content := Some(choices[0].content);
      }
    }

    method GetJustFinishedToolCall() returns (call: Option<ToolCall>)
      requires Valid()
      ensures call == JustFinishedToolCall(Value())
    {
      call := None;
      if justFinished.phase == Tool && choices.Length > 0 {
        var tools := choices[0].tools;
        if tools != null && justFinished.index < tools.Length {
          call := Some(tools[justFinished.index]);
        }
      }
    }
  }

  lemma {:induction false} ToolsAtConcat(a: seq<Choice>, b: seq<Choice>, k: nat)
    ensures ToolsAt(a + b, k) == ToolsAt(a, k) + ToolsAt(b, k)
  {
    if b == [] {
      assert a + b == a;
    } else {
      ToolsAtConcat(a, Init(b), k);
      InitOfConcat(a, b);
      Reassociate(ToolsAt(a, k), ToolsAt(Init(b), k), if Last(b).index == k then ToolDeltas(Last(b)) else []);
    }
  }

  method AddNextChunk(
      acc: ResponseAccumulator, ghost first: seq<Slot>, ghost was: seq<Choice>, ghost prefix: seq<Choice>, chunk: Chunk)
    returns (ok: bool)
    requires acc.Valid() && Tracks(first, was, prefix, acc.choices[..])
    requires Apart(first, acc.choices[..])
    modifies acc, acc.choices, acc.usage, Arrays(acc.choices[..])
    ensures acc.Valid() && ok == Accepts(old(acc.head), chunk)
    ensures acc.Value() == AddChunk(old(acc.Value()), chunk)
    ensures Tracks(first, was, prefix + if ok then chunk.choices else [], acc.choices[..])
    ensures OldOrFresh(old(acc.choices[..]), acc.choices[..])
    ensures (acc.choices == old(acc.choices) || fresh(acc.choices)) && (acc.usage == old(acc.usage) || fresh(acc.usage))
  {
    ok := acc.AddChunk(Some(chunk));
    ghost var more := if ok then chunk.choices else [];
    forall i | 0 <= i < |first|
      ensures ToolsOf(first[i].tools) == InPlace(was[i].message.toolCalls, ToolsAt(prefix + more, i))
      ensures acc.choices[..][i].tools == first[i].tools
        <==> Fits(|was[i].message.toolCalls|, ToolsAt(prefix + more, i))
    {
      var slice := first[i].tools;
      TracksNext(was[i].message.toolCalls, prefix, more, i,
                 old(ToolsOf(slice)), old(acc.choices[..][i].tools) == slice,
                 ToolsOf(slice), acc.choices[..][i].tools == slice);
    }
  }

  /** One more chunk beside a clone, which has nothing but the arrays of its tool calls in common with
      the accumulator. */
  method AddNextBeside(copy: Stored, acc: ResponseAccumulator, ghost first: seq<Slot>, ghost was: seq<Choice>,
                       ghost prefix: seq<Choice>, chunk: Chunk)
    returns (ok: bool)
    requires acc.Valid() && Tracks(first, was, prefix, acc.choices[..]) && Apart(first, acc.choices[..])
    requires Beside(copy, acc)
    modifies acc, acc.choices, acc.usage, Arrays(acc.choices[..])
    ensures acc.Valid() && ok == Accepts(old(acc.head), chunk)
    ensures acc.Value() == AddChunk(old(acc.Value()), chunk)
    ensures Tracks(first, was, prefix + if ok then chunk.choices else [], acc.choices[..])
    ensures OldOrFresh(old(acc.choices[..]), acc.choices[..])
    ensures (acc.choices == old(acc.choices) || fresh(acc.choices)) && (acc.usage == old(acc.usage) || fresh(acc.usage))
    ensures Beside(copy, acc)
    ensures copy.choices[..] == old(copy.choices[..]) && UsageOf(copy.usage) == old(UsageOf(copy.usage))
  {
    ok := AddNextChunk(acc, first, was, prefix, chunk);
  }

  predicate Beside(copy: Stored, acc: ResponseAccumulator)
    reads acc
  {
    acc.choices != copy.choices && (acc.usage == null || acc.usage != copy.usage)
  }

  /** Chunk n of a stream that goes on beside a clone. */
  method AddBesideAt(copy: Stored, acc: ResponseAccumulator, ghost first: seq<Slot>, ghost was: seq<Choice>,
                     ghost start: State, chunks: seq<Chunk>, n: nat)
    requires n < |chunks| && acc.Valid() && acc.Value() == Accumulate(start, chunks[..n])
    requires Tracks(first, was, AllChoices(Taken(start, chunks[..n])), acc.choices[..])
    requires Apart(first, acc.choices[..]) && Beside(copy, acc)
    modifies acc, acc.choices, acc.usage, Arrays(acc.choices[..])
    ensures acc.Valid() && acc.Value() == Accumulate(start, chunks[..n + 1])
    ensures Tracks(first, was, AllChoices(Taken(start, chunks[..n + 1])), acc.choices[..])
    ensures OldOrFresh(old(acc.choices[..]), acc.choices[..])
    ensures (acc.choices == old(acc.choices) || fresh(acc.choices)) && (acc.usage == old(acc.usage) || fresh(acc.usage))
    ensures Beside(copy, acc)
    ensures copy.choices[..] == old(copy.choices[..]) && UsageOf(copy.usage) == old(UsageOf(copy.usage))
  {
    TakeNext(chunks, n);
    TakenNext(start, chunks[..n], chunks[n]);
    var ok := AddNextBeside(copy, acc, first, was, AllChoices(Taken(start, chunks[..n])), chunks[n]);
  }

  /** The stream goes on beside a clone. */
  method AddBeside(copy: Stored, acc: ResponseAccumulator, chunks: seq<Chunk>)
    requires acc.Valid() && Beside(copy, acc)
    modifies acc, acc.choices, acc.usage, Arrays(acc.choices[..])
    ensures acc.Valid() && acc.Value() == Accumulate(old(acc.Value()), chunks)
    ensures copy.choices[..] == old(copy.choices[..]) && UsageOf(copy.usage) == old(UsageOf(copy.usage))
    ensures Tracks(old(acc.choices[..]), old(Values(acc.choices[..])),
                   AllChoices(Taken(old(acc.Value()), chunks)), acc.choices[..])
  {
    ghost var first, was, start := acc.choices[..], Values(acc.choices[..]), acc.Value();
    for n := 0 to |chunks|
      invariant acc.Valid() && acc.Value() == Accumulate(start, chunks[..n])
      invariant Tracks(first, was, AllChoices(Taken(start, chunks[..n])), acc.choices[..])
      invariant OldOrFresh(first, acc.choices[..])
      invariant acc.choices == old(acc.choices) || fresh(acc.choices)
      invariant acc.usage == old(acc.usage) || fresh(acc.usage)
      invariant Beside(copy, acc)
      invariant copy.choices[..] == old(copy.choices[..]) && UsageOf(copy.usage) == old(UsageOf(copy.usage))
    {
      OldOrFreshIsApart(first, acc.choices[..]);
      AddBesideAt(copy, acc, first, was, start, chunks, n);
    }
    assert chunks[..|chunks|] == chunks;
  }

  /** A caller clones the response and the stream goes on, in place. The clone keeps its text and its
      usage, because AddChunk writes to the accumulator's own slice and cell and Clone has made new
      ones; the tool calls of the clone follow InPlace, because their arrays are shared. */
  method AddRest(acc: ResponseAccumulator, chunks: seq<Chunk>) returns (copy: Stored)
    requires acc.Valid()
    modifies acc, acc.choices, acc.usage, Arrays(acc.choices[..])
    ensures acc.Valid() && acc.Value() == Accumulate(old(acc.Value()), chunks)
    ensures copy.head == old(acc.head)
    ensures copy.choices[..] == old(acc.choices[..]) && UsageOf(copy.usage) == old(UsageOf(acc.usage))
    ensures Tracks(copy.choices[..], old(Values(acc.choices[..])),
                   AllChoices(Taken(old(acc.Value()), chunks)), acc.choices[..])
  {
    copy := acc.CloneResponse();
    AddBeside(copy, acc, chunks);
  }

  lemma TakenNext(s: State, chunks: seq<Chunk>, c: Chunk)
    ensures Accumulate(s, chunks + [c]) == AddChunk(Accumulate(s, chunks), c)
    ensures AllChoices(Taken(s, chunks + [c])) ==
      AllChoices(Taken(s, chunks)) + if Accepts(Accumulate(s, chunks).response, c) then c.choices else []
  {
    assert Init(chunks + [c]) == chunks;
    if Accepts(Accumulate(s, chunks).response, c) {
      assert Init(Taken(s, chunks) + [c]) == Taken(s, chunks);
    }
  }

  /** The chunks of a continuation that are accepted. */
  function Taken(s: State, chunks: seq<Chunk>): seq<Chunk> {
    if chunks == [] then []
    else
      var taken := Taken(s, Init(chunks));
      if Accepts(Accumulate(s, Init(chunks)).response, Last(chunks)) then taken + [Last(chunks)] else taken
  }

  // ------------------------------------------------------------------------------------
  // A clone that changes
  // ------------------------------------------------------------------------------------

  /** A chunk with a fragment of tool call 0 of choice 0. */
  function FragmentChunk(t: ToolCall): Chunk {
    NO_RESPONSE.(choices := [NO_CHOICE.(delta := NO_MESSAGE.(toolCalls := [t]))])
  }

  lemma OneFragment(t: ToolCall)
    requires t.index == Some(0)
    ensures var cs := AddChunk(ZERO, FragmentChunk(t)).response.choices; |cs| == 1 && cs[0].message.toolCalls == [t]
    ensures ToolsAt(FragmentChunk(t).choices, 0) == [t]
  {
    var d := NO_CHOICE.(delta := NO_MESSAGE.(toolCalls := [t]));
    assert FragmentChunk(t).choices == [d] && ToolDeltas(d) == [t];
    ToolsAtOne(d, 0);
    FirstTool(t);
    FirstChoice(d);
    MergeHasChoices(ZERO, FragmentChunk(t));
  }

  lemma MergeHasChoices(s: State, c: Chunk)
    requires Accepts(s.response, c)
    ensures AddChunk(s, c).response.choices == AddChoices(s.response.choices, c.choices)
  {
  }

  lemma FirstTool(t: ToolCall)
    requires t.index == Some(0)
    ensures AddTools([], [t]) == [t]
  {
    assert Init([t]) == [] && AddTools([], [t]) == AddTool([], t);
    assert "" + t.args == t.args && MergeTool(NO_TOOL, t) == t;
  }

  lemma FirstChoice(d: Choice)
    requires d.index == 0
    ensures AddChoices([], [d]) == [MergeChoice(NO_CHOICE, d)]
  {
    assert Init([d]) == [] && AddChoices([], [d]) == AddChoice([], d);
  }

  /** A clone taken in the middle of a tool call does change: the arguments seen through it keep growing
      with the stream. */
  method CopiedToolCallsCanChange(id: string, name: string, args: string, more: string)
    returns (before: string, after: string)
    ensures before == args && after == args + more
  {
    var t := ToolCall(id, "function", name, args, Some(0));
    OneFragment(t);
    OneFragment(t.(args := more));
    ArgumentsGrow(t, t.(args := more));
    var acc := new ResponseAccumulator();
    var ok := acc.AddChunk(Some(FragmentChunk(t)));
    assert ToolsOf(acc.choices[0].tools) == acc.Value().response.choices[0].message.toolCalls == [t];
    var copy := acc.CloneResponse();
    before := copy.choices[0].tools[0].args;
    ghost var slots := acc.choices[..];
    ok := acc.AddChunk(Some(FragmentChunk(t.(args := more))));
    assert ToolsOf(slots[0].tools) == [t.(args := args + more)];
    after := copy.choices[0].tools[0].args;
  }
}
