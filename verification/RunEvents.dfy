/** The just-finished events of a stream whose chunks carry at most one choice, at index 0. */
module RunEvents {
  import opened Common
  import opened Accumulator

  predicate SingleChoice(chunks: seq<Chunk>) {
    forall i | 0 <= i < |chunks| ::
      |chunks[i].choices| <= 1 && (chunks[i].choices != [] ==> chunks[i].choices[0].index == 0)
  }

  /** The chunks with a choice. */
  function Speaking(chunks: seq<Chunk>): seq<Chunk> {
    if chunks == [] then []
    else Speaking(Init(chunks)) + if Last(chunks).choices != [] then [Last(chunks)] else []
  }

  predicate HasText(c: Chunk)
    requires c.choices != []
  {
    c.choices[0].delta.content != ""
  }

  /** The tool call a chunk is about: that of its first fragment, unless it has text. A finishing chunk
      is about the fragments of its delta only. */
  function ToolIn(c: Chunk): Option<nat>
    requires c.choices != []
  {
    var d := c.choices[0];
    var fragments := if d.delta.toolCalls == [] && !c.done then d.message.toolCalls else d.delta.toolCalls;
    if HasText(c) || fragments == [] then None else Some(fragments[0].index.GetOr(0))
  }

  /** What a chunk is about, as a state of the run detector. */
  function About(c: Chunk): RunState
    requires c.choices != []
  {
    if HasText(c) then RunState(Content, 0)
    else if ToolIn(c).Some? then RunState(Phase.Tool, ToolIn(c).value)
    else RunState(Finished, 0)
  }

  lemma ClassifiedByWhatItSays(c: Chunk)
    requires c.choices != []
    ensures Classify(c) == About(c)
  {
  }

  /** What each chunk with a choice is about, in order. */
  function Classes(chunks: seq<Chunk>): seq<RunState> {
    if chunks == [] then []
    else Classes(Init(chunks)) + if Last(chunks).choices != [] then [About(Last(chunks))] else []
  }

  /** One entry per maximal run of equal values. */
  function Runs(cs: seq<RunState>): seq<RunState> {
    if cs == [] then []
    else if |cs| > 1 && Last(cs) == cs[|cs| - 2] then Runs(Init(cs))
    else Runs(Init(cs)) + [Last(cs)]
  }

  lemma {:induction false} RunsEnd(cs: seq<RunState>)
    requires cs != []
    ensures Runs(cs) != [] && Last(Runs(cs)) == Last(cs)
    ensures forall i | 0 < i < |Runs(cs)| :: Runs(cs)[i - 1] != Runs(cs)[i]
  {
    if |cs| == 1 {
    } else {
      RunsEnd(Init(cs));
    }
  }

  /** The events reported while the chunks are added one by one. */
  function Events(chunks: seq<Chunk>): seq<RunState> {
    if chunks == [] then []
    else
      var e := Accumulate(ZERO, chunks).justFinished;
      Events(Init(chunks)) + if e.phase != Empty then [e] else []
  }

  function Completed(cs: seq<RunState>): seq<RunState> {
    if Runs(cs) == [] then [] else Init(Runs(cs))
  }

  lemma {:induction false} SingleChoiceKept(id: string, chunks: seq<Chunk>)
    requires SingleChoice(chunks)
    ensures SingleChoice(WithId(id, chunks))
  {
    if chunks == [] {
    } else {
      SingleChoiceKept(id, Init(chunks));
    }
  }

  /** One chunk either is kept and moves the run detector, or changes nothing. */
  lemma OneChunk(chunks: seq<Chunk>)
    requires chunks != []
    ensures var before, after, c := Accumulate(ZERO, Init(chunks)), Accumulate(ZERO, chunks), Last(chunks);
      if Accepts(before.response, c) then
        && Kept(chunks) == Kept(Init(chunks)) + [c]
        && (after.runs, after.justFinished) == NoteRun(before.runs, c)
        && after.response.choices == AddChoices(before.response.choices, c.choices)
      else
        Kept(chunks) == Kept(Init(chunks)) && after == before.(justFinished := NO_RUN)
  {
    StreamInClosedForm(Init(chunks));
    KeptStep(chunks);
  }

  lemma ClassesStep(prev: seq<Chunk>, c: Chunk)
    ensures Classes(prev + [c]) == Classes(prev) + if c.choices != [] then [Classify(c)] else []
  {
    assert Init(prev + [c]) == prev;
    if c.choices != [] {
      ClassifiedByWhatItSays(c);
    }
  }

  lemma {:induction false} StateTracksClass(chunks: seq<Chunk>)
    requires SingleChoice(chunks)
    ensures var cs := Classes(Kept(chunks));
      Accumulate(ZERO, chunks).runs == if cs == [] then [] else [Last(cs)]
  {
    if chunks == [] {
    } else {
      StateTracksClass(Init(chunks));
      OneChunk(chunks);
      ClassesStep(Kept(Init(chunks)), Last(chunks));
    }
  }

  lemma RunsStep(cs: seq<RunState>, c: RunState)
    ensures Completed(cs + [c]) == Completed(cs) + if cs != [] && Last(cs) != c then [Last(cs)] else []
  {
    assert Init(cs + [c]) == cs;
    if cs != [] {
      RunsEnd(cs);
    }
  }

  /** What one chunk does to the classified stream and what it reports. */
  lemma OneEvent(chunks: seq<Chunk>)
    requires chunks != [] && SingleChoice(chunks)
    ensures var cs, cs' := Classes(Kept(Init(chunks))), Classes(Kept(chunks));
      var e := Accumulate(ZERO, chunks).justFinished;
      || (cs' == cs && e.phase == Empty)
      || (cs' != [] && cs' == cs + [Last(cs')] &&
          if cs != [] && Last(cs) != Last(cs') then e == Last(cs) && e.phase != Empty else e.phase == Empty)
  {
    var kept := Kept(Init(chunks));
    OneChunk(chunks);
    StateTracksClass(Init(chunks));
    ClassesAreProper(kept);
    ClassesStep(kept, Last(chunks));
    if Last(chunks).choices != [] {
      NoteOne(Classes(kept), Last(chunks));
    }
  }

  lemma NoteOne(cs: seq<RunState>, c: Chunk)
    requires |c.choices| == 1 && c.choices[0].index == 0
    requires forall i | 0 <= i < |cs| :: cs[i].phase != Empty
    ensures Last(cs + [Classify(c)]) == Classify(c)
    ensures NoteRun(if cs == [] then [] else [Last(cs)], c).1 ==
            if cs != [] && Last(cs) != Classify(c) then Last(cs) else NO_RUN
  {
  }

  /** Each maximal run of the classified stream, except the one still open, is reported exactly
      once, in order, at the chunk that ends it. */
  lemma {:induction false} EventsAreFinishedRuns(chunks: seq<Chunk>)
    requires SingleChoice(chunks)
    ensures Events(chunks) == Completed(Classes(Kept(chunks)))
  {
    if chunks == [] {
    } else {
      EventsAreFinishedRuns(Init(chunks));
      OneEvent(chunks);
      var cs, cs' := Classes(Kept(Init(chunks))), Classes(Kept(chunks));
      if cs' != cs {
        RunsStep(cs, Last(cs'));
      }
    }
  }

  lemma {:induction false} ClassesAreProper(chunks: seq<Chunk>)
    ensures forall i | 0 <= i < |Classes(chunks)| :: Classes(chunks)[i].phase != Empty
    ensures forall i | 0 <= i < |Classes(chunks)| ::
        Classes(chunks)[i].phase == Content ==> Classes(chunks)[i] == RunState(Content, 0)
  {
    if chunks == [] {
    } else {
      ClassesAreProper(Init(chunks));
    }
  }

  /** A content event hands out all the text accumulated before the chunk that ended it. */
  lemma FinishedContentIsWhole(chunks: seq<Chunk>)
    requires chunks != [] && SingleChoice(chunks)
    requires Accumulate(ZERO, chunks).justFinished.phase == Content
    ensures JustFinishedContent(Accumulate(ZERO, chunks))
        == Some(ContentAt(AllChoices(Kept(Init(chunks))), 0))
  {
    var c, kept := Last(chunks), Kept(Init(chunks));
    OneChunk(chunks);
    FinishedBySilence(chunks);
    StreamInClosedForm(Init(chunks));
    SingleChoiceKept(FirstId(Init(chunks)), Init(chunks));
    ContentMeansChoice(kept);
    ChoiceSlot(AllChoices(kept), 0);
    SilentChoiceKeepsContent(AddChoices([], AllChoices(kept)), c.choices);
  }

  lemma FinishedBySilence(chunks: seq<Chunk>)
    requires chunks != [] && SingleChoice(chunks)
    requires Accumulate(ZERO, chunks).justFinished.phase == Content
    ensures Accepts(Accumulate(ZERO, Init(chunks)).response, Last(chunks))
    ensures Classes(Kept(Init(chunks))) != []
    ensures |Last(chunks).choices| == 1 && Last(chunks).choices[0].index == 0
    ensures Last(chunks).choices[0].delta.content == ""
  {
    OneChunk(chunks);
    StateTracksClass(Init(chunks));
    ClassesAreProper(Kept(Init(chunks)));
  }

  lemma SilentChoiceKeepsContent(cs: seq<Choice>, ds: seq<Choice>)
    requires cs != [] && |ds| == 1 && ds[0].index == 0 && ds[0].delta.content == ""
    ensures AddChoices(cs, ds) != [] && AddChoices(cs, ds)[0].message.content == cs[0].message.content
  {
    assert AddChoices(cs, Init(ds)) == cs;
    assert cs[0].message.content + "" == cs[0].message.content;
  }

  lemma {:induction false} ContentMeansChoice(chunks: seq<Chunk>)
    requires SingleChoice(chunks) && Classes(chunks) != []
    ensures |AddChoices([], AllChoices(chunks))| > 0
  {
    var ds := AllChoices(chunks);
    ChoiceCount(ds);
    if Last(chunks).choices != [] {
      assert Last(ds) == Last(chunks).choices[0];
    } else {
      assert ds == AllChoices(Init(chunks));
      ContentMeansChoice(Init(chunks));
      ChoiceCount(ds);
    }
  }

  // ------------------------------------------------------------------------------------
  // Tool events
  // ------------------------------------------------------------------------------------

  lemma {:induction false} FragmentsReach(ts: seq<ToolCall>, i: nat)
    requires i < |ts|
    ensures ToolIndex(ts[i]) < Extent(ts)
  {
    if i == |ts| - 1 {
    } else {
      FragmentsReach(Init(ts), i);
    }
  }

  lemma {:induction false} ExtentGrows(a: seq<ToolCall>, b: seq<ToolCall>)
    ensures Extent(a) <= Extent(a + b) && Extent(b) <= Extent(a + b)
  {
    if b == [] {
      assert a + b == a;
    } else {
      ExtentGrows(a, Init(b));
      InitOfConcat(a, b);
    }
  }

  /** A stream that stands in a run of tool call j has brought a fragment of it. */
  lemma {:induction false} ToolMeansFragment(chunks: seq<Chunk>)
    requires SingleChoice(chunks) && Classes(chunks) != [] && Last(Classes(chunks)).phase == Phase.Tool
    ensures Last(Classes(chunks)).index < Extent(ToolsAt(AllChoices(chunks), 0))
  {
    var before, c := Init(chunks), Last(chunks);
    if c.choices == [] {
      assert AllChoices(chunks) == AllChoices(before);
      ToolMeansFragment(before);
    } else {
      assert c.choices == [c.choices[0]];
      FragmentCounts(AllChoices(before), c.choices[0]);
    }
  }

  lemma FragmentCounts(ds: seq<Choice>, d: Choice)
    requires d.index == 0 && ToolDeltas(d) != []
    ensures ToolIndex(ToolDeltas(d)[0]) < Extent(ToolsAt(ds + [d], 0))
  {
    assert Init(ds + [d]) == ds;
    FragmentsReach(ToolDeltas(d), 0);
    ExtentGrows(ToolsAt(ds, 0), ToolDeltas(d));
  }

  lemma FinishedTool(chunks: seq<Chunk>)
    requires chunks != [] && SingleChoice(chunks) && Accumulate(ZERO, chunks).justFinished.phase == Phase.Tool
    ensures var before, c := Init(chunks), Last(chunks);
      && Accepts(Accumulate(ZERO, before).response, c)
      && Classes(Kept(before)) != [] && Last(Classes(Kept(before))) == Accumulate(ZERO, chunks).justFinished
      && |c.choices| == 1 && c.choices[0].index == 0
  {
    OneChunk(chunks);
    StateTracksClass(Init(chunks));
    ClassesAreProper(Kept(Init(chunks)));
  }

  /** The tool calls of choice 0 so far. */
  function ToolCallsOf(s: State): seq<ToolCall> {
    if s.response.choices == [] then [] else s.response.choices[0].message.toolCalls
  }

  lemma ToolCallExists(chunks: seq<Chunk>, j: nat)
    requires SingleChoice(chunks) && Classes(Kept(chunks)) != [] && Last(Classes(Kept(chunks))) == RunState(Phase.Tool, j)
    ensures Accumulate(ZERO, chunks).response.choices != [] && j < |ToolCallsOf(Accumulate(ZERO, chunks))|
  {
    var kept := Kept(chunks);
    StreamInClosedForm(chunks);
    SingleChoiceKept(FirstId(chunks), chunks);
    ContentMeansChoice(kept);
    ChoiceSlot(AllChoices(kept), 0);
    ToolMeansFragment(kept);
    ToolCount([], ToolsAt(AllChoices(kept), 0));
  }

  lemma AddOneChoice(cs: seq<Choice>, d: Choice)
    requires cs != [] && d.index == 0
    ensures AddChoices(cs, [d]) != []
    ensures AddChoices(cs, [d])[0].message.toolCalls == AddTools(cs[0].message.toolCalls, ToolDeltas(d))
  {
    assert Init([d]) == [] && AddChoices(cs, []) == cs;
  }

  /** A tool event hands out the call as it was before the chunk that ended its run, if and only if
      that chunk, which may bring fragments beside its text, says nothing new about it. */
  lemma FinishedToolCallIsWholeIff(chunks: seq<Chunk>)
    requires chunks != [] && SingleChoice(chunks) && Accumulate(ZERO, chunks).justFinished.phase == Phase.Tool
    ensures var before, after := Accumulate(ZERO, Init(chunks)), Accumulate(ZERO, chunks);
      var j := after.justFinished.index;
      && |Last(chunks).choices| == 1 && j < |ToolCallsOf(before)|
      && (JustFinishedToolCall(after) == Some(ToolCallsOf(before)[j]) <==>
          Silent(ToolDeltas(Last(chunks).choices[0]), ToolCallsOf(before)[j], j))
  {
    var before, j := Accumulate(ZERO, Init(chunks)), Accumulate(ZERO, chunks).justFinished.index;
    FinishedTool(chunks);
    var d := Last(chunks).choices[0];
    ToolCallExists(Init(chunks), j);
    OneChunk(chunks);
    assert Last(chunks).choices == [d];
    AddOneChoice(before.response.choices, d);
    ToolCount(ToolCallsOf(before), ToolDeltas(d));
    ToolSlot(ToolCallsOf(before), ToolDeltas(d), j);
    SilentMeansSame(ToolDeltas(d), ToolCallsOf(before)[j], j);
  }

  // ------------------------------------------------------------------------------------
  // When an event comes
  // ------------------------------------------------------------------------------------

  lemma {:induction false} ClassOfLast(chunks: seq<Chunk>)
    ensures Speaking(chunks) == [] <==> Classes(chunks) == []
    ensures Speaking(chunks) != [] ==>
      Last(Speaking(chunks)).choices != [] && Last(Classes(chunks)) == About(Last(Speaking(chunks)))
  {
    if chunks == [] {
    } else {
      ClassOfLast(Init(chunks));
    }
  }

  /** The last chunk counts and has a choice, and so has one before it. */
  predicate Follows(chunks: seq<Chunk>)
    requires chunks != []
  {
    && (Last(chunks).id == "" || Last(chunks).id == FirstId(chunks))
    && Last(chunks).choices != [] && Speaking(Kept(Init(chunks))) != []
  }

  function Previous(chunks: seq<Chunk>): (c: Chunk)
    requires chunks != [] && Follows(chunks)
    ensures c.choices != []
  {
    ClassOfLast(Kept(Init(chunks)));
    Last(Speaking(Kept(Init(chunks))))
  }

  /** What is reported at a chunk: what the one before it was about, if it is about something else. */
  lemma EventAt(chunks: seq<Chunk>)
    requires chunks != [] && SingleChoice(chunks)
    ensures Accumulate(ZERO, chunks).justFinished ==
      if Follows(chunks) && About(Previous(chunks)) != About(Last(chunks)) then About(Previous(chunks)) else NO_RUN
  {
    var kept := Kept(Init(chunks));
    OneChunk(chunks);
    StreamInClosedForm(Init(chunks));
    StateTracksClass(Init(chunks));
    ClassOfLast(kept);
    if Last(chunks).choices != [] {
      ClassifiedByWhatItSays(Last(chunks));
      ClassesAreProper(kept);
      NoteOne(Classes(kept), Last(chunks));
    }
  }

  /** Text is reported as finished exactly at a chunk without text behind one with text. */
  lemma ContentEventIff(chunks: seq<Chunk>)
    requires chunks != [] && SingleChoice(chunks)
    ensures JustFinishedContent(Accumulate(ZERO, chunks)).Some? <==>
      Follows(chunks) && HasText(Previous(chunks)) && !HasText(Last(chunks))
  {
    EventAt(chunks);
    if Follows(chunks) && HasText(Previous(chunks)) && !HasText(Last(chunks)) {
      FinishedContentIsWhole(chunks);
    }
  }

  /** A tool call is reported as finished exactly at a chunk that is not about it behind one that is, and
      it is that tool call. */
  lemma ToolEventIff(chunks: seq<Chunk>)
    requires chunks != [] && SingleChoice(chunks)
    ensures var after := Accumulate(ZERO, chunks);
      && (JustFinishedToolCall(after).Some? <==>
          Follows(chunks) && ToolIn(Previous(chunks)).Some? && ToolIn(Last(chunks)) != ToolIn(Previous(chunks)))
      && (JustFinishedToolCall(after).Some? ==>
          && ToolIn(Previous(chunks)).value < |ToolCallsOf(after)|
          && JustFinishedToolCall(after).value == ToolCallsOf(after)[ToolIn(Previous(chunks)).value])
  {
    EventAt(chunks);
    if Accumulate(ZERO, chunks).justFinished.phase == Phase.Tool {
      FinishedToolStays(chunks);
    }
  }

  /** The finished tool call is still there behind the chunk that ended its run. */
  lemma FinishedToolStays(chunks: seq<Chunk>)
    requires chunks != [] && SingleChoice(chunks) && Accumulate(ZERO, chunks).justFinished.phase == Phase.Tool
    ensures Accumulate(ZERO, chunks).justFinished.index < |ToolCallsOf(Accumulate(ZERO, chunks))|
  {
    var before, j := Accumulate(ZERO, Init(chunks)), Accumulate(ZERO, chunks).justFinished.index;
    FinishedTool(chunks);
    var d := Last(chunks).choices[0];
    ToolCallExists(Init(chunks), j);
    OneChunk(chunks);
    assert Last(chunks).choices == [d];
    AddOneChoice(before.response.choices, d);
    ToolCount(ToolCallsOf(before), ToolDeltas(d));
  }
}
