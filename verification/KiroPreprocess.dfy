/** First stage of the Kiro request pipeline: merging neighbouring messages of one role. */
module KiroPreprocess {
  import opened Common
  import opened KiroTypes

  /** What the check for a trailing "{" looks at. */
  function Probe(m: ChatMessage): string {
    if m.content == "" && m.parts != [] && m.parts[0].TextPart? && m.parts[0].text.Some?
    then m.parts[0].text.value else m.content
  }

  function DropBrace(ms: seq<ChatMessage>): seq<ChatMessage> {
    if ms != [] && Last(ms).role == Assistant && Probe(Last(ms)) == "{" then Init(ms) else ms
  }

  predicate Mergeable(a: Role, b: Role) {
    a == b && b != Tool
  }

  function TextParts(s: string): seq<ContentPart> {
    if s != "" then [TextPart(Some(s))] else []
  }

  /** `cur` merged into the message before it. */
  function MergeInto(prev: ChatMessage, cur: ChatMessage): ChatMessage {
    if prev.parts != [] && cur.parts != [] then prev.(parts := prev.parts + cur.parts)
    else if prev.parts == [] && cur.parts == [] then
      prev.(content :=
        if prev.content != "" && cur.content != "" then prev.content + "\n" + cur.content
        else if cur.content != "" then cur.content else prev.content)
    else if prev.parts != [] then prev.(parts := prev.parts + TextParts(cur.content))
    else prev.(content := "", parts := TextParts(prev.content) + cur.parts)
  }

  function MergeAll(ms: seq<ChatMessage>): seq<ChatMessage> {
    if ms == [] then []
    else
      var merged, cur := MergeAll(Init(ms)), Last(ms);
      if merged != [] && Mergeable(Last(merged).role, cur.role)
      then Init(merged) + [MergeInto(Last(merged), cur)] else merged + [cur]
  }

  method RemoveTrailingBrace(messages: seq<ChatMessage>) returns (result: seq<ChatMessage>)
    ensures result == DropBrace(messages)
  {
    result := messages;
    if |messages| == 0 {
      return;
    }
    var last := result[|result| - 1];
    if last.role == Assistant {
      var content := last.content;
      if content == "" && |last.parts| > 0 {
        if last.parts[0].TextPart? && last.parts[0].text.Some? {
          content := last.parts[0].text.value;
        }
      }
      if content == "{" {
        result := result[..|result| - 1];
      }
    }
  }

  method MergePair(previous: ChatMessage, cur: ChatMessage) returns (prev: ChatMessage)
    ensures prev == MergeInto(previous, cur)
  {
    prev := previous;
    var prevIsArray, curIsArray := |prev.parts| > 0, |cur.parts| > 0;
    if prevIsArray && curIsArray {
      prev := prev.(parts := prev.parts + cur.parts);
    } else if !prevIsArray && !curIsArray {
      if prev.content != "" && cur.content != "" {
        prev := prev.(content := prev.content + "\n" + cur.content);
      } else if cur.content != "" {
        prev := prev.(content := cur.content);
      }
    } else if prevIsArray && !curIsArray {
      if cur.content != "" {
        prev := prev.(parts := prev.parts + [TextPart(Some(cur.content))]);
      }
    } else {
      var newParts := [];
      if prev.content != "" {
        newParts := [TextPart(Some(prev.content))];
      }
      prev := prev.(content := "", parts := newParts + cur.parts);
    }
  }

  method PreprocessMessages(messages: seq<ChatMessage>) returns (merged: seq<ChatMessage>)
    ensures merged == MergeAll(DropBrace(messages))
  {
    var result := RemoveTrailingBrace(messages);
    if |result| == 0 {
      return result;
    }
    merged := [result[0]];
    assert Init(result[..1]) == [] && result[..|result|] == result;
    for i := 1 to |result|
      invariant merged == MergeAll(result[..i]) && merged != []
    {
      assert Init(result[..i + 1]) == result[..i];
      var cur, prev := result[i], merged[|merged| - 1];
      if cur.role != prev.role || cur.role == Tool {
        merged := merged + [cur];
      } else {
        prev := MergePair(prev, cur);
        merged := merged[..|merged| - 1] + [prev];
      }
    }
  }

  // ------------------------------------------------------------------------------------
  // What merging does to a conversation
  // ------------------------------------------------------------------------------------

  /** An assistant message that is just an opening brace, in its content or in its first part. */
  predicate IsOpeningBrace(m: ChatMessage) {
    m.role.Assistant? && (m.content == "{" || (m.content == "" && |m.parts| > 0 && m.parts[0] == TextPart(Some("{"))))
  }

  /** Exactly such a message is dropped at the end. */
  lemma BraceIsDropped(ms: seq<ChatMessage>)
    ensures DropBrace(ms) == if ms != [] && IsOpeningBrace(Last(ms)) then ms[..|ms| - 1] else ms
  {
  }

  predicate Separated(ms: seq<ChatMessage>) {
    forall i | 0 < i < |ms| :: !Mergeable(ms[i - 1].role, ms[i].role)
  }

  lemma {:induction false} MergedIsSeparated(ms: seq<ChatMessage>)
    ensures Separated(MergeAll(ms))
    ensures ms != [] ==> MergeAll(ms) != [] && Last(MergeAll(ms)).role == Last(ms).role
  {
    if ms == [] {
    } else {
      MergedIsSeparated(Init(ms));
      SeparatedNext(MergeAll(Init(ms)), Last(ms));
    }
  }

  lemma SeparatedNext(merged: seq<ChatMessage>, cur: ChatMessage)
    requires Separated(merged)
    ensures merged == [] || !Mergeable(Last(merged).role, cur.role) ==> Separated(merged + [cur])
    ensures merged != [] ==> Separated(Init(merged) + [MergeInto(Last(merged), cur)])
  {
    if merged != [] {
      assert MergeInto(Last(merged), cur).role == Last(merged).role;
    }
  }

  lemma {:induction false} SeparatedStays(ms: seq<ChatMessage>)
    requires Separated(ms)
    ensures MergeAll(ms) == ms
  {
    if ms == [] {
    } else {
      SeparatedStays(Init(ms));
    }
  }

  /** Merging twice is merging once. */
  lemma MergingIsIdempotent(ms: seq<ChatMessage>)
    ensures MergeAll(MergeAll(ms)) == MergeAll(ms)
  {
    MergedIsSeparated(ms);
    SeparatedStays(MergeAll(ms));
  }

  function ToolMessages(ms: seq<ChatMessage>): seq<ChatMessage> {
    if ms == [] then [] else ToolMessages(Init(ms)) + if Last(ms).role == Tool then [Last(ms)] else []
  }

  /** Tool messages pass through untouched and in order. */
  lemma {:induction false} ToolMessagesPass(ms: seq<ChatMessage>)
    ensures ToolMessages(MergeAll(ms)) == ToolMessages(ms)
  {
    if ms == [] {
    } else {
      ToolMessagesPass(Init(ms));
      var merged, cur := MergeAll(Init(ms)), Last(ms);
      assert Init(MergeAll(ms)) == merged || (merged != [] && Init(MergeAll(ms)) == Init(merged));
    }
  }

  /** The conversation cut into runs: neighbours of one non-tool role share a run. */
  function Runs(ms: seq<ChatMessage>): seq<seq<ChatMessage>> {
    if ms == [] then []
    else
      var runs, cur := Runs(Init(ms)), Last(ms);
      if runs != [] && Last(runs) != [] && Mergeable(Last(Last(runs)).role, cur.role)
      then Init(runs) + [Last(runs) + [cur]] else runs + [[cur]]
  }

  /** Messages of one role, and only one of them if that is the tool role. */
  predicate Uniform(run: seq<ChatMessage>) {
    && run != []
    && (forall j | 0 <= j < |run| :: run[j].role == run[0].role)
    && (|run| > 1 ==> Mergeable(run[0].role, run[0].role))
  }

  predicate Maximal(runs: seq<seq<ChatMessage>>) {
    && (forall i | 0 <= i < |runs| :: Uniform(runs[i]))
    && (forall i | 0 < i < |runs| :: !Mergeable(runs[i - 1][0].role, runs[i][0].role))
  }

  lemma {:induction false} RunsAreApart(ms: seq<ChatMessage>)
    ensures ms != [] ==> Runs(ms) != []
    ensures Maximal(Runs(ms))
  {
    if ms == [] {
    } else {
      RunsAreApart(Init(ms));
      var runs, cur := Runs(Init(ms)), Last(ms);
      if runs != [] {
        LongerIsUniform(Last(runs), cur);
      }
    }
  }

  lemma LongerIsUniform(run: seq<ChatMessage>, cur: ChatMessage)
    requires Uniform(run)
    ensures Last(run).role == run[0].role
    ensures Mergeable(Last(run).role, cur.role) ==> Uniform(run + [cur]) && (run + [cur])[0] == run[0]
  {
  }

  /** The runs put together again are the conversation. */
  lemma {:induction false} RunsCover(ms: seq<ChatMessage>)
    ensures Flatten(Runs(ms)) == ms
  {
    if ms == [] {
    } else {
      RunsCover(Init(ms));
      var runs, cur := Runs(Init(ms)), Last(ms);
      assert Init(ms) + [cur] == ms;
      if runs != [] {
        FlattenLonger(runs, cur);
      }
      FlattenAppend(runs, [cur]);
    }
  }

  /** The runs are the conversation, each is uniform, and no two neighbours could be one. */
  lemma RunsAreMaximal(ms: seq<ChatMessage>)
    ensures Flatten(Runs(ms)) == ms
    ensures ms != [] ==> Runs(ms) != []
    ensures Maximal(Runs(ms))
  {
    RunsCover(ms);
    RunsAreApart(ms);
  }

  /** There is no other way to cut a conversation like that. */
  lemma RunsAreUniqueIff(ms: seq<ChatMessage>, runs: seq<seq<ChatMessage>>)
    ensures runs == Runs(ms) <==> Flatten(runs) == ms && Maximal(runs)
  {
    RunsAreMaximal(ms);
    if Maximal(runs) {
      MaximalIsRuns(runs);
    }
  }

  lemma {:induction false} MaximalIsRuns(runs: seq<seq<ChatMessage>>)
    requires Maximal(runs)
    ensures Runs(Flatten(runs)) == runs
    decreases |Flatten(runs)|
  {
    if runs == [] {
    } else {
      var before, open := Init(runs), Last(runs);
      assert Uniform(open);
      FlattenEnd(before, open);
      InitAndLast(runs);
      if |open| == 1 {
        MaximalIsRuns(before);
        if before != [] {
          var last: seq<ChatMessage> := Last(before);
          assert last == runs[|runs| - 2] && Uniform(last) && !Mergeable(last[0].role, open[0].role);
        }
        assert open == [Last(open)];
      } else {
        ShorterIsMaximal(before, open);
        MaximalIsRuns(before + [Init(open)]);
        InitAndLast(open);
        assert Init(before + [Init(open)]) == before;
      }
    }
  }

  /** Taking the last message away takes it from the last run. */
  lemma FlattenEnd(before: seq<seq<ChatMessage>>, open: seq<ChatMessage>)
    requires open != []
    ensures var all, shorter := Flatten(before + [open]), if |open| == 1 then before else before + [Init(open)];
      all != [] && Init(all) == Flatten(shorter) && Last(all) == Last(open)
  {
    FlattenAppend(before, open);
    InitOfConcat(Flatten(before), open);
    if |open| == 1 {
      assert Flatten(before) + Init(open) == Flatten(before);
    } else {
      FlattenAppend(before, Init(open));
    }
  }

  lemma ShorterIsMaximal(before: seq<seq<ChatMessage>>, open: seq<ChatMessage>)
    requires Maximal(before + [open]) && |open| > 1
    ensures Maximal(before + [Init(open)])
    ensures Last(Init(open)).role == open[0].role == Last(open).role && open[0].role != Tool
  {
    var runs, shorter := before + [open], before + [Init(open)];
    assert Uniform(runs[|before|]);
    forall i | 0 <= i < |shorter| ensures Uniform(shorter[i]) {
      assert i < |before| ==> Uniform(runs[i]);
    }
    forall i | 0 < i < |shorter| ensures !Mergeable(shorter[i - 1][0].role, shorter[i][0].role) {
      assert !Mergeable(runs[i - 1][0].role, runs[i][0].role);
    }
  }

  lemma FlattenLonger(runs: seq<seq<ChatMessage>>, cur: ChatMessage)
    requires runs != []
    ensures Flatten(Init(runs) + [Last(runs) + [cur]]) == Flatten(runs) + [cur]
  {
    FlattenAppend(Init(runs), Last(runs) + [cur]);
    Reassociate(Flatten(Init(runs)), Last(runs), [cur]);
  }

  predicate AllPlain(run: seq<ChatMessage>) {
    forall i | 0 <= i < |run| :: run[i].parts == []
  }

  /** The non-empty texts of a run of plain messages, one per line. */
  function Lines(run: seq<ChatMessage>): string {
    if run == [] then ""
    else
      var before, s := Lines(Init(run)), Last(run).content;
      if before == "" then s else if s == "" then before else before + "\n" + s
  }

  /** A text as a part; no text is no part. */
  function AsPart(s: string): seq<ContentPart> {
    if |s| == 0 then [] else [TextPart(Some(s))]
  }

  /** What a message says: its parts if it has any, otherwise its text. */
  function Said(m: ChatMessage): seq<ContentPart> {
    if m.parts != [] then m.parts else AsPart(m.content)
  }

  /** What a run says: the leading plain texts joined line by line, then everything else in order. */
  function RunSays(run: seq<ChatMessage>): seq<ContentPart> {
    if AllPlain(run) then AsPart(Lines(run)) else RunSays(Init(run)) + Said(Last(run))
  }

  function MergeRun(run: seq<ChatMessage>): ChatMessage
    requires run != []
  {
    if |run| == 1 then run[0] else MergeInto(MergeRun(Init(run)), Last(run))
  }

  /** The merged message of a run says what the run says; its other fields, tool calls and
      reasoning included, are those of the first message alone. */
  lemma {:induction false} RunIsSaid(run: seq<ChatMessage>)
    requires run != []
    ensures Said(MergeRun(run)) == RunSays(run)
    ensures AllPlain(run) <==> MergeRun(run).parts == []
    ensures MergeRun(run).content ==
      if AllPlain(run) then Lines(run) else if run[0].parts != [] then run[0].content else ""
    ensures MergeRun(run) == run[0].(content := MergeRun(run).content, parts := MergeRun(run).parts)
  {
    if |run| == 1 {
      assert Init(run) == [] && Lines(run) == run[0].content;
      assert RunSays([]) + Said(run[0]) == Said(run[0]);
    } else {
      RunIsSaid(Init(run));
      assert AllPlain(run) <==> AllPlain(Init(run)) && Last(run).parts == [];
    }
  }

  predicate NoneEmpty(runs: seq<seq<ChatMessage>>) {
    forall i | 0 <= i < |runs| :: runs[i] != []
  }

  /** One message for each run. */
  function MergeRuns(runs: seq<seq<ChatMessage>>): (merged: seq<ChatMessage>)
    requires NoneEmpty(runs)
    ensures |merged| == |runs| && forall i | 0 <= i < |runs| :: merged[i] == MergeRun(runs[i])
  {
    if runs == [] then [] else MergeRuns(Init(runs)) + [MergeRun(Last(runs))]
  }

  lemma MergeRunsNext(runs: seq<seq<ChatMessage>>, run: seq<ChatMessage>)
    requires NoneEmpty(runs) && run != []
    ensures NoneEmpty(runs + [run]) && MergeRuns(runs + [run]) == MergeRuns(runs) + [MergeRun(run)]
  {
    assert Init(runs + [run]) == runs;
  }

  lemma {:induction false} MergedRunByRun(ms: seq<ChatMessage>)
    ensures NoneEmpty(Runs(ms)) && MergeAll(ms) == MergeRuns(Runs(ms))
  {
    RunsAreMaximal(ms);
    if ms == [] {
    } else {
      var runs, cur := Runs(Init(ms)), Last(ms);
      MergedRunByRun(Init(ms));
      RunsAreMaximal(Init(ms));
      MergeRunsNext(runs, [cur]);
      if runs != [] {
        LongerRun(Last(runs), cur);
        assert Last(MergeRuns(runs)) == MergeRun(Last(runs));
        assert NoneEmpty(Init(runs));
        MergeRunsNext(Init(runs), Last(runs) + [cur]);
      }
    }
  }

  lemma LongerRun(run: seq<ChatMessage>, cur: ChatMessage)
    requires Uniform(run)
    ensures MergeRun(run + [cur]) == MergeInto(MergeRun(run), cur)
    ensures MergeRun(run).role == Last(run).role
    ensures MergeRun([cur]) == cur
  {
    assert Init(run + [cur]) == run;
    RunIsSaid(run);
  }

  /** The result of the merge pass, message by message. */
  lemma MergeKeepsWhatIsSaid(ms: seq<ChatMessage>, i: nat)
    requires i < |MergeAll(ms)|
    ensures i < |Runs(ms)| && Runs(ms)[i] != [] && Said(MergeAll(ms)[i]) == RunSays(Runs(ms)[i])
    ensures var m, run := MergeAll(ms)[i], Runs(ms)[i];
      && m == run[0].(content := m.content, parts := m.parts)
      && m.content == (if AllPlain(run) then Lines(run) else if run[0].parts != [] then run[0].content else "")
  {
    MergedRunByRun(ms);
    RunIsSaid(Runs(ms)[i]);
  }
}
