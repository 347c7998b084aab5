/** Which tool results a Kiro request carries, over all stages of the pipeline together. */
module KiroResults {
  import opened Common
  import opened Accumulator
  import opened KiroTypes
  import opened KiroHistory
  import opened KiroPreprocess
  import opened KiroRequest
  import KiroTools

  // ------------------------------------------------------------------------------------
  // The tool results of the current message
  // ------------------------------------------------------------------------------------

  lemma {:induction false} DedupIgnoresRepeats(a: seq<ToolResult>, b: seq<ToolResult>)
    requires Ids(b) <= Ids(a)
    ensures Dedup(a + b) == Dedup(a) && Ids(a + b) == Ids(a)
  {
    if b == [] {
      assert a + b == a;
    } else {
      IdsAppend(Init(b), Last(b));
      assert b == Init(b) + [Last(b)] && a + b == (a + Init(b)) + [Last(b)];
      DedupIgnoresRepeats(a, Init(b));
      IdsAppend(a + Init(b), Last(b));
      DedupAppend(a + Init(b), Last(b));
    }
  }

  lemma KnownAppend(rs: seq<ToolResult>, r: ToolResult, ids: set<string>)
    ensures Known(rs + [r], ids) == if r.id in ids then Known(rs, ids) + [r] else Known(rs, ids)
  {
    assert Init(rs + [r]) == rs;
  }

  lemma {:induction false} KnownCommutesWithDedup(rs: seq<ToolResult>, ids: set<string>)
    ensures Dedup(Known(rs, ids)) == Known(Dedup(rs), ids)
  {
    if rs == [] {
    } else {
      var before, r := Init(rs), Last(rs);
      assert rs == before + [r];
      KnownCommutesWithDedup(before, ids);
      KnownIds(before, ids);
      KnownAppend(before, r, ids);
      DedupAppend(before, r);
      KnownAppend(Dedup(before), r, ids);
      DedupAppend(Known(before, ids), r);
    }
  }

  lemma KnownIds(rs: seq<ToolResult>, ids: set<string>)
    ensures Ids(Known(rs, ids)) == Ids(rs) * ids
  {
    KnownIsSelective(rs, ids);
  }

  lemma {:induction false} RunIsTail(ms: seq<ChatMessage>)
    ensures Ids(TrailingRun(ms)) <= Ids(TailTools(ms))
    ensures (forall i | 0 <= i < |ms| :: !ms[i].role.Unknown? && !ms[i].role.System?) ==>
        TrailingRun(ms) == TailTools(ms)
  {
    if ms == [] || !Last(ms).role.Tool? {
    } else {
      RunIsTail(Init(ms));
      var r := ResultOf(Last(ms));
      assert Ids(TrailingRun(ms)) == Ids(TrailingRun(Init(ms))) + {r.id};
      assert Ids(TailTools(ms)) == Ids(TailTools(Init(ms))) + {r.id};
    }
  }

  /** When a conversation ends with tool messages, the pending results and the re-scanned run
      overlap; still, each result reaches the request once, in order. */
  lemma TrailingToolsReachTheRequest(ms: seq<ChatMessage>, modelId: string, prompt: string, tools: seq<ToolSpec>)
    requires ms != [] && Last(ms).role.Tool?
    ensures var r := RequestFor(ms, modelId, prompt, tools);
      ContextResults(r.current.context) == Admitted(Dedup(TailTools(ms)), r.history)
  {
    var r := RequestFor(ms, modelId, prompt, tools);
    var pending := DraftOf(Init(ms), modelId, |ms|).pending;
    ToolResultsAreConserved(ms, modelId);
    OverlapIsHarmless(ms);
    KnownCommutesWithDedup(pending + TrailingRun(ms), UseIds(r.history));
  }

  lemma OverlapIsHarmless(ms: seq<ChatMessage>)
    requires ms != [] && Last(ms).role.Tool?
    ensures Dedup(TailTools(Init(ms)) + TrailingRun(ms)) == Dedup(TailTools(ms))
  {
    var before, run, last := TailTools(Init(ms)), TrailingRun(Init(ms)), ResultOf(Last(ms));
    RunIsTail(Init(ms));
    Reassociate(before, run, [last]);
    DedupIgnoresRepeats(before, run);
    DedupAppend(before + run, last);
    DedupAppend(before, last);
  }

  /** When it ends with any other message that is not the assistant's, the results that no earlier
      message carried go with it. */
  lemma PendingToolsReachTheRequest(ms: seq<ChatMessage>, modelId: string, prompt: string, tools: seq<ToolSpec>)
    requires ms != [] && !Last(ms).role.Tool? && !Last(ms).role.Assistant?
    ensures var r := RequestFor(ms, modelId, prompt, tools);
      ContextResults(r.current.context) == Admitted(Dedup(TailTools(Init(ms))), r.history)
  {
    var r := RequestFor(ms, modelId, prompt, tools);
    var pending := TailTools(Init(ms));
    ToolResultsAreConserved(ms, modelId);
    assert TrailingRun(ms) == [] && pending + [] == pending;
    KnownCommutesWithDedup(pending, UseIds(r.history));
  }

  // ------------------------------------------------------------------------------------
  // Behind a final assistant message
  // ------------------------------------------------------------------------------------

  /** The tool uses that a message declares once it is history. */
  function CallIds(m: ChatMessage): set<string> {
    set c | c in m.toolCalls && c.kind in {"function", "tool_use"} :: c.id
  }

  lemma {:induction false} UsesOfCalls(calls: seq<ToolCall>)
    ensures forall u | u in UsesOf(calls) :: exists c :: c in calls && c.kind in {"function", "tool_use"} && c.id == u.id
    ensures forall c | c in calls && c.kind in {"function", "tool_use"} :: UseOf(c) in UsesOf(calls)
  {
    if calls == [] {
    } else {
      UsesOfCalls(Init(calls));
      assert Init(calls) + [Last(calls)] == calls;
      forall u | u in UsesOf(calls)
        ensures exists c :: c in calls && c.kind in {"function", "tool_use"} && c.id == u.id
      {
        if u in UsesOf(Init(calls)) {
          var c :| c in Init(calls) && c.kind in {"function", "tool_use"} && c.id == u.id;
          assert c in calls;
        } else {
          assert Last(calls) in calls;
        }
      }
    }
  }

  lemma UsesAreCalls(m: ChatMessage)
    ensures ItemUses(AssistantItem(HistoryAssistant(m))) == CallIds(m)
  {
    var uses := UsesOf(m.toolCalls);
    UsesOfCalls(m.toolCalls);
    forall c | c in m.toolCalls && c.kind in {"function", "tool_use"} ensures c.id in set u | u in uses :: u.id {
      assert UseOf(c) in uses && UseOf(c).id == c.id;
    }
  }

  /** The tool uses that the assistant messages of a conversation declare. */
  function CallsIn(ms: seq<ChatMessage>): set<string> {
    if ms == [] then {} else CallsIn(Init(ms)) + if Last(ms).role.Assistant? then CallIds(Last(ms)) else {}
  }

  lemma StepDeclares(d: Draft, m: ChatMessage, modelId: string, distance: nat)
    ensures var d' := DraftStep(d, m, modelId, distance);
      && UseIds(d'.items) == UseIds(d.items) + (if m.role.Assistant? then CallIds(m) else {})
      && |d'.items| <= |d.items| + 2
  {
    match m.role
    case User =>
      AppendItem(d.items, UserItem(Carry(HistoryUser(m, modelId, distance <= KEEP_IMAGE_THRESHOLD), d.pending)));
    case Assistant =>
      var answer := AssistantItem(HistoryAssistant(m));
      UsesAreCalls(m);
      AppendItem(d.items, Synthetic(modelId, d.pending));
      AppendItem(if d.pending != [] then d.items + [Synthetic(modelId, d.pending)] else d.items, answer);
    case _ =>
  }

  lemma {:induction false} DraftDeclares(ms: seq<ChatMessage>, modelId: string, total: nat)
    requires |ms| < total
    ensures UseIds(DraftOf(ms, modelId, total).items) == CallsIn(ms)
    ensures |DraftOf(ms, modelId, total).items| <= 2 * |ms|
  {
    if ms == [] {
    } else {
      DraftDeclares(Init(ms), modelId, total);
      StepDeclares(DraftOf(Init(ms), modelId, total), Last(ms), modelId, total - |ms|);
    }
  }

  lemma {:induction false} UsesConcat(a: seq<HistoryItem>, b: seq<HistoryItem>)
    ensures UseIds(a + b) == UseIds(a) + UseIds(b)
  {
    if b == [] {
      assert a + b == a;
    } else {
      UsesConcat(a, Init(b));
      InitOfConcat(a, b);
    }
  }

  /** Up to 25 messages nothing is truncated: the history declares the uses of all earlier assistant
      messages, and holds all earlier tool results but the pending ones. */
  lemma ShortHistory(ms: seq<ChatMessage>, modelId: string)
    requires 0 < |ms| <= 25
    ensures UseIds(Unfiltered(ms, modelId)) == CallsIn(Init(ms))
    ensures HistoryResults(Unfiltered(ms, modelId)) + TailTools(Init(ms)) == ToolResultsOf(Init(ms))
  {
    var items := DraftOf(Init(ms), modelId, |ms|).items;
    var dot := UserItem(UserInput(".", modelId, ORIGIN, [], None));
    DraftDeclares(Init(ms), modelId, |ms|);
    ToolResultsAreConserved(ms, modelId);
    UsesConcat([dot], items);
    AppendItem([], dot);
    assert [] + [dot] == [dot];
  }

  lemma SameEnds<T>(a: seq<T>, b: seq<T>, x: T)
    ensures a + [x] == b + [x] <==> a == b
  {
    assert (a + [x])[..|a|] == a && (b + [x])[..|b|] == b;
  }

  lemma {:induction false} KnownIsShorter(rs: seq<ToolResult>, a: set<string>, b: set<string>)
    requires a <= b
    ensures |Known(rs, a)| <= |Known(rs, b)|
    ensures Known(rs, a) == Known(rs, b) <==> forall t | t in rs :: t.id in b ==> t.id in a
  {
    if rs == [] {
    } else {
      var before, last := Init(rs), Last(rs);
      KnownIsShorter(before, a, b);
      SameEnds(Known(before, a), Known(before, b), last);
      assert before + [last] == rs;
      KnownAppend(before, last, a);
      KnownAppend(before, last, b);
      if last.id in b && last.id !in a {
        assert |Known(rs, a)| < |Known(rs, b)|;
      }
      assert (forall t | t in rs :: t.id in b ==> t.id in a) <==>
        (forall t | t in before :: t.id in b ==> t.id in a) && (last.id in b ==> last.id in a);
    }
  }

  /** What the history of a request holds, and the tool uses it declares. */
  lemma HistoryOfRequest(ms: seq<ChatMessage>, modelId: string, prompt: string, tools: seq<ToolSpec>)
    requires ms != []
    ensures var r, raw := RequestFor(ms, modelId, prompt, tools), Unfiltered(ms, modelId);
      && HistoryResults(r.history) == Known(HistoryResults(raw), UseIds(raw))
      && UseIds(r.history) == UseIds(raw) + if Last(ms).role.Assistant? then CallIds(Last(ms)) else {}
  {
    var raw := Unfiltered(ms, modelId);
    RequestHistory(ms, modelId, prompt, tools);
    OrphansAreExactlyRemoved(raw);
    UsesAreCalls(Last(ms));
    if Last(ms).role.Assistant? {
      AssistantAppended(FilterOrphans(raw), HistoryAssistant(Last(ms)));
    } else {
      AnsweredKeeps(FilterOrphans(raw));
    }
  }

  lemma RequestHistory(ms: seq<ChatMessage>, modelId: string, prompt: string, tools: seq<ToolSpec>)
    requires ms != []
    ensures var history := FilterOrphans(Unfiltered(ms, modelId));
      RequestFor(ms, modelId, prompt, tools).history ==
      if Last(ms).role.Assistant? then history + [AssistantItem(HistoryAssistant(Last(ms)))] else Answered(history)
  {
  }

  lemma AssistantAppended(history: seq<HistoryItem>, m: AssistantMessage)
    ensures HistoryResults(history + [AssistantItem(m)]) == HistoryResults(history)
    ensures UseIds(history + [AssistantItem(m)]) == UseIds(history) + ItemUses(AssistantItem(m))
  {
    AppendItem(history, AssistantItem(m));
    assert HistoryResults(history) + [] == HistoryResults(history);
  }

  lemma AnsweredKeeps(history: seq<HistoryItem>)
    ensures HistoryResults(Answered(history)) == HistoryResults(history)
    ensures UseIds(Answered(history)) == UseIds(history)
  {
    AssistantAppended(history, AssistantMessage(CONTINUE, []));
  }

  /** Of the results that truncation left, exactly those with a tool use in the request's own history
      survive, unless the conversation ends with an assistant message that declares a use named by
      some of them and by no earlier entry: its uses arrive after the filter has run. */
  lemma RetainedResultsSurviveIff(ms: seq<ChatMessage>, modelId: string, prompt: string, tools: seq<ToolSpec>)
    requires ms != []
    ensures var r, raw := RequestFor(ms, modelId, prompt, tools), Unfiltered(ms, modelId);
      HistoryResults(r.history) == Known(HistoryResults(raw), UseIds(r.history)) <==>
      !(Last(ms).role.Assistant? &&
        exists t :: t in HistoryResults(raw) && t.id in CallIds(Last(ms)) && t.id !in UseIds(raw))
  {
    var raw := Unfiltered(ms, modelId);
    var ids := UseIds(RequestFor(ms, modelId, prompt, tools).history);
    HistoryOfRequest(ms, modelId, prompt, tools);
    KnownIsShorter(HistoryResults(raw), UseIds(raw), ids);
  }

  /** The tool messages since the last user or assistant message before the final one, as far as the
      request admits results: what should not get lost. */
  function Owed(ms: seq<ChatMessage>, r: Request): seq<ToolResult>
    requires ms != []
  {
    OwedTo(TailTools(Init(ms)), r.history)
  }

  function OwedTo(pending: seq<ToolResult>, history: seq<HistoryItem>): seq<ToolResult> {
    Dedup(Admitted(pending, history))
  }

  predicate Carries(r: Request, t: ToolResult) {
    t in ContextResults(r.current.context) || t in HistoryResults(r.history)
  }

  lemma OwedAreAdmitted(pending: seq<ToolResult>, history: seq<HistoryItem>)
    ensures OwedTo(pending, history) == Admitted(Dedup(pending), history)
  {
    KnownCommutesWithDedup(pending, UseIds(history));
  }

  lemma OwedGrow(pending: seq<ToolResult>, last: ToolResult, history: seq<HistoryItem>)
    ensures forall t | t in OwedTo(pending, history) :: t in OwedTo(pending + [last], history)
  {
    KnownAppend(pending, last, UseIds(history));
    DedupAppend(pending, last);
    DedupAppend(Known(pending, UseIds(history)), last);
  }

  lemma TailToolsEndWith(ms: seq<ChatMessage>)
    requires ms != [] && Last(ms).role.Tool?
    ensures TailTools(ms) == TailTools(Init(ms)) + [ResultOf(Last(ms))]
  {
  }

  lemma OwedReachBehindTool(ms: seq<ChatMessage>, current: seq<ToolResult>, history: seq<HistoryItem>)
    requires ms != [] && Last(ms).role.Tool? && current == Admitted(Dedup(TailTools(ms)), history)
    ensures forall t | t in OwedTo(TailTools(Init(ms)), history) :: t in current
  {
    OwedAreAdmitted(TailTools(ms), history);
    TailToolsEndWith(ms);
    OwedGrow(TailTools(Init(ms)), ResultOf(Last(ms)), history);
  }

  lemma OwedReachUnlessAssistant(ms: seq<ChatMessage>, r: Request, modelId: string, prompt: string, tools: seq<ToolSpec>)
    requires ms != [] && !Last(ms).role.Assistant? && r == RequestFor(ms, modelId, prompt, tools)
    ensures forall t | t in Owed(ms, r) :: t in ContextResults(r.current.context)
  {
    if Last(ms).role.Tool? {
      TrailingToolsReachTheRequest(ms, modelId, prompt, tools);
      OwedReachBehindTool(ms, ContextResults(r.current.context), r.history);
    } else {
      PendingToolsReachTheRequest(ms, modelId, prompt, tools);
      OwedAreAdmitted(TailTools(Init(ms)), r.history);
    }
  }

  lemma NothingCurrentBehindAssistant(ms: seq<ChatMessage>, modelId: string, prompt: string, tools: seq<ToolSpec>)
    requires ms != [] && Last(ms).role.Assistant?
    ensures ContextResults(RequestFor(ms, modelId, prompt, tools).current.context) == []
  {
    var r := RequestFor(ms, modelId, prompt, tools);
    assert Known([], UseIds(r.history)) == [] && Dedup([]) == [];
  }

  /** Every owed result reaches the request if and only if the conversation does not end with the
      assistant, or each of them happens to stand in the filtered history as well. */
  lemma PendingResultsReachIff(ms: seq<ChatMessage>, modelId: string, prompt: string, tools: seq<ToolSpec>)
    requires ms != []
    ensures var r, raw := RequestFor(ms, modelId, prompt, tools), Unfiltered(ms, modelId);
      (forall t | t in Owed(ms, r) :: Carries(r, t)) <==>
      (!Last(ms).role.Assistant? || forall t | t in Owed(ms, r) :: t in Known(HistoryResults(raw), UseIds(raw)))
  {
    HistoryOfRequest(ms, modelId, prompt, tools);
    if Last(ms).role.Assistant? {
      NothingCurrentBehindAssistant(ms, modelId, prompt, tools);
    } else {
      OwedReachUnlessAssistant(ms, RequestFor(ms, modelId, prompt, tools), modelId, prompt, tools);
    }
  }

  lemma {:induction false} SuffixResults(hs: seq<HistoryItem>, n: nat)
    requires n <= |hs|
    ensures forall t | t in HistoryResults(hs[n..]) :: t in HistoryResults(hs)
  {
    HistoryResultsConcat(hs[..n], hs[n..]);
    assert hs[..n] + hs[n..] == hs;
  }

  lemma KeptResultsWereGiven(ms: seq<ChatMessage>, modelId: string)
    requires ms != []
    ensures forall t | t in HistoryResults(Unfiltered(ms, modelId)) ::
      t in HistoryResults(WithPlaceholder(DraftOf(Init(ms), modelId, |ms|).items, modelId))
  {
    var all := WithPlaceholder(DraftOf(Init(ms), modelId, |ms|).items, modelId);
    if |all| > MAX_HISTORY {
      SuffixResults(all, |all| - MAX_HISTORY);
    }
  }

  lemma DistinctHalves(a: seq<ToolResult>, b: seq<ToolResult>)
    requires DistinctIds(a + b)
    ensures forall t | t in b :: t !in a
  {
    forall t | t in b ensures t !in a {
      var j :| 0 <= j < |b| && b[j] == t;
      assert (a + b)[|a| + j] == t;
      forall i | 0 <= i < |a| ensures a[i] != t {
        assert (a + b)[i] == a[i];
      }
    }
  }

  /** When every tool message answers a call of its own, the owed results are lost behind a final
      assistant message whenever there are any. */
  lemma DistinctResultsReachIff(ms: seq<ChatMessage>, modelId: string, prompt: string, tools: seq<ToolSpec>)
    requires ms != [] && DistinctIds(ToolResultsOf(Init(ms)))
    ensures var r := RequestFor(ms, modelId, prompt, tools);
      (forall t | t in Owed(ms, r) :: Carries(r, t)) <==> (!Last(ms).role.Assistant? || Owed(ms, r) == [])
  {
    var r, raw := RequestFor(ms, modelId, prompt, tools), Unfiltered(ms, modelId);
    var pending := TailTools(Init(ms));
    PendingResultsReachIff(ms, modelId, prompt, tools);
    ToolResultsAreConserved(ms, modelId);
    KeptResultsWereGiven(ms, modelId);
    DistinctHalves(HistoryResults(WithPlaceholder(DraftOf(Init(ms), modelId, |ms|).items, modelId)), pending);
    KnownIsSelective(HistoryResults(raw), UseIds(raw));
    KnownIsSelective(pending, UseIds(r.history));
    DedupIsDistinct(Admitted(pending, r.history));
    if Owed(ms, r) != [] {
      var t := Owed(ms, r)[0];
      assert t in Owed(ms, r);
      assert t in pending;
    }
  }

  // ------------------------------------------------------------------------------------
  // Two conversations
  // ------------------------------------------------------------------------------------

  function Says(role: Role, content: string): ChatMessage {
    ChatMessage(role, content, [], "", [], "")
  }

  function Calls(id: string): ChatMessage {
    Says(Assistant, "wait").(toolCalls := [ToolCall(id, "function", "search", "{}", None)])
  }

  function Answers(id: string): ChatMessage {
    Says(Role.Tool, "found").(toolId := id)
  }

  lemma CallsOne(id: string)
    ensures CallIds(Calls(id)) == {id}
  {
    var c := ToolCall(id, "function", "search", "{}", None);
    assert Calls(id).toolCalls == [c];
    assert c in Calls(id).toolCalls;
  }

  /** A conversation that the first two stages pass on as it is. */
  lemma ConvertPlain(ms: seq<ChatMessage>, modelId: string, hints: Hints, tools: seq<RequestTool>)
    requires ms != [] && Separated(ms) && DropBrace(ms) == ms && forall m | m in ms :: !m.role.System?
    ensures Convert(ms, modelId, hints, tools) ==
      Built(RequestFor(ms, modelId, Decorated(hints, ""), KiroTools.KiroToolsOf(tools)))
  {
    SeparatedStays(ms);
    NoSystem(ms);
  }

  lemma {:induction false} NoSystem(ms: seq<ChatMessage>)
    requires forall m | m in ms :: !m.role.System?
    ensures NonSystem(ms) == ms && SystemText(ms) == ""
  {
    if ms == [] {
    } else {
      NoSystem(Init(ms));
      assert Last(ms) in ms;
      assert Init(ms) + [Last(ms)] == ms;
    }
  }

  lemma Append1<T>(x: T)
    ensures [] + [x] == [x] && Init([x]) == []
  {
  }

  lemma HistoryOfEarlyAnswer(a: ChatMessage, u: ChatMessage, last: ChatMessage, modelId: string)
    requires a.role.Tool? && u.role.User?
    ensures HistoryResults(Unfiltered([a, u, last], modelId)) == [ResultOf(a)]
    ensures UseIds(Unfiltered([a, u, last], modelId)) == {}
  {
    assert Init([a, u, last]) == [a, u] && Init([a, u]) == [a] && Init([a]) == [];
    ShortHistory([a, u, last], modelId);
    Append1(ResultOf(a));
    assert ToolResultsOf([a]) == [ResultOf(a)] && CallsIn([a]) == {};
    assert TailTools([a, u]) == [] && ToolResultsOf([a, u]) == [ResultOf(a)];
    var held := HistoryResults(Unfiltered([a, u, last], modelId));
    assert held + [] == held;
  }

  /** The tool message comes before the assistant message that calls for it: the result is filtered
      out of the history although the history of the request declares its tool use. */
  lemma RetainedResultIsLost(modelId: string, hints: Hints, tools: seq<RequestTool>)
    ensures var ms := [Answers("x"), Says(User, "hi"), Calls("x")];
      var c := Convert(ms, modelId, hints, tools);
      && c.Built?
      && HistoryResults(Unfiltered(ms, modelId)) == [ResultOf(Answers("x"))]
      && "x" in UseIds(c.request.history)
      && HistoryResults(c.request.history) == []
  {
    var ms := [Answers("x"), Says(User, "hi"), Calls("x")];
    ConvertPlain(ms, modelId, hints, tools);
    HistoryOfRequest(ms, modelId, Decorated(hints, ""), KiroTools.KiroToolsOf(tools));
    CallsOne("x");
    HistoryOfEarlyAnswer(ms[0], ms[1], ms[2], modelId);
    assert Init([ResultOf(ms[0])]) == [];
    assert Known([ResultOf(ms[0])], {}) == [];
  }

  lemma NumbersNext(ms: seq<ChatMessage>, m: ChatMessage)
    ensures ToolResultsOf(ms + [m]) == ToolResultsOf(ms) + if m.role.Tool? then [ResultOf(m)] else []
    ensures CallsIn(ms + [m]) == CallsIn(ms) + if m.role.Assistant? then CallIds(m) else {}
  {
    assert Init(ms + [m]) == ms;
  }

  lemma LateAnswerInNumbers(u: ChatMessage, c: ChatMessage, a: ChatMessage)
    requires u.role.User? && c.role.Assistant? && a.role.Tool?
    ensures ToolResultsOf([u, c, a]) == [ResultOf(a)] && CallsIn([u, c, a]) == CallIds(c)
  {
    OneByOne(u, c, a);
    NumbersNext([], u);
    NumbersNext([u], c);
    NumbersNext([u, c], a);
  }

  lemma OneByOne<T>(a: T, b: T, c: T)
    ensures [] + [a] == [a] && [a] + [b] == [a, b] && [a, b] + [c] == [a, b, c]
  {
  }

  lemma HistoryOfLateAnswer(u: ChatMessage, c: ChatMessage, a: ChatMessage, last: ChatMessage, modelId: string)
    requires u.role.User? && c.role.Assistant? && a.role.Tool?
    ensures HistoryResults(Unfiltered([u, c, a, last], modelId)) == []
    ensures UseIds(Unfiltered([u, c, a, last], modelId)) == CallIds(c)
  {
    assert Init([u, c, a, last]) == [u, c, a];
    ShortHistory([u, c, a, last], modelId);
    TailOfLateAnswer(u, c, a);
    LateAnswerInNumbers(u, c, a);
  }

  lemma OwedOfOne(t: ToolResult, history: seq<HistoryItem>)
    requires t.id in UseIds(history)
    ensures OwedTo([t], history) == [t]
  {
    Append1(t);
    KnownAppend([], t, UseIds(history));
    DedupAppend([], t);
  }

  lemma TailOfLateAnswer(u: ChatMessage, c: ChatMessage, a: ChatMessage)
    requires c.role.Assistant? && a.role.Tool?
    ensures TailTools([u, c, a]) == [ResultOf(a)]
  {
    assert Init([u, c, a]) == [u, c];
    assert TailTools([u, c]) == [];
    Append1(ResultOf(a));
  }

  lemma RequestOfLateAnswer(u: ChatMessage, c: ChatMessage, a: ChatMessage, last: ChatMessage,
                            modelId: string, prompt: string, tools: seq<ToolSpec>)
    requires u.role.User? && c.role.Assistant? && a.role.Tool? && last.role.Assistant? && a.toolId in CallIds(c)
    ensures var r := RequestFor([u, c, a, last], modelId, prompt, tools);
      && ResultOf(a) in Owed([u, c, a, last], r)
      && ContextResults(r.current.context) == [] && HistoryResults(r.history) == []
  {
    var ms := [u, c, a, last];
    assert Init(ms) == [u, c, a];
    HistoryOfRequest(ms, modelId, prompt, tools);
    NothingCurrentBehindAssistant(ms, modelId, prompt, tools);
    HistoryOfLateAnswer(u, c, a, last, modelId);
    TailOfLateAnswer(u, c, a);
    OwedOfOne(ResultOf(a), RequestFor(ms, modelId, prompt, tools).history);
  }

  /** The result of a tool message behind a call is owed, since its tool use is declared, but a final
      assistant message leaves it neither to the history nor to the current message. */
  lemma PendingResultIsLost(modelId: string, hints: Hints, tools: seq<RequestTool>)
    ensures var ms := [Says(User, "hi"), Calls("x"), Answers("x"), Says(Assistant, "done")];
      var c := Convert(ms, modelId, hints, tools);
      && c.Built?
      && ResultOf(Answers("x")) in Owed(ms, c.request)
      && ContextResults(c.request.current.context) == []
      && HistoryResults(c.request.history) == []
  {
    var u, c, a, last := Says(User, "hi"), Calls("x"), Answers("x"), Says(Assistant, "done");
    CallsOne("x");
    ConvertPlain([u, c, a, last], modelId, hints, tools);
    RequestOfLateAnswer(u, c, a, last, modelId, Decorated(hints, ""), KiroTools.KiroToolsOf(tools));
  }
}
