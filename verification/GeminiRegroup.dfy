/** Regrouping of scattered function responses behind the model messages that asked for them. */
module GeminiRegroup {
  import opened Common

  datatype FunctionCall = FunctionCall(name: string, args: string)
  datatype FunctionResponse = FunctionResponse(name: string, result: string)
  datatype Part = Part(text: string, call: Option<FunctionCall>, response: Option<FunctionResponse>)
  datatype Content = Content(role: string, parts: seq<Part>)

  /** `pending` holds how many responses each unanswered model message needs, oldest first;
      `collected` the responses not handed out yet. */
  datatype Grouping = Grouping(result: seq<Content>, pending: seq<nat>, collected: seq<Part>)

  const START := Grouping([], [], [])

  predicate IsFunction(c: Content) {
    c.role == "function"
  }

  function Responses(parts: seq<Part>): seq<Part> {
    if parts == [] then []
    else Responses(Init(parts)) + if Last(parts).response.Some? then [Last(parts)] else []
  }

  function CallCount(parts: seq<Part>): nat {
    if parts == [] then 0 else CallCount(Init(parts)) + if Last(parts).call.Some? then 1 else 0
  }

  /** The places at which there is a call. */
  function CallPlaces(parts: seq<Part>): set<nat> {
    set i | 0 <= i < |parts| && parts[i].call.Some?
  }

  lemma {:induction false} CallsAreCounted(parts: seq<Part>)
    ensures CallCount(parts) == |CallPlaces(parts)|
  {
    if parts == [] {
    } else {
      var last := |parts| - 1;
      CallsAreCounted(Init(parts));
      assert CallPlaces(parts) == CallPlaces(Init(parts)) + if parts[last].call.Some? then {last} else {};
    }
  }

  /** How many calls a content makes; only model messages do, whatever text and thought stand beside. */
  function Calls(c: Content): nat {
    if c.role == "model" then |CallPlaces(c.parts)| else 0
  }

  /** How many responses a content asks for. */
  function Asks(c: Content): (n: nat)
    ensures n == Calls(c)
  {
    CallsAreCounted(c.parts);
    if c.role == "model" then CallCount(c.parts) else 0
  }

  /** The newest pending entry that n responses can answer; -1 if there is none. */
  function Newest(pending: seq<nat>, n: nat): int {
    if pending == [] then -1
    else if Last(pending) <= n then |pending| - 1
    else Newest(Init(pending), n)
  }

  lemma {:induction false} NewestIs(pending: seq<nat>, n: nat)
    ensures var i := Newest(pending, n);
      && -1 <= i < |pending|
      && (i >= 0 ==> pending[i] <= n)
      && forall j | i < j < |pending| :: pending[j] > n
  {
    if pending == [] {
    } else {
      NewestIs(Init(pending), n);
    }
  }

  function Without<T>(s: seq<T>, i: nat): seq<T>
    requires i < |s|
  {
    s[..i] + s[i + 1..]
  }

  function Answer(s: Grouping, i: nat): Grouping
    requires i < |s.pending| && s.pending[i] <= |s.collected|
  {
    Grouping(s.result + [Content("function", s.collected[..s.pending[i]])],
             Without(s.pending, i),
             s.collected[s.pending[i]..])
  }

  function Step(s: Grouping, c: Content): Grouping {
    if IsFunction(c) then
      var s1 := s.(collected := s.collected + Responses(c.parts));
      var i := Newest(s1.pending, |s1.collected|);
      NewestIs(s1.pending, |s1.collected|);
      if i >= 0 then Answer(s1, i) else s1
    else
      s.(result := s.result + [c], pending := if Asks(c) > 0 then s.pending + [Asks(c)] else s.pending)
  }

  function Loop(s: Grouping, cs: seq<Content>): Grouping
    decreases |cs|
  {
    if cs == [] then s else Loop(Step(s, cs[0]), cs[1..])
  }

  /** After the loop, what is left is handed out oldest first; the groups that stay unanswered
      remain in `pending`. */
  function Tail(s: Grouping): Grouping
    decreases |s.pending|
  {
    if s.pending == [] then s
    else if s.pending[0] <= |s.collected| then Tail(Answer(s, 0))
    else
      var rest := Tail(s.(pending := s.pending[1..]));
      rest.(pending := [s.pending[0]] + rest.pending)
  }

  function Regroup(cs: seq<Content>): seq<Content> {
    Tail(Loop(START, cs)).result
  }

  method FixToolResponseGrouping(contents: seq<Content>) returns (result: seq<Content>)
    ensures result == Regroup(contents)
  {
    result := [];
    var pendingGroups: seq<nat> := [];
    var collectedResponses: seq<Part> := [];
    assert contents[0..] == contents;
    for n := 0 to |contents|
      invariant Loop(Grouping(result, pendingGroups, collectedResponses), contents[n..]) == Loop(START, contents)
    {
      var content := contents[n];
      assert contents[n..][0] == content && contents[n..][1..] == contents[n + 1..];
      if content.role == "function" {
        var found := CollectResponses(content.parts);
        collectedResponses := collectedResponses + found;
        var i := FindNewest(pendingGroups, |collectedResponses|);
        if i >= 0 {
          var needed := pendingGroups[i];
          result := result + [Content("function", collectedResponses[..needed])];
          collectedResponses := collectedResponses[needed..];
          pendingGroups := pendingGroups[..i] + pendingGroups[i + 1..];
        }
      } else if content.role == "model" {
        var functionCallCount := CountCalls(content.parts);
        result := result + [content];
        if functionCallCount > 0 {
          pendingGroups := pendingGroups + [functionCallCount];
        }
      } else {
        result := result + [content];
      }
    }
    result := HandOutRest(result, pendingGroups, collectedResponses);
  }

  /** The second loop: what is left goes to the open messages, oldest first. */
  method HandOutRest(before: seq<Content>, pendingGroups: seq<nat>, left: seq<Part>) returns (result: seq<Content>)
    ensures result == Tail(Grouping(before, pendingGroups, left)).result
  {
    result := before;
    var collectedResponses := left;
    assert pendingGroups[0..] == pendingGroups;
    for i := 0 to |pendingGroups|
      invariant Tail(Grouping(result, pendingGroups[i..], collectedResponses)).result
        == Tail(Grouping(before, pendingGroups, left)).result
    {
      var needed := pendingGroups[i];
      ghost var open := pendingGroups[i..];
      assert open[0] == needed && open[1..] == pendingGroups[i + 1..] && Without(open, 0) == open[1..];
      if |collectedResponses| >= needed {
        result := result + [Content("function", collectedResponses[..needed])];
        collectedResponses := collectedResponses[needed..];
      }
    }
  }

  method FindNewest(pendingGroups: seq<nat>, n: nat) returns (i: int)
    ensures i == Newest(pendingGroups, n) && -1 <= i < |pendingGroups|
    ensures i >= 0 ==> pendingGroups[i] <= n
  {
    i := |pendingGroups| - 1;
    assert pendingGroups[..|pendingGroups|] == pendingGroups;
    while i >= 0 && pendingGroups[i] > n
      invariant -1 <= i < |pendingGroups|
      invariant Newest(pendingGroups, n) == Newest(pendingGroups[..i + 1], n)
    {
      assert Init(pendingGroups[..i + 1]) == pendingGroups[..i];
      i := i - 1;
    }
  }

  method CollectResponses(parts: seq<Part>) returns (found: seq<Part>)
    ensures found == Responses(parts)
  {
    found := [];
    assert parts[..|parts|] == parts;
    for k := 0 to |parts|
      invariant found == Responses(parts[..k])
    {
      assert Init(parts[..k + 1]) == parts[..k];
      if parts[k].response.Some? {
        found := found + [parts[k]];
      }
    }
  }

  method CountCalls(parts: seq<Part>) returns (count: nat)
    ensures count == CallCount(parts)
  {
    count := 0;
    assert parts[..|parts|] == parts;
    for k := 0 to |parts|
      invariant count == CallCount(parts[..k])
    {
      assert Init(parts[..k + 1]) == parts[..k];
      if parts[k].call.Some? {
        count := count + 1;
      }
    }
  }

  // ------------------------------------------------------------------------------------
  // Conservation
  // ------------------------------------------------------------------------------------

  function Others(cs: seq<Content>): seq<Content> {
    if cs == [] then [] else Others(Init(cs)) + if IsFunction(Last(cs)) then [] else [Last(cs)]
  }

  /** The response parts of all function contents, in order. */
  function AllResponses(cs: seq<Content>): seq<Part> {
    if cs == [] then [] else AllResponses(Init(cs)) + if IsFunction(Last(cs)) then Responses(Last(cs).parts) else []
  }

  predicate OnlyResponses(parts: seq<Part>) {
    forall i | 0 <= i < |parts| :: parts[i].response.Some?
  }

  lemma {:induction false} OnlyResponsesKept(parts: seq<Part>)
    ensures OnlyResponses(Responses(parts))
    ensures OnlyResponses(parts) ==> Responses(parts) == parts
  {
    if parts == [] {
    } else {
      var before, last := Init(parts), Last(parts);
      OnlyResponsesKept(before);
      assert before + [last] == parts;
      assert OnlyResponses(parts) ==> OnlyResponses(before) && last.response.Some?;
    }
  }

  function ResponsePlaces(parts: seq<Part>): set<nat> {
    set i | 0 <= i < |parts| && parts[i].response.Some?
  }

  /** There is one response for each place that has one. */
  lemma {:induction false} ResponsesAreCounted(parts: seq<Part>)
    ensures |Responses(parts)| == |ResponsePlaces(parts)|
  {
    if parts == [] {
    } else {
      var last := |parts| - 1;
      ResponsesAreCounted(Init(parts));
      assert ResponsePlaces(parts) == ResponsePlaces(Init(parts)) + if parts[last].response.Some? then {last} else {};
    }
  }

  /** Each stands behind those of earlier places. */
  lemma {:induction false} ResponseAt(parts: seq<Part>, i: nat)
    requires i < |parts| && parts[i].response.Some?
    ensures |Responses(parts[..i])| < |Responses(parts)| && Responses(parts)[|Responses(parts[..i])|] == parts[i]
  {
    if i == |parts| - 1 {
    } else {
      ResponseAt(Init(parts), i);
      assert Init(parts)[..i] == parts[..i];
    }
  }

  lemma {:induction false} OthersConcat(a: seq<Content>, b: seq<Content>)
    ensures Others(a + b) == Others(a) + Others(b)
  {
    if b == [] {
      assert a + b == a;
    } else {
      OthersConcat(a, Init(b));
      InitOfConcat(a, b);
      Reassociate(Others(a), Others(Init(b)), if IsFunction(Last(b)) then [] else [Last(b)]);
    }
  }

  lemma {:induction false} ResponsesConcat(a: seq<Content>, b: seq<Content>)
    ensures AllResponses(a + b) == AllResponses(a) + AllResponses(b)
  {
    if b == [] {
      assert a + b == a;
    } else {
      ResponsesConcat(a, Init(b));
      InitOfConcat(a, b);
      Reassociate(AllResponses(a), AllResponses(Init(b)), if IsFunction(Last(b)) then Responses(Last(b).parts) else []);
    }
  }

  lemma OneContent(c: Content)
    ensures Others([c]) == if IsFunction(c) then [] else [c]
    ensures AllResponses([c]) == if IsFunction(c) then Responses(c.parts) else []
  {
    assert Init([c]) == [];
  }

  lemma FirstAndRest<T>(s: seq<T>)
    requires s != []
    ensures s == [s[0]] + s[1..]
  {
  }

  lemma CutFront(cs: seq<Content>)
    requires cs != []
    ensures Others(cs) == (if IsFunction(cs[0]) then [] else [cs[0]]) + Others(cs[1..])
    ensures AllResponses(cs) == (if IsFunction(cs[0]) then Responses(cs[0].parts) else []) + AllResponses(cs[1..])
  {
    var first, rest := [cs[0]], cs[1..];
    FirstAndRest(cs);
    OthersConcat(first, rest);
    ResponsesConcat(first, rest);
    OneContent(cs[0]);
  }

  /** What has been emitted and what is still collected. */
  function Held(s: Grouping): seq<Part> {
    AllResponses(s.result) + s.collected
  }

  lemma Append(cs: seq<Content>, c: Content)
    ensures Others(cs + [c]) == Others(cs) + if IsFunction(c) then [] else [c]
    ensures AllResponses(cs + [c]) == AllResponses(cs) + if IsFunction(c) then Responses(c.parts) else []
  {
    assert Init(cs + [c]) == cs;
  }

  lemma AnswerConserves(s: Grouping, i: nat)
    requires i < |s.pending| && s.pending[i] <= |s.collected| && OnlyResponses(s.collected)
    ensures Held(Answer(s, i)) == Held(s) && Others(Answer(s, i).result) == Others(s.result)
    ensures OnlyResponses(Answer(s, i).collected)
  {
    var n := s.pending[i];
    Handed(AllResponses(s.result), s.collected, n);
    OnlyResponsesKept(s.collected[..n]);
    Append(s.result, Content("function", s.collected[..n]));
    assert Held(Answer(s, i)) == AllResponses(s.result) + s.collected[..n] + s.collected[n..];
  }

  lemma Handed(given: seq<Part>, collected: seq<Part>, n: nat)
    requires n <= |collected|
    ensures given + collected[..n] + collected[n..] == given + collected
    ensures OnlyResponses(collected) ==> OnlyResponses(collected[..n]) && OnlyResponses(collected[n..])
  {
  }

  lemma FunctionConserves(s: Grouping, c: Content)
    requires OnlyResponses(s.collected) && IsFunction(c)
    ensures Held(Step(s, c)) == Held(s) + Responses(c.parts)
    ensures Others(Step(s, c).result) == Others(s.result) && OnlyResponses(Step(s, c).collected)
  {
    OnlyResponsesKept(c.parts);
    var s1 := s.(collected := s.collected + Responses(c.parts));
    Reassociate(AllResponses(s.result), s.collected, Responses(c.parts));
    NewestIs(s1.pending, |s1.collected|);
    if Newest(s1.pending, |s1.collected|) >= 0 {
      AnswerConserves(s1, Newest(s1.pending, |s1.collected|));
    }
  }

  lemma PlainConserves(s: Grouping, c: Content)
    requires !IsFunction(c)
    ensures Held(Step(s, c)) == Held(s) && Others(Step(s, c).result) == Others(s.result) + [c]
  {
    Append(s.result, c);
    assert AllResponses(s.result) + [] == AllResponses(s.result);
  }

  lemma StepConserves(s: Grouping, c: Content)
    requires OnlyResponses(s.collected)
    ensures Held(Step(s, c)) == Held(s) + if IsFunction(c) then Responses(c.parts) else []
    ensures Others(Step(s, c).result) == Others(s.result) + if IsFunction(c) then [] else [c]
    ensures OnlyResponses(Step(s, c).collected)
  {
    if IsFunction(c) {
      FunctionConserves(s, c);
      assert Others(s.result) + [] == Others(s.result);
    } else {
      PlainConserves(s, c);
      assert Held(s) + [] == Held(s);
    }
  }

  lemma {:induction false} LoopConserves(s: Grouping, cs: seq<Content>)
    requires OnlyResponses(s.collected)
    ensures Held(Loop(s, cs)) == Held(s) + AllResponses(cs)
    ensures Others(Loop(s, cs).result) == Others(s.result) + Others(cs)
    ensures OnlyResponses(Loop(s, cs).collected)
    decreases |cs|
  {
    if cs == [] {
      assert Held(s) + AllResponses(cs) == Held(s);
    } else {
      StepConserves(s, cs[0]);
      LoopConserves(Step(s, cs[0]), cs[1..]);
      CutFront(cs);
      Reassociate(Held(s), if IsFunction(cs[0]) then Responses(cs[0].parts) else [], AllResponses(cs[1..]));
      Reassociate(Others(s.result), if IsFunction(cs[0]) then [] else [cs[0]], Others(cs[1..]));
    }
  }

  lemma {:induction false} TailConserves(s: Grouping)
    requires OnlyResponses(s.collected)
    ensures Held(Tail(s)) == Held(s) && Others(Tail(s).result) == Others(s.result)
    ensures forall i | 0 <= i < |Tail(s).pending| :: |Tail(s).collected| < Tail(s).pending[i]
    ensures |Tail(s).collected| <= |s.collected|
    decreases |s.pending|
  {
    if s.pending == [] {
    } else {
      if s.pending[0] <= |s.collected| {
        AnswerConserves(s, 0);
        TailConserves(Answer(s, 0));
      } else {
        TailConserves(s.(pending := s.pending[1..]));
      }
    }
  }

  // ------------------------------------------------------------------------------------
  // Every group answers a model message of its own
  // ------------------------------------------------------------------------------------

  /** `owner` has an entry for each function content of r and for nothing else. */
  ghost predicate OwnsGroups(r: seq<Content>, owner: map<nat, nat>) {
    forall p: nat :: p in owner <==> p < |r| && IsFunction(r[p])
  }

  /** The owner of a group stands before it and asks for exactly its responses. */
  ghost predicate OwnersAsk(r: seq<Content>, owner: map<nat, nat>)
    requires OwnsGroups(r, owner)
  {
    forall p | p in owner :: owner[p] < p && 0 < |r[p].parts| == Calls(r[owner[p]])
  }

  ghost predicate OwnersDiffer(owner: map<nat, nat>) {
    forall p, q | p in owner && q in owner && p != q :: owner[p] != owner[q]
  }

  /** `owner` gives, for each emitted group, the position of the message it answers. */
  ghost predicate Owned(r: seq<Content>, owner: map<nat, nat>) {
    OwnsGroups(r, owner) && OwnersAsk(r, owner) && OwnersDiffer(owner)
  }

  /** `at` gives the position in the result of the message behind each pending entry. */
  ghost predicate PendingAt(s: Grouping, at: seq<nat>) {
    && |at| == |s.pending|
    && forall i | 0 <= i < |at| :: at[i] < |s.result| && 0 < s.pending[i] == Calls(s.result[at[i]])
  }

  predicate AllDiffer(at: seq<nat>) {
    forall i, j | 0 <= i < j < |at| :: at[i] != at[j]
  }

  ghost predicate Apart(at: seq<nat>, owner: map<nat, nat>) {
    forall p, i | p in owner && 0 <= i < |at| :: owner[p] != at[i]
  }

  ghost predicate Answers(owner: map<nat, nat>, k: nat) {
    exists p :: p in owner && owner[p] == k
  }

  /** Every calling message of r is answered or still pending. */
  ghost predicate NoneForgotten(r: seq<Content>, at: seq<nat>, owner: map<nat, nat>) {
    forall k | 0 <= k < |r| && !IsFunction(r[k]) && Calls(r[k]) > 0 :: k in at || Answers(owner, k)
  }

  ghost predicate Matched(s: Grouping, at: seq<nat>, owner: map<nat, nat>) {
    && Owned(s.result, owner)
    && PendingAt(s, at)
    && AllDiffer(at)
    && Apart(at, owner)
    && NoneForgotten(s.result, at, owner)
  }

  lemma WithoutIs<T>(s: seq<T>, i: nat)
    requires i < |s|
    ensures |Without(s, i)| == |s| - 1
    ensures forall j | 0 <= j < |s| - 1 :: Without(s, i)[j] == s[if j < i then j else j + 1]
    ensures forall x | x in s :: x in Without(s, i) || x == s[i]
  {
    forall x | x in s ensures x in Without(s, i) || x == s[i] {
      var j :| 0 <= j < |s| && s[j] == x;
      assert j < i ==> Without(s, i)[j] == x;
      assert j > i ==> Without(s, i)[j - 1] == x;
    }
  }

  lemma GroupIsOwned(r: seq<Content>, owner: map<nat, nat>, group: Content, k: nat)
    requires Owned(r, owner) && IsFunction(group) && k < |r| && 0 < |group.parts| == Calls(r[k])
    requires forall p | p in owner :: owner[p] != k
    ensures Owned(r + [group], owner[|r| := k])
  {
    var r', owner' := r + [group], owner[|r| := k];
    assert forall p | 0 <= p < |r| :: r'[p] == r[p];
    assert OwnsGroups(r', owner');
    assert OwnersAsk(r', owner');
  }

  lemma PendingStaysAt(s: Grouping, at: seq<nat>, c: Content)
    requires PendingAt(s, at)
    ensures PendingAt(s.(result := s.result + [c]), at)
  {
    assert forall p | 0 <= p < |s.result| :: (s.result + [c])[p] == s.result[p];
  }

  lemma PendingWithout(s: Grouping, at: seq<nat>, i: nat)
    requires PendingAt(s, at) && i < |at|
    ensures PendingAt(s.(pending := Without(s.pending, i)), Without(at, i))
  {
    WithoutIs(at, i);
    WithoutIs(s.pending, i);
  }

  lemma ApartWithout(at: seq<nat>, owner: map<nat, nat>, i: nat, p: nat)
    requires AllDiffer(at) && Apart(at, owner) && i < |at|
    ensures AllDiffer(Without(at, i)) && Apart(Without(at, i), owner[p := at[i]])
  {
    WithoutIs(at, i);
  }

  lemma NoneForgottenWithout(r: seq<Content>, at: seq<nat>, owner: map<nat, nat>, i: nat, group: Content)
    requires NoneForgotten(r, at, owner) && i < |at| && IsFunction(group) && |r| !in owner
    ensures NoneForgotten(r + [group], Without(at, i), owner[|r| := at[i]])
  {
    var r', owner' := r + [group], owner[|r| := at[i]];
    WithoutIs(at, i);
    assert Answers(owner', at[i]) by {
      assert |r| in owner' && owner'[|r|] == at[i];
    }
    forall k | 0 <= k < |r'| && !IsFunction(r'[k]) && Calls(r'[k]) > 0 ensures k in Without(at, i) || Answers(owner', k) {
      assert r'[k] == r[k];
      if Answers(owner, k) {
        var p :| p in owner && owner[p] == k;
        assert p in owner' && owner'[p] == k;
      }
    }
  }

  lemma AnswerMatches(s: Grouping, i: nat, at: seq<nat>, owner: map<nat, nat>)
    requires i < |s.pending| && s.pending[i] <= |s.collected| && Matched(s, at, owner)
    ensures Matched(Answer(s, i), Without(at, i), owner[|s.result| := at[i]])
  {
    var group := Content("function", s.collected[..s.pending[i]]);
    GroupIsOwned(s.result, owner, group, at[i]);
    PendingWithout(s, at, i);
    PendingStaysAt(s.(pending := Without(s.pending, i)), Without(at, i), group);
    ApartWithout(at, owner, i, |s.result|);
    NoneForgottenWithout(s.result, at, owner, i, group);
  }

  lemma PlainIsOwned(r: seq<Content>, owner: map<nat, nat>, c: Content)
    requires Owned(r, owner) && !IsFunction(c)
    ensures Owned(r + [c], owner)
  {
    assert forall p | 0 <= p < |r| :: (r + [c])[p] == r[p];
    assert OwnsGroups(r + [c], owner);
  }

  lemma PlainIsPending(s: Grouping, at: seq<nat>, owner: map<nat, nat>, c: Content)
    requires Matched(s, at, owner) && Calls(c) > 0
    ensures PendingAt(s.(result := s.result + [c], pending := s.pending + [Calls(c)]), at + [|s.result|])
    ensures AllDiffer(at + [|s.result|]) && Apart(at + [|s.result|], owner)
  {
    PendingStaysAt(s, at, c);
  }

  lemma PlainIsNotForgotten(r: seq<Content>, at: seq<nat>, at': seq<nat>, owner: map<nat, nat>, c: Content)
    requires NoneForgotten(r, at, owner) && at' == if Calls(c) > 0 then at + [|r|] else at
    ensures NoneForgotten(r + [c], at', owner)
  {
    forall k | 0 <= k < |r + [c]| && !IsFunction((r + [c])[k]) && Calls((r + [c])[k]) > 0
      ensures k in at' || Answers(owner, k)
    {
      if k == |r| {
        assert at'[|at|] == k;
      } else {
        assert (r + [c])[k] == r[k];
      }
    }
  }

  lemma PlainMatches(s: Grouping, c: Content, at: seq<nat>, owner: map<nat, nat>)
    requires Matched(s, at, owner) && !IsFunction(c)
    ensures Matched(Step(s, c), if Calls(c) > 0 then at + [|s.result|] else at, owner)
  {
    PlainIsOwned(s.result, owner, c);
    PlainIsNotForgotten(s.result, at, if Calls(c) > 0 then at + [|s.result|] else at, owner, c);
    if Calls(c) > 0 {
      PlainIsPending(s, at, owner, c);
    } else {
      PendingStaysAt(s, at, c);
    }
  }

  lemma StepMatches(s: Grouping, c: Content, at: seq<nat>, owner: map<nat, nat>)
    returns (at': seq<nat>, owner': map<nat, nat>)
    requires Matched(s, at, owner)
    ensures Matched(Step(s, c), at', owner')
  {
    at', owner' := at, owner;
    if IsFunction(c) {
      var s1 := s.(collected := s.collected + Responses(c.parts));
      var i := Newest(s1.pending, |s1.collected|);
      NewestIs(s1.pending, |s1.collected|);
      if i >= 0 {
        AnswerMatches(s1, i, at, owner);
        at', owner' := Without(at, i), owner[|s.result| := at[i]];
      }
    } else {
      PlainMatches(s, c, at, owner);
      at' := if Calls(c) > 0 then at + [|s.result|] else at;
    }
  }

  lemma {:induction false} LoopMatches(s: Grouping, cs: seq<Content>, at: seq<nat>, owner: map<nat, nat>)
    returns (at': seq<nat>, owner': map<nat, nat>)
    requires Matched(s, at, owner)
    ensures Matched(Loop(s, cs), at', owner')
    decreases |cs|
  {
    at', owner' := at, owner;
    if cs == [] {
    } else {
      at', owner' := StepMatches(s, cs[0], at, owner);
      at', owner' := LoopMatches(Step(s, cs[0]), cs[1..], at', owner');
    }
  }

  /** `over` stands for the messages the tail has passed by, which stay pending. */
  ghost predicate MatchedOver(s: Grouping, over: seq<nat>, at: seq<nat>, owner: map<nat, nat>) {
    && Owned(s.result, owner)
    && PendingAt(s, at)
    && AllDiffer(at)
    && Apart(at, owner)
    && NoneForgotten(s.result, over + at, owner)
  }

  /** Of the messages passed by, none can be answered by what is left. */
  ghost predicate TooMany(s: Grouping, over: seq<nat>) {
    forall k | k in over :: k < |s.result| && |s.collected| < Calls(s.result[k])
  }

  lemma AnswerFirst(s: Grouping, over: seq<nat>, at: seq<nat>, owner: map<nat, nat>)
    requires s.pending != [] && s.pending[0] <= |s.collected| && MatchedOver(s, over, at, owner) && TooMany(s, over)
    ensures MatchedOver(Answer(s, 0), over, at[1..], owner[|s.result| := at[0]]) && TooMany(Answer(s, 0), over)
  {
    var group := Content("function", s.collected[..s.pending[0]]);
    assert Without(at, 0) == at[1..] && Without(s.pending, 0) == s.pending[1..];
    GroupIsOwned(s.result, owner, group, at[0]);
    PendingWithout(s, at, 0);
    PendingStaysAt(s.(pending := Without(s.pending, 0)), Without(at, 0), group);
    ApartWithout(at, owner, 0, |s.result|);
    assert Without(over + at, |over|) == over + at[1..] && (over + at)[|over|] == at[0];
    NoneForgottenWithout(s.result, over + at, owner, |over|, group);
    assert forall k | 0 <= k < |s.result| :: (s.result + [group])[k] == s.result[k];
  }

  lemma PassFirst(s: Grouping, over: seq<nat>, at: seq<nat>, owner: map<nat, nat>)
    requires s.pending != [] && s.pending[0] > |s.collected| && MatchedOver(s, over, at, owner) && TooMany(s, over)
    ensures MatchedOver(s.(pending := s.pending[1..]), over + [at[0]], at[1..], owner)
    ensures TooMany(s.(pending := s.pending[1..]), over + [at[0]])
  {
    FirstAndRest(at);
    Reassociate(over, [at[0]], at[1..]);
    assert Without(at, 0) == at[1..] && Without(s.pending, 0) == s.pending[1..];
    PendingWithout(s, at, 0);
    TooManyWith(s, over, at[0]);
  }

  lemma TooManyWith(s: Grouping, over: seq<nat>, k: nat)
    requires s.pending != [] && TooMany(s, over) && k < |s.result| && |s.collected| < Calls(s.result[k])
    ensures TooMany(s.(pending := s.pending[1..]), over + [k])
  {
  }

  lemma {:induction false} TailMatches(s: Grouping, over: seq<nat>, at: seq<nat>, owner: map<nat, nat>)
    returns (over': seq<nat>, owner': map<nat, nat>)
    requires MatchedOver(s, over, at, owner) && TooMany(s, over)
    ensures Owned(Tail(s).result, owner') && NoneForgotten(Tail(s).result, over', owner') && TooMany(Tail(s), over')
    decreases |s.pending|
  {
    over', owner' := over, owner;
    if s.pending == [] {
      assert over + at == over;
    } else if s.pending[0] <= |s.collected| {
      AnswerFirst(s, over, at, owner);
      over', owner' := TailMatches(Answer(s, 0), over, at[1..], owner[|s.result| := at[0]]);
    } else {
      PassFirst(s, over, at, owner);
      over', owner' := TailMatches(s.(pending := s.pending[1..]), over + [at[0]], at[1..], owner);
    }
  }

  /** Each emitted group has exactly as many responses as one earlier model message has calls, and
      no two groups share that message. What is kept back would not suffice for any message that has
      calls and no group. */
  lemma GroupsAnswerDistinctMessages(cs: seq<Content>) returns (owner: map<nat, nat>)
    ensures Owned(Regroup(cs), owner)
    ensures forall k | 0 <= k < |Regroup(cs)| && !IsFunction(Regroup(cs)[k]) && Calls(Regroup(cs)[k]) > 0 ::
      Answers(owner, k) || |AllResponses(cs)| - |AllResponses(Regroup(cs))| < Calls(Regroup(cs)[k])
  {
    var at: seq<nat>, over: seq<nat>;
    at, owner := LoopMatches(START, cs, [], map[]);
    assert [] + at == at;
    over, owner := TailMatches(Loop(START, cs), [], at, owner);
    RegroupConserves(cs);
  }

  /** Regrouping keeps every other content in order and emits a prefix of the responses in order. */
  lemma RegroupConserves(cs: seq<Content>)
    ensures Others(Regroup(cs)) == Others(cs)
    ensures AllResponses(Regroup(cs)) + Tail(Loop(START, cs)).collected == AllResponses(cs)
  {
    LoopConserves(START, cs);
    TailConserves(Loop(START, cs));
  }

  // ------------------------------------------------------------------------------------
  // Conversations in turn
  // ------------------------------------------------------------------------------------

  predicate IsSingleResponse(c: Content) {
    |c.parts| == 1 && c.parts[0].response.Some?
  }

  /** Each message with n calls is followed, before the next such message, by exactly n function
      contents with one response each; `missing` of them are still to come. */
  predicate InTurn(cs: seq<Content>, missing: nat) {
    if cs == [] then missing == 0
    else if IsFunction(cs[0]) then missing > 0 && IsSingleResponse(cs[0]) && InTurn(cs[1..], missing - 1)
    else if Calls(cs[0]) > 0 then missing == 0 && InTurn(cs[1..], Calls(cs[0]))
    else InTurn(cs[1..], missing)
  }

  /** The grouping such a conversation calls for: the n responses of a turn become one content, at
      the place of the n-th; everything else stays where it is. */
  function OneGroupPerTurn(cs: seq<Content>, missing: nat, got: seq<Part>): seq<Content> {
    if cs == [] then []
    else if IsFunction(cs[0]) then
      if missing <= 1 then [Content("function", got + cs[0].parts)] + OneGroupPerTurn(cs[1..], 0, [])
      else OneGroupPerTurn(cs[1..], missing - 1, got + cs[0].parts)
    else [cs[0]] + OneGroupPerTurn(cs[1..], if Calls(cs[0]) > 0 then Calls(cs[0]) else missing, got)
  }

  lemma SingleResponseStep(r: seq<Content>, c: Content, missing: nat, got: seq<Part>)
    requires IsFunction(c) && IsSingleResponse(c) && missing > 0
    ensures Step(Grouping(r, [missing + |got|], got), c) ==
      if missing == 1 then Grouping(r + [Content("function", got + c.parts)], [], [])
      else Grouping(r, [missing + |got|], got + c.parts)
  {
    assert Init(c.parts) == [] && Responses(c.parts) == c.parts;
    var all, p := got + c.parts, [missing + |got|];
    assert Init(p) == [] && p[..0] + p[1..] == [];
    assert Newest(p, |all|) == if missing == 1 then 0 else -1;
    assert all[..|all|] == all && all[|all|..] == [];
  }

  lemma {:induction false} LoopInTurn(r: seq<Content>, cs: seq<Content>, missing: nat, got: seq<Part>)
    requires InTurn(cs, missing) && (missing == 0 ==> got == [])
    ensures Loop(Grouping(r, if missing == 0 then [] else [missing + |got|], got), cs)
      == Grouping(r + OneGroupPerTurn(cs, missing, got), [], [])
    decreases |cs|
  {
    if cs == [] {
    } else {
      var c := cs[0];
      if IsFunction(c) {
        SingleResponseStep(r, c, missing, got);
        if missing == 1 {
          var group := Content("function", got + c.parts);
          LoopInTurn(r + [group], cs[1..], 0, []);
          Reassociate(r, [group], OneGroupPerTurn(cs[1..], 0, []));
        } else {
          LoopInTurn(r, cs[1..], missing - 1, got + c.parts);
        }
      } else {
        var missing' := if Calls(c) > 0 then Calls(c) else missing;
        assert Calls(c) > 0 ==> [] + [Calls(c)] == [missing' + |got|];
        LoopInTurn(r + [c], cs[1..], missing', got);
        Reassociate(r, [c], OneGroupPerTurn(cs[1..], missing', got));
      }
    }
  }

  /** A conversation in turn is grouped turn by turn. */
  lemma TurnsAreGrouped(cs: seq<Content>)
    requires InTurn(cs, 0)
    ensures Regroup(cs) == OneGroupPerTurn(cs, 0, [])
    ensures Tail(Loop(START, cs)) == Loop(START, cs)
  {
    LoopInTurn([], cs, 0, []);
    assert [] + OneGroupPerTurn(cs, 0, []) == OneGroupPerTurn(cs, 0, []);
  }

  /** In particular, text and a thought beside a call ask for nothing: an assistant message with both and
      one call gets its one response. */
  lemma TextBesideCallIsGrouped(thought: string, text: string, call: FunctionCall, reply: FunctionResponse)
    ensures var asking := Content("model", [Part(thought, None, None), Part(text, None, None), Part("", Some(call), None)]);
      var answer := Content("function", [Part("", None, Some(reply))]);
      Calls(asking) == 1 && Regroup([asking, answer]) == [asking, answer]
  {
    var asking := Content("model", [Part(thought, None, None), Part(text, None, None), Part("", Some(call), None)]);
    var answer := Content("function", [Part("", None, Some(reply))]);
    var cs := [asking, answer];
    assert CallPlaces(asking.parts) == {2};
    assert cs[1..] == [answer] && cs[1..][1..] == [];
    assert InTurn([answer], 1) && InTurn(cs, 0);
    TurnsAreGrouped(cs);
    assert [] + answer.parts == answer.parts;
    assert OneGroupPerTurn([answer], 1, []) == [answer];
  }

  // ------------------------------------------------------------------------------------
  // A second pass
  // ------------------------------------------------------------------------------------

  lemma {:induction false} LoopSnoc(s: Grouping, cs: seq<Content>, c: Content)
    ensures Loop(s, cs + [c]) == Step(Loop(s, cs), c)
    decreases |cs|
  {
    if cs == [] {
    } else {
      assert (cs + [c])[1..] == cs[1..] + [c];
      LoopSnoc(Step(s, cs[0]), cs[1..], c);
    }
  }

  /** Running over its own output so far, the loop stands where it stood, with nothing collected. */
  ghost predicate Settled(s: Grouping) {
    && Loop(START, s.result) == s.(collected := [])
    && OnlyResponses(s.collected)
    && forall i | 0 <= i < |s.pending| :: s.pending[i] > 0
  }

  lemma FunctionSettles(s: Grouping, c: Content)
    requires Settled(s) && IsFunction(c)
    ensures Settled(Step(s, c))
  {
    FunctionConserves(s, c);
    OnlyResponsesKept(c.parts);
    var s1 := s.(collected := s.collected + Responses(c.parts));
    var i := Newest(s1.pending, |s1.collected|);
    NewestIs(s1.pending, |s1.collected|);
    if i >= 0 {
      AnswerSettles(s1, i);
      WithoutIs(s1.pending, i);
    }
  }

  lemma StepSettles(s: Grouping, c: Content)
    requires Settled(s)
    ensures Settled(Step(s, c))
  {
    if IsFunction(c) {
      FunctionSettles(s, c);
    } else {
      LoopSnoc(START, s.result, c);
    }
  }

  lemma GroupCollected(group: seq<Part>)
    requires OnlyResponses(group)
    ensures [] + Responses(group) == group && group[..|group|] == group && group[|group|..] == []
  {
    OnlyResponsesKept(group);
  }

  lemma AnswerWithAll(r: seq<Content>, open: seq<nat>, group: seq<Part>, i: nat)
    requires i < |open| && open[i] == |group| && group[..|group|] == group && group[|group|..] == []
    ensures Answer(Grouping(r, open, group), i) == Grouping(r + [Content("function", group)], Without(open, i), [])
  {
  }

  lemma GroupAlone(open: seq<nat>, group: seq<Part>, i: nat, r: seq<Content>)
    requires OnlyResponses(group) && i < |open| && open[i] == |group|
    requires forall j | i < j < |open| :: open[j] > |group|
    ensures Step(Grouping(r, open, []), Content("function", group))
      == Grouping(r + [Content("function", group)], Without(open, i), [])
  {
    GroupCollected(group);
    NewestIs(open, |group|);
    assert Newest(open, |group|) == i;
    AnswerWithAll(r, open, group, i);
  }

  lemma AnswerSettles(s: Grouping, i: nat)
    requires Loop(START, s.result) == s.(collected := []) && i < |s.pending| && s.pending[i] <= |s.collected|
    requires forall j | i < j < |s.pending| :: s.pending[j] > |s.collected|
    requires OnlyResponses(s.collected)
    ensures Loop(START, Answer(s, i).result) == Answer(s, i).(collected := [])
  {
    var group := s.collected[..s.pending[i]];
    LoopSnoc(START, s.result, Content("function", group));
    GroupAlone(s.pending, group, i, s.result);
  }

  lemma {:induction false} LoopSettles(s: Grouping, cs: seq<Content>)
    requires Settled(s)
    ensures Settled(Loop(s, cs))
    decreases |cs|
  {
    if cs == [] {
    } else {
      StepSettles(s, cs[0]);
      LoopSettles(Step(s, cs[0]), cs[1..]);
    }
  }

  lemma {:induction false} NothingToHandOut(s: Grouping)
    requires s.collected == [] && forall i | 0 <= i < |s.pending| :: s.pending[i] > 0
    ensures Tail(s) == s
    decreases |s.pending|
  {
    if s.pending == [] {
    } else {
      NothingToHandOut(s.(pending := s.pending[1..]));
    }
  }

  /** A second pass changes nothing of what the loop put out. */
  lemma LoopOutputIsStable(cs: seq<Content>)
    ensures Regroup(Loop(START, cs).result) == Loop(START, cs).result
  {
    LoopSettles(START, cs);
    NothingToHandOut(Loop(START, cs).(collected := []));
  }

  /** How many responses each open message still needs, and how many are held, without the contents. */
  datatype Counts = Counts(open: seq<nat>, held: nat)

  function CountStep(k: Counts, c: Content): Counts {
    if IsFunction(c) then
      var n := k.held + |Responses(c.parts)|;
      var i := Newest(k.open, n);
      NewestIs(k.open, n);
      if i >= 0 then Counts(Without(k.open, i), n - k.open[i]) else k.(held := n)
    else
      k.(open := if Calls(c) > 0 then k.open + [Calls(c)] else k.open)
  }

  function CountLoop(k: Counts, cs: seq<Content>): Counts
    decreases |cs|
  {
    if cs == [] then k else CountLoop(CountStep(k, cs[0]), cs[1..])
  }

  lemma CountsFollowStep(s: Grouping, c: Content)
    ensures CountStep(Counts(s.pending, |s.collected|), c) == Counts(Step(s, c).pending, |Step(s, c).collected|)
  {
    if IsFunction(c) {
      var all := s.collected + Responses(c.parts);
      var i := Newest(s.pending, |all|);
      NewestIs(s.pending, |all|);
      assert i >= 0 ==> |all[s.pending[i]..]| == |all| - s.pending[i];
    }
  }

  lemma {:induction false} CountsFollowLoop(s: Grouping, cs: seq<Content>)
    ensures CountLoop(Counts(s.pending, |s.collected|), cs) == Counts(Loop(s, cs).pending, |Loop(s, cs).collected|)
    decreases |cs|
  {
    if cs == [] {
    } else {
      CountsFollowStep(s, cs[0]);
      CountsFollowLoop(Step(s, cs[0]), cs[1..]);
    }
  }

  /** Each group that the tail hands out, oldest message first, goes to a message with as many calls
      when it is handed to the newest one that it can answer. */
  predicate Replays(todo: seq<nat>, open: seq<nat>, n: nat)
    decreases |todo|
  {
    if todo == [] then true
    else if todo[0] > n then Replays(todo[1..], open, n)
    else
      var i := Newest(open, todo[0]);
      NewestIs(open, todo[0]);
      i >= 0 && open[i] == todo[0] && Replays(todo[1..], Without(open, i), n - todo[0])
  }

  /** The condition under which a second pass repeats the first, from the numbers alone. */
  predicate Repeats(cs: seq<Content>) {
    var k := CountLoop(Counts([], 0), cs);
    Replays(k.open, k.open, k.held)
  }

  /** The groups the tail adds. */
  function Added(s: Grouping): seq<Content>
    decreases |s.pending|
  {
    if s.pending == [] then []
    else if s.pending[0] <= |s.collected| then
      [Content("function", s.collected[..s.pending[0]])] + Added(Answer(s, 0))
    else Added(s.(pending := s.pending[1..]))
  }

  lemma {:induction false} TailAdds(s: Grouping)
    ensures Tail(s).result == s.result + Added(s)
    decreases |s.pending|
  {
    if s.pending == [] {
      assert s.result + [] == s.result;
    } else if s.pending[0] <= |s.collected| {
      TailAdds(Answer(s, 0));
      Reassociate(s.result, [Content("function", s.collected[..s.pending[0]])], Added(Answer(s, 0)));
    } else {
      TailAdds(s.(pending := s.pending[1..]));
    }
  }

  lemma {:induction false} AddedIgnoresResult(s: Grouping, r: seq<Content>)
    ensures Added(s.(result := r)) == Added(s)
    decreases |s.pending|
  {
    if s.pending == [] {
    } else {
      if s.pending[0] <= |s.collected| {
        AddedIgnoresResult(Answer(s, 0), Answer(s.(result := r), 0).result);
      } else {
        AddedIgnoresResult(s.(pending := s.pending[1..]), r);
      }
    }
  }

  lemma {:induction false} LoopOnlyAdds(s: Grouping, cs: seq<Content>)
    ensures s.result <= Loop(s, cs).result
    decreases |cs|
  {
    if cs == [] {
    } else {
      LoopOnlyAdds(Step(s, cs[0]), cs[1..]);
    }
  }

  /** Everything the second pass needs to know of where it stands: nothing collected, `open` messages. */
  function Second(r: seq<Content>, open: seq<nat>): Grouping {
    Grouping(r, open, [])
  }

  predicate AllPositive(open: seq<nat>) {
    forall i | 0 <= i < |open| :: open[i] > 0
  }

  lemma WithoutBag(s: seq<nat>, i: nat)
    requires i < |s|
    ensures multiset(Without(s, i)) == multiset(s) - multiset{s[i]}
  {
    assert s == s[..i] + [s[i]] + s[i + 1..];
  }

  lemma SomeoneIsServed(open: seq<nat>, n: nat)
    requires n in open
    ensures Newest(open, n) >= 0
  {
    NewestIs(open, n);
  }

  /** A group of n responses, met by the second pass. */
  lemma GroupIsMet(r: seq<Content>, open: seq<nat>, group: Content)
    requires IsFunction(group) && OnlyResponses(group.parts) && |group.parts| in open
    ensures var n, i := |group.parts|, Newest(open, |group.parts|);
      && 0 <= i < |open| && open[i] <= n
      && Step(Second(r, open), group) ==
           Grouping(r + [Content("function", group.parts[..open[i]])], Without(open, i), group.parts[open[i]..])
  {
    SomeoneIsServed(open, |group.parts|);
    NewestIs(open, |group.parts|);
    OnlyResponsesKept(group.parts);
    assert [] + group.parts == group.parts;
  }

  /** A pass over the added groups reproduces them exactly if they replay. */
  lemma {:induction false} SecondPassReplays(r: seq<Content>, open: seq<nat>, s: Grouping)
    requires multiset(s.pending) <= multiset(open) && AllPositive(open)
    requires OnlyResponses(s.collected)
    ensures Tail(Loop(Second(r, open), Added(s))).result == r + Added(s) <==> Replays(s.pending, open, |s.collected|)
    decreases |s.pending|
  {
    if s.pending == [] {
      NothingToHandOut(Second(r, open));
      assert r + [] == r;
    } else if s.pending[0] > |s.collected| {
      assert s.pending == [s.pending[0]] + s.pending[1..];
      assert multiset(s.pending[1..]) <= multiset(s.pending);
      SecondPassReplays(r, open, s.(pending := s.pending[1..]));
    } else {
      FirstGroupReplays(r, open, s);
    }
  }

  lemma FirstGroup(s: Grouping)
    requires s.pending != [] && s.pending[0] <= |s.collected| && OnlyResponses(s.collected)
    ensures Added(s) != [] && Added(s)[0] == Content("function", s.collected[..s.pending[0]])
    ensures Added(s)[1..] == Added(Answer(s, 0)) && |Added(s)[0].parts| == s.pending[0]
    ensures OnlyResponses(Added(s)[0].parts) && OnlyResponses(Answer(s, 0).collected)
  {
  }

  lemma Shrink(todo: seq<nat>, open: seq<nat>, i: nat)
    requires todo != [] && i < |open| && open[i] == todo[0]
    requires multiset(todo) <= multiset(open) && AllPositive(open)
    ensures Without(todo, 0) == todo[1..]
    ensures multiset(todo[1..]) <= multiset(Without(open, i)) && AllPositive(Without(open, i))
  {
    WithoutBag(open, i);
    WithoutBag(todo, 0);
    WithoutIs(open, i);
  }

  lemma FirstGroupReplays(r: seq<Content>, open: seq<nat>, s: Grouping)
    requires multiset(s.pending) <= multiset(open) && AllPositive(open)
    requires OnlyResponses(s.collected) && s.pending != [] && s.pending[0] <= |s.collected|
    ensures Tail(Loop(Second(r, open), Added(s))).result == r + Added(s) <==> Replays(s.pending, open, |s.collected|)
    decreases |s.pending|, 0
  {
    var n, group, rest := s.pending[0], Added(s)[0], Added(s)[1..];
    FirstGroup(s);
    assert n in multiset(s.pending);
    GroupIsMet(r, open, group);
    var i := Newest(open, n);
    if open[i] == n {
      Shrink(s.pending, open, i);
      assert group.parts[..n] == group.parts && group.parts[n..] == [];
      SecondPassReplays(r + [group], Without(open, i), Answer(s, 0));
      assert [group] + rest == Added(s);
      Reassociate(r, [group], rest);
    } else {
      ShortGroupStays(Step(Second(r, open), group), |r|, rest);
      assert (r + Added(s))[|r|] == group;
    }
  }

  /** What has been put out stays where it is. */
  lemma ShortGroupStays(s: Grouping, p: nat, rest: seq<Content>)
    requires p < |s.result|
    ensures |Tail(Loop(s, rest)).result| > p && Tail(Loop(s, rest)).result[p] == s.result[p]
  {
    LoopOnlyAdds(s, rest);
    TailAdds(Loop(s, rest));
  }

  lemma {:induction false} LoopConcat(s: Grouping, a: seq<Content>, b: seq<Content>)
    ensures Loop(s, a + b) == Loop(Loop(s, a), b)
    decreases |a|
  {
    if a == [] {
      assert a + b == b;
    } else {
      assert (a + b)[1..] == a[1..] + b;
      LoopConcat(Step(s, a[0]), a[1..], b);
    }
  }

  /** A second pass changes nothing if and only if the groups that the tail of the first pass hands
      out, oldest message first, replay newest first; that depends on the numbers of calls and
      responses alone. */
  lemma SecondPassIsIdentityIff(cs: seq<Content>)
    ensures Regroup(Regroup(cs)) == Regroup(cs) <==> Repeats(cs)
  {
    var s := Loop(START, cs);
    LoopSettles(START, cs);
    LoopConserves(START, cs);
    TailAdds(s);
    LoopConcat(START, s.result, Added(s));
    SecondPassReplays(s.result, s.pending, s);
    CountsFollowLoop(START, cs);
  }

  lemma SecondPassInTurn(cs: seq<Content>)
    requires InTurn(cs, 0)
    ensures Regroup(Regroup(cs)) == Regroup(cs)
  {
    TurnsAreGrouped(cs);
    LoopOutputIsStable(cs);
  }

  function Call(): Part {
    Part("", Some(FunctionCall("f", "{}")), None)
  }

  function Reply(result: string): Part {
    Part("", None, Some(FunctionResponse("f", result)))
  }

  lemma LoopOfThree(s: Grouping, a: Content, b: Content, c: Content)
    ensures Loop(s, [a, b, c]) == Step(Step(Step(s, a), b), c)
  {
    assert [a, b, c][1..] == [b, c] && [b, c][1..] == [c] && [c][1..] == [];
    assert Loop(Step(s, a), [b, c]) == Loop(Step(Step(s, a), b), [c]);
  }

  lemma CountsOfTheExample(a: Part, b: Part)
    requires a.response.Some? && b.response.Some?
    ensures CallCount([Call(), Call()]) == 2 && CallCount([Call()]) == 1
    ensures Responses([a]) == [a] && Responses([b]) == [b] && Responses([a, b]) == [a, b]
  {
    assert Init([Call(), Call()]) == [Call()] && Init([Call()]) == [];
    assert Init([a, b]) == [a] && Init([a]) == [] && Init([b]) == [];
    assert Responses([a]) == [a];
  }

  lemma FirstPassOfTheExample(two: Content, one: Content, a: Part, b: Part)
    requires two == Content("model", [Call(), Call()]) && one == Content("model", [Call()])
    requires a.response.Some? && b.response.Some?
    ensures Regroup([Content("function", [a]), Content("function", [b]), two, one])
      == [two, one, Content("function", [a, b])]
  {
    var cs := [Content("function", [a]), Content("function", [b]), two, one];
    CountsOfTheExample(a, b);
    assert Newest([], 1) == -1 && Newest([], 2) == -1;
    assert Step(START, cs[0]) == START.(collected := [a]);
    assert [a] + [b] == [a, b];
    assert Step(START.(collected := [a]), cs[1]) == START.(collected := [a, b]);
    assert cs[1..] == [cs[1], two, one];
    LoopOfThree(START.(collected := [a]), cs[1], two, one);
    var late := Grouping([two, one], [2, 1], [a, b]);
    assert Step(Step(START.(collected := [a, b]), two), one) == late;
    assert [a, b][..2] == [a, b] && [a, b][2..] == [] && Without([2, 1], 0) == [1];
    assert Answer(late, 0) == Grouping([two, one, Content("function", [a, b])], [1], []);
    NothingToHandOut(Answer(late, 0));
  }

  lemma SecondPassOfTheExample(two: Content, one: Content, a: Part, b: Part)
    requires two == Content("model", [Call(), Call()]) && one == Content("model", [Call()])
    requires a.response.Some? && b.response.Some?
    ensures Regroup([two, one, Content("function", [a, b])]) == [two, one, Content("function", [a])]
  {
    CountsOfTheExample(a, b);
    LoopOfThree(START, two, one, Content("function", [a, b]));
    var open := Grouping([two, one], [2, 1], []);
    assert Step(Step(START, two), one) == open;
    assert Newest([2, 1], 2) == 1;
    assert Without([2, 1], 1) == [2] && [a, b][..1] == [a] && [a, b][1..] == [b];
    var end := Grouping([two, one, Content("function", [a])], [2], [b]);
    assert [] + [a, b] == [a, b] && Answer(open.(collected := [a, b]), 1) == end;
    assert Step(open, Content("function", [a, b])) == end;
    assert [2][1..] == [] && Tail(end.(pending := [])) == end.(pending := []);
  }

  /** Two tool messages before a message with two calls and one with one call: the tail gives both
      responses to the older message; a second pass gives one of them to the newer and drops the
      other. */
  lemma SecondPassCanDiffer() returns (cs: seq<Content>)
    ensures cs == [Content("function", [Reply("a")]), Content("function", [Reply("b")]),
                   Content("model", [Call(), Call()]), Content("model", [Call()])]
    ensures Regroup(Regroup(cs)) != Regroup(cs)
    ensures |AllResponses(Regroup(cs))| == 2 && |AllResponses(Regroup(Regroup(cs)))| == 1
  {
    var two, one := Content("model", [Call(), Call()]), Content("model", [Call()]);
    var a, b := Reply("a"), Reply("b");
    cs := [Content("function", [a]), Content("function", [b]), two, one];
    FirstPassOfTheExample(two, one, a, b);
    SecondPassOfTheExample(two, one, a, b);
    Append([two, one], Content("function", [a, b]));
    Append([two, one], Content("function", [a]));
    Append([two], one);
    Append([], two);
    CountsOfTheExample(a, b);
    assert [] + [two] == [two] && [two] + [one] == [two, one];
    assert [two, one] + [Content("function", [a, b])] == [two, one, Content("function", [a, b])];
    assert [two, one] + [Content("function", [a])] == [two, one, Content("function", [a])];
  }
}
