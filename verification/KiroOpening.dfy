/** Whose entry a Kiro history begins with, told from the messages. */
module KiroOpening {
  import opened Common
  import opened KiroTypes
  import opened KiroHistory
  import opened KiroPreprocess
  import opened KiroRequest
  import opened KiroResults

  /** Tool messages have come since the last user or assistant message. */
  predicate AfterTools(ms: seq<ChatMessage>) {
    ms != [] &&
    match Last(ms).role
    case Tool => true
    case User => false
    case Assistant => false
    case _ => AfterTools(Init(ms))
  }

  /** How many entries a message makes behind others: an assistant message is preceded by an entry that
      carries the tool results before it. */
  function Yields(before: seq<ChatMessage>, m: ChatMessage): nat {
    match m.role
    case User => 1
    case Assistant => if AfterTools(before) then 2 else 1
    case _ => 0
  }

  function EntryCount(ms: seq<ChatMessage>): nat {
    if ms == [] then 0 else EntryCount(Init(ms)) + Yields(Init(ms), Last(ms))
  }

  /** The role of the first user, assistant or tool message. */
  function FirstSpeaker(ms: seq<ChatMessage>): Option<Role> {
    if ms == [] then None
    else if FirstSpeaker(Init(ms)).Some? then FirstSpeaker(Init(ms))
    else match Last(ms).role
      case User => Some(User)
      case Assistant => Some(Assistant)
      case Tool => Some(Role.Tool)
      case _ => None
  }

  /** Entry i comes from message j. */
  predicate ComesFrom(ms: seq<ChatMessage>, i: nat, j: nat) {
    j < |ms| && EntryCount(ms[..j]) <= i < EntryCount(ms[..j + 1])
  }

  /** Entry i, which comes from message j, is a user entry: the message is the user's, or the entry
      carries the tool results before an assistant message. */
  predicate IsUserEntry(ms: seq<ChatMessage>, i: nat, j: nat)
    requires j < |ms|
  {
    ms[j].role.User? || (i == EntryCount(ms[..j]) && AfterTools(ms[..j]))
  }

  lemma {:induction false} PendingAfterTools(ms: seq<ChatMessage>, modelId: string, total: nat)
    requires |ms| < total
    ensures DraftOf(ms, modelId, total).pending != [] <==> AfterTools(ms)
  {
    if ms == [] {
    } else {
      PendingAfterTools(Init(ms), modelId, total);
    }
  }

  lemma StepYields(before: seq<ChatMessage>, m: ChatMessage, d: Draft, modelId: string, distance: nat)
    requires d.pending != [] <==> AfterTools(before)
    ensures var items := DraftStep(d, m, modelId, distance).items;
      && d.items <= items && |items| == |d.items| + Yields(before, m)
      && (Yields(before, m) > 0 ==> (items[|d.items|].UserItem? <==> m.role.User? || AfterTools(before)))
      && (Yields(before, m) > 1 ==> items[|d.items| + 1].AssistantItem?)
  {
  }

  lemma {:induction false} EntriesAreCounted(ms: seq<ChatMessage>, modelId: string, total: nat)
    requires |ms| < total
    ensures |DraftOf(ms, modelId, total).items| == EntryCount(ms)
  {
    if ms == [] {
    } else {
      EntriesAreCounted(Init(ms), modelId, total);
      PendingAfterTools(Init(ms), modelId, total);
      StepYields(Init(ms), Last(ms), DraftOf(Init(ms), modelId, total), modelId, total - |ms|);
    }
  }

  /** Which message an entry comes from, and whose entry it is. */
  lemma {:induction false} EntryAt(ms: seq<ChatMessage>, modelId: string, total: nat, i: nat) returns (j: nat)
    requires |ms| < total && i < EntryCount(ms)
    ensures |DraftOf(ms, modelId, total).items| == EntryCount(ms) && ComesFrom(ms, i, j)
    ensures DraftOf(ms, modelId, total).items[i].UserItem? <==> IsUserEntry(ms, i, j)
  {
    var before, m := Init(ms), Last(ms);
    EntriesAreCounted(before, modelId, total);
    PendingAfterTools(before, modelId, total);
    StepYields(before, m, DraftOf(before, modelId, total), modelId, total - |ms|);
    if i < EntryCount(before) {
      j := EntryAt(before, modelId, total, i);
      StillComesFrom(ms, i, j);
    } else {
      j := |before|;
      ComesFromLast(ms, i);
    }
  }

  lemma StillComesFrom(ms: seq<ChatMessage>, i: nat, j: nat)
    requires ms != [] && ComesFrom(Init(ms), i, j)
    ensures ComesFrom(ms, i, j) && (IsUserEntry(ms, i, j) <==> IsUserEntry(Init(ms), i, j))
  {
    assert Init(ms)[..j] == ms[..j] && Init(ms)[..j + 1] == ms[..j + 1];
  }

  lemma ComesFromLast(ms: seq<ChatMessage>, i: nat)
    requires ms != [] && EntryCount(Init(ms)) <= i < EntryCount(ms)
    ensures ComesFrom(ms, i, |ms| - 1)
    ensures IsUserEntry(ms, i, |ms| - 1) <==> Last(ms).role.User? || (i == EntryCount(Init(ms)) && AfterTools(Init(ms)))
  {
    assert ms[..|ms| - 1] == Init(ms) && ms[..|ms|] == ms;
  }

  lemma {:induction false} NoEntryYet(ms: seq<ChatMessage>)
    ensures EntryCount(ms) == 0 ==> FirstSpeaker(ms) == if AfterTools(ms) then Some(Role.Tool) else None
    ensures EntryCount(ms) > 0 ==> FirstSpeaker(ms).Some?
  {
    if ms == [] {
    } else {
      NoEntryYet(Init(ms));
    }
  }

  lemma {:induction false} FirstEntry(ms: seq<ChatMessage>, modelId: string, total: nat)
    requires |ms| < total && EntryCount(ms) > 0
    ensures |DraftOf(ms, modelId, total).items| == EntryCount(ms)
    ensures DraftOf(ms, modelId, total).items[0].AssistantItem? <==> FirstSpeaker(ms) == Some(Assistant)
  {
    var before, m := Init(ms), Last(ms);
    EntriesAreCounted(before, modelId, total);
    PendingAfterTools(before, modelId, total);
    StepYields(before, m, DraftOf(before, modelId, total), modelId, total - |ms|);
    NoEntryYet(before);
    if EntryCount(before) > 0 {
      FirstEntry(before, modelId, total);
    }
  }

  /** The length of the history before truncation: the entries, and one more in front if the assistant
      speaks first. */
  function FullLength(ms: seq<ChatMessage>): nat {
    EntryCount(ms) + if FirstSpeaker(ms) == Some(Assistant) then 1 else 0
  }

  /** Message j is the one on which the cut falls, when there is one. */
  predicate CutAt(ms: seq<ChatMessage>, j: nat) {
    FullLength(ms) > MAX_HISTORY ==> EntryCount(ms) >= MAX_HISTORY && ComesFrom(ms, EntryCount(ms) - MAX_HISTORY, j)
  }

  /** There is no cut, or it falls on a message of the user, or on the tool results before one of the
      assistant. */
  predicate CutOnUser(ms: seq<ChatMessage>, j: nat)
    requires CutAt(ms, j)
  {
    FullLength(ms) <= MAX_HISTORY || IsUserEntry(ms, EntryCount(ms) - MAX_HISTORY, j)
  }

  predicate BeginsWithUser(history: seq<HistoryItem>) {
    history != [] && history[0].UserItem?
  }

  /** Behind earlier entries: the history begins with a user entry unless the cut falls on the
      assistant. */
  lemma StageBeginsWithUserIff(ms: seq<ChatMessage>, modelId: string) returns (j: nat)
    requires ms != [] && EntryCount(Init(ms)) > 0
    ensures CutAt(Init(ms), j) && FilterOrphans(Unfiltered(ms, modelId)) != []
    ensures BeginsWithUser(FilterOrphans(Unfiltered(ms, modelId))) <==> CutOnUser(Init(ms), j)
  {
    var earlier := Init(ms);
    var items := DraftOf(earlier, modelId, |ms|).items;
    j := 0;
    FirstEntry(earlier, modelId, |ms|);
    PlaceholderLength(items, modelId);
    if FullLength(earlier) > MAX_HISTORY {
      j := EntryAt(earlier, modelId, |ms|, EntryCount(earlier) - MAX_HISTORY);
      CutEntry(items, modelId);
    }
    FilteredFirst(Unfiltered(ms, modelId));
  }

  /** What the last message adds comes last, and is all there is if nothing precedes it. */
  lemma OpeningOfRequest(ms: seq<ChatMessage>, modelId: string, prompt: string, tools: seq<ToolSpec>)
    requires ms != []
    ensures var stage, history := FilterOrphans(Unfiltered(ms, modelId)), RequestFor(ms, modelId, prompt, tools).history;
      && stage <= history
      && (stage == [] && history != [] ==> Last(ms).role.Assistant? && !BeginsWithUser(history))
  {
  }

  /** The request's history, if there is any, begins with a user entry, as it is said to, if and only if
      an entry precedes the last message and no cut falls on the assistant. */
  lemma HistoryBeginsWithUserIff(ms: seq<ChatMessage>, modelId: string, prompt: string, tools: seq<ToolSpec>)
    returns (j: nat)
    requires ms != [] && RequestFor(ms, modelId, prompt, tools).history != []
    ensures EntryCount(Init(ms)) > 0 ==> CutAt(Init(ms), j)
    ensures BeginsWithUser(RequestFor(ms, modelId, prompt, tools).history) <==>
            EntryCount(Init(ms)) > 0 && CutOnUser(Init(ms), j)
  {
    OpeningOfRequest(ms, modelId, prompt, tools);
    if EntryCount(Init(ms)) > 0 {
      j := StageBeginsWithUserIff(ms, modelId);
    } else {
      j := 0;
      NothingBefore(ms, modelId);
    }
  }

  /** The placeholder is put in front of an assistant entry only, so not into an empty history. */
  lemma NothingBefore(ms: seq<ChatMessage>, modelId: string)
    requires ms != [] && EntryCount(Init(ms)) == 0
    ensures FilterOrphans(Unfiltered(ms, modelId)) == []
  {
    EntriesAreCounted(Init(ms), modelId, |ms|);
    assert Unfiltered(ms, modelId) == [];
  }

  lemma PlaceholderLength(items: seq<HistoryItem>, modelId: string)
    requires items != []
    ensures var all := WithPlaceholder(items, modelId);
      |all| == |items| + (if items[0].AssistantItem? then 1 else 0) && all[0].UserItem?
  {
  }

  lemma FilteredFirst(kept: seq<HistoryItem>)
    requires kept != []
    ensures FilterOrphans(kept) != [] && (FilterOrphans(kept)[0].UserItem? <==> kept[0].UserItem?)
  {
    FilteredItem(kept, UseIds(kept), 0);
    ItemKeepsShape(kept[0], UseIds(kept));
  }

  lemma CutEntry(items: seq<HistoryItem>, modelId: string)
    requires items != [] && |WithPlaceholder(items, modelId)| > MAX_HISTORY
    ensures |items| >= MAX_HISTORY
    ensures Truncate(WithPlaceholder(items, modelId))[0] == items[|items| - MAX_HISTORY]
  {
  }

  // ------------------------------------------------------------------------------------
  // Two conversations whose history begins with the assistant
  // ------------------------------------------------------------------------------------

  /** User and assistant in turn. */
  function Dialogue(n: nat): seq<ChatMessage> {
    seq(n, i requires 0 <= i < n => if i % 2 == 0 then Says(User, "go on") else Says(Assistant, "and so on"))
  }

  lemma DialoguePrefix(n: nat, j: nat)
    requires j <= n
    ensures Dialogue(n)[..j] == Dialogue(j)
  {
  }

  lemma {:induction false} DialogueCounts(n: nat)
    ensures EntryCount(Dialogue(n)) == n && !AfterTools(Dialogue(n))
    ensures n > 0 ==> FirstSpeaker(Dialogue(n)) == Some(User)
  {
    if n == 0 {
    } else {
      DialogueCounts(n - 1);
      assert Init(Dialogue(n)) == Dialogue(n - 1);
    }
  }

  lemma DialogueIsPlain(n: nat)
    requires n > 0
    ensures Separated(Dialogue(n)) && DropBrace(Dialogue(n)) == Dialogue(n)
    ensures forall m | m in Dialogue(n) :: !m.role.System?
  {
  }

  /** Each message of a dialogue makes one entry, its own. */
  lemma DialogueEntry(n: nat, i: nat, j: nat)
    requires ComesFrom(Dialogue(n), i, j)
    ensures i == j && (IsUserEntry(Dialogue(n), i, j) <==> j % 2 == 0)
  {
    DialoguePrefix(n, j);
    DialoguePrefix(n, j + 1);
    DialogueCounts(j);
    DialogueCounts(j + 1);
  }

  lemma DialogueLength(n: nat)
    requires n > 0
    ensures Init(Dialogue(n)) == Dialogue(n - 1)
    ensures EntryCount(Dialogue(n)) == n == FullLength(Dialogue(n))
  {
    DialogueCounts(n);
  }

  /** The cut falls on the entry of an answer. */
  lemma CutOfDialogue(n: nat, j: nat)
    requires n > MAX_HISTORY && n % 2 == 1 && CutAt(Dialogue(n), j)
    ensures !CutOnUser(Dialogue(n), j)
  {
    DialogueLength(n);
    DialogueEntry(n, n - MAX_HISTORY, j);
  }

  lemma HistoryOfDialogue(ms: seq<ChatMessage>, n: nat, modelId: string)
    requires n > MAX_HISTORY && n % 2 == 1 && ms != [] && Init(ms) == Dialogue(n)
    ensures FilterOrphans(Unfiltered(ms, modelId)) != []
    ensures !BeginsWithUser(FilterOrphans(Unfiltered(ms, modelId)))
  {
    DialogueLength(n);
    var j := StageBeginsWithUserIff(ms, modelId);
    CutOfDialogue(n, j);
  }

  /** 26 turns of user and assistant: the cut falls on the first answer. */
  lemma HistoryCanBeginWithAssistant(modelId: string, hints: Hints, tools: seq<RequestTool>)
    ensures var c := Convert(Dialogue(51 + 1), modelId, hints, tools);
      c.Built? && c.request.history != [] && c.request.history[0].AssistantItem?
  {
    var n := 51;
    DialogueIsPlain(n + 1);
    ConvertPlain(Dialogue(n + 1), modelId, hints, tools);
    DialogueLength(n + 1);
    HistoryOfDialogue(Dialogue(n + 1), n, modelId);
  }

  /** The assistant alone: its message becomes the history behind the stage that puts in placeholders. */
  lemma AssistantAloneBeginsHistory(modelId: string, hints: Hints, tools: seq<RequestTool>)
    ensures var c := Convert([Says(Assistant, "hi")], modelId, hints, tools);
      c.Built? && |c.request.history| == 1 && c.request.history[0].AssistantItem?
  {
    var ms := [Says(Assistant, "hi")];
    assert Separated(ms) && DropBrace(ms) == ms;
    ConvertPlain(ms, modelId, hints, tools);
    NothingBefore(ms, modelId);
  }
}
