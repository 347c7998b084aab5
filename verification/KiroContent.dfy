/** What a Kiro request says of the conversation, told from its messages. */
module KiroContent {
  import opened Common
  import opened Accumulator
  import opened KiroTypes
  import opened KiroHistory
  import opened KiroPreprocess
  import opened KiroRequest
  import opened KiroOpening
  import opened KiroResults
  import Text
  import KiroTools

  // ------------------------------------------------------------------------------------
  // Single messages
  // ------------------------------------------------------------------------------------

  function PartText(p: ContentPart): string {
    if p.TextPart? && p.text.Some? then p.text.value else ""
  }

  /** An image with data is shown, as a JPEG if it names no format. */
  function PartImages(p: ContentPart): seq<KiroImage> {
    if p.ImagePart? && p.image.Some? && |p.image.value.data| > 0
    then [KiroImage(if |p.image.value.format| > 0 then p.image.value.format else "jpeg", p.image.value.data)]
    else []
  }

  /** What a message says: the texts of its parts in order, or its content if it has no parts. */
  function Spoken(m: ChatMessage): string {
    if |m.parts| > 0 then Flatten(Mapped(PartText, m.parts)) else m.content
  }

  /** The images it shows, in order. */
  function Pictures(m: ChatMessage): seq<KiroImage> {
    Flatten(Mapped(PartImages, m.parts))
  }

  function PicturePlaces(parts: seq<ContentPart>): set<nat> {
    set i | 0 <= i < |parts| && parts[i].ImagePart? && parts[i].image.Some?
  }

  function UseIn(c: ToolCall): seq<ToolUse> {
    if c.kind == "function" || c.kind == "tool_use"
    then [ToolUse(c.id, c.name, if |c.args| > 0 then Parsed(c.args) else EmptyObject)]
    else []
  }

  lemma {:induction false} TextIsSpoken(parts: seq<ContentPart>)
    ensures TextOf(parts) == Flatten(Mapped(PartText, parts))
  {
    if parts == [] {
    } else {
      TextIsSpoken(Init(parts));
      MappedLast(PartText, parts);
    }
  }

  lemma {:induction false} ImagesAreShown(parts: seq<ContentPart>)
    ensures ImagesOf(parts) == Flatten(Mapped(PartImages, parts))
  {
    if parts == [] {
    } else {
      ImagesAreShown(Init(parts));
      MappedLast(PartImages, parts);
    }
  }

  lemma {:induction false} UsesAreIn(calls: seq<ToolCall>)
    ensures UsesOf(calls) == Flatten(Mapped(UseIn, calls))
  {
    if calls == [] {
    } else {
      UsesAreIn(Init(calls));
      MappedLast(UseIn, calls);
    }
  }

  lemma {:induction false} ImagesAreCounted(parts: seq<ContentPart>)
    ensures ImageCount(parts) == |PicturePlaces(parts)|
  {
    if parts == [] {
    } else {
      var last := |parts| - 1;
      ImagesAreCounted(Init(parts));
      assert PicturePlaces(parts) == PicturePlaces(Init(parts)) +
             if parts[last].ImagePart? && parts[last].image.Some? then {last} else {};
    }
  }

  /** Two texts, with something between them if there are both. */
  function Beside(a: string, between: string, b: string): string {
    a + (if a != "" && b != "" then between else "") + b
  }

  function UnlessBlank(s: string, fallback: string): string {
    if Text.Blank(s) then fallback else s
  }

  /** The note that stands for images left out. */
  function Note(n: nat): string {
    if n == 0 then "" else "[此消息包含 " + Text.Decimal(n) + " 张图片，已在历史记录中省略]"
  }

  /** The words of a user message in the history: its text, and a note if it had images that are not kept. */
  function UserWords(m: ChatMessage, keep: bool): string {
    UnlessBlank(Beside(Spoken(m), "\n", Note(if keep then 0 else |PicturePlaces(m.parts)|)), "Continue")
  }

  /** The words of an assistant message: its thinking, and its text. */
  function AssistantWords(m: ChatMessage): string {
    var thinking := if m.reasoning == "" then "" else "<thinking>" + m.reasoning + "</thinking>";
    UnlessBlank(Beside(thinking, "\n\n", Spoken(m)), ".")
  }

  lemma UserIsSaid(m: ChatMessage, modelId: string, keep: bool)
    requires !m.role.Tool?
    ensures HistoryUser(m, modelId, keep) ==
            UserInput(UserWords(m, keep), modelId, "AI_EDITOR", if keep then Pictures(m) else [], None)
  {
    TextIsSpoken(m.parts);
    ImagesAreShown(m.parts);
    ImagesAreCounted(m.parts);
    var n := if keep then 0 else ImageCount(m.parts);
    var text := KiroHistory.PlainText(m);
    var full := if n == 0 then text else (if text != "" then text + "\n" else "") + OmittedNote(n);
    assert full == Beside(Spoken(m), "\n", Note(n));
    Text.TrimEmptiesBlank(full);
  }

  lemma AssistantIsSaid(m: ChatMessage)
    ensures HistoryAssistant(m) == AssistantMessage(AssistantWords(m), Flatten(Mapped(UseIn, m.toolCalls)))
  {
    TextIsSpoken(m.parts);
    UsesAreIn(m.toolCalls);
    var text := KiroHistory.PlainText(m);
    var content :=
      if m.reasoning == "" then text
      else "<thinking>" + m.reasoning + "</thinking>" + if text != "" then "\n\n" + text else "";
    var thinking := if m.reasoning == "" then "" else "<thinking>" + m.reasoning + "</thinking>";
    assert content == Beside(thinking, "\n\n", Spoken(m));
    Text.TrimEmptiesBlank(content);
  }

  // ------------------------------------------------------------------------------------
  // The current message
  // ------------------------------------------------------------------------------------

  /** Text behind the wrapped prompt, if there is one. */
  function Behind(prompt: string, text: string): string {
    if prompt == "" then text
    else "--- SYSTEM PROMPT ---\n" + prompt + "\n--- END SYSTEM PROMPT ---\n\n" + text
  }

  /** The words of the current message. The assistant's last message is history already; a tool message
      speaks through its results. */
  function CurrentWords(ms: seq<ChatMessage>): string
    requires ms != []
  {
    var last := Last(ms);
    if last.role.Assistant? then "Continue"
    else if last.role.Tool? then "Tool results provided."
    else if Spoken(last) != "" then Spoken(last)
    else if AfterTools(Init(ms)) then "Tool results provided." else "Continue"
  }

  /** What the request's current message says: these words behind the prompt, or, if it would be blank, a
      fixed text; and it shows the images of the last message unless that is the assistant's or a tool's. */
  lemma CurrentMessageSays(ms: seq<ChatMessage>, modelId: string, prompt: string, tools: seq<ToolSpec>)
    requires ms != []
    ensures var c, last := RequestFor(ms, modelId, prompt, tools).current, Last(ms);
      && c.content == (if prompt != "" || !Text.Blank(CurrentWords(ms)) then Behind(prompt, CurrentWords(ms))
                       else if AfterTools(Init(ms)) then "Tool results provided." else "Continue")
      && c.images == (if last.role.Assistant? || last.role.Tool? then [] else Pictures(last))
      && c.modelId == modelId && c.origin == "AI_EDITOR"
      && (tools != [] ==> c.context.Some? && c.context.value.tools == tools)
  {
    var last := Last(ms);
    TextIsSpoken(last.parts);
    ImagesAreShown(last.parts);
    PendingAfterTools(Init(ms), modelId, |ms|);
    BehindIsWrapped(prompt, CurrentFor(ms, modelId).content);
    FixedTextsAreNotBlank();
    if !last.role.Assistant? && !last.role.Tool? {
      CurrentOfOthers(ms, modelId);
    } else {
      CurrentOfFixed(ms, modelId);
    }
  }

  lemma CurrentOfFixed(ms: seq<ChatMessage>, modelId: string)
    requires ms != [] && (Last(ms).role.Assistant? || Last(ms).role.Tool?)
    ensures CurrentFor(ms, modelId).content == CurrentWords(ms) && CurrentFor(ms, modelId).images == []
  {
  }

  lemma CurrentOfOthers(ms: seq<ChatMessage>, modelId: string)
    requires ms != [] && !Last(ms).role.Assistant? && !Last(ms).role.Tool?
    ensures CurrentFor(ms, modelId).content == CurrentWords(ms)
    ensures CurrentFor(ms, modelId).images == Pictures(Last(ms))
    ensures CurrentFor(ms, modelId).toolResults != [] <==> AfterTools(Init(ms))
  {
    TextIsSpoken(Last(ms).parts);
    ImagesAreShown(Last(ms).parts);
    PendingAfterTools(Init(ms), modelId, |ms|);
  }

  lemma BehindIsWrapped(prompt: string, text: string)
    ensures forall rs: seq<ToolResult> ::
      FinalContent(text, prompt, rs) ==
      if prompt != "" || !Text.Blank(text) then Behind(prompt, text)
      else if rs != [] then "Tool results provided." else "Continue"
  {
    var full := (if prompt != "" then PROMPT_HEAD + prompt + PROMPT_FOOT else "") + text;
    assert full == Behind(prompt, text);
    Text.TrimEmptiesBlank(full);
    if prompt != "" {
      assert full[0] == '-' && !Text.IsSpace(full[0]);
    }
  }

  // ------------------------------------------------------------------------------------
  // The history
  // ------------------------------------------------------------------------------------

  /** What one entry of the history says, whose it is, and which results and tool uses it carries. */
  datatype Entry = Entry(
    byUser: bool, words: string, pictures: seq<KiroImage>, results: seq<ToolResult>, uses: seq<ToolUse>)

  function EntryOf(h: HistoryItem): Entry {
    match h
    case UserItem(input) =>
      Entry(true, input.content, input.images, if input.context.Some? then input.context.value.toolResults else [], [])
    case AssistantItem(message) => Entry(false, message.content, [], [], message.toolUses)
  }

  /** The results of the tool messages since the last user or assistant message. */
  function Waiting(ms: seq<ChatMessage>): seq<ToolResult> {
    if ms == [] || Last(ms).role.User? || Last(ms).role.Assistant? then []
    else Waiting(Init(ms)) +
         if Last(ms).role.Tool? then [ToolResult(Last(ms).toolId, "success", Last(ms).content)] else []
  }

  function AssistantEntry(m: ChatMessage): Entry {
    Entry(false, AssistantWords(m), [], [], Flatten(Mapped(UseIn, m.toolCalls)))
  }

  /** The entries that the last of some messages makes, of `total` in all: a user message carries the
      results that wait, and so does an entry before an assistant message. The images of the last five
      messages before the current one are kept. */
  function EntriesOfLast(ms: seq<ChatMessage>, total: nat): seq<Entry>
    requires ms != []
  {
    var m, waiting := Last(ms), Waiting(Init(ms));
    if m.role.User? then
      var keep := total <= |ms| + 5;
      [Entry(true, UserWords(m, keep), if keep then Pictures(m) else [], waiting, [])]
    else if m.role.Assistant? then
      (if waiting != [] then [Entry(true, "Tool results provided.", [], waiting, [])] else []) + [AssistantEntry(m)]
    else []
  }

  function Entries(ms: seq<ChatMessage>, total: nat): seq<Entry> {
    if ms == [] then [] else Entries(Init(ms), total) + EntriesOfLast(ms, total)
  }

  /** A user entry put before the assistant's, and the last 50 entries of that. */
  function Opened(es: seq<Entry>): seq<Entry> {
    if es != [] && !es[0].byUser then [Entry(true, ".", [], [], [])] + es else es
  }

  function Recent(es: seq<Entry>): seq<Entry> {
    if |es| > 50 then es[|es| - 50..] else es
  }

  function Declared(es: seq<Entry>): set<string> {
    set e, u | e in es && u in e.uses :: u.id
  }

  /** Only results whose tool use some entry declares. */
  function WithKnown(es: seq<Entry>, ids: set<string>): seq<Entry> {
    Mapped(e => OnlyKnown(e, ids), es)
  }

  function OnlyKnown(e: Entry, ids: set<string>): Entry {
    e.(results := Flatten(Mapped((r: ToolResult) => if r.id in ids then [r] else [], e.results)))
  }

  lemma UserMakesEntry(d: Draft, m: ChatMessage, modelId: string, keep: bool)
    requires m.role.User?
    ensures EntryOf(UserItem(Carry(HistoryUser(m, modelId, keep), d.pending))) ==
            Entry(true, UserWords(m, keep), if keep then Pictures(m) else [], d.pending, [])
  {
    UserIsSaid(m, modelId, keep);
  }

  lemma AssistantMakesEntry(m: ChatMessage)
    ensures EntryOf(AssistantItem(HistoryAssistant(m))) == AssistantEntry(m)
  {
    AssistantIsSaid(m);
  }

  lemma UserStepMakesEntry(d: Draft, m: ChatMessage, modelId: string, distance: nat)
    requires m.role.User?
    ensures Mapped(EntryOf, DraftStep(d, m, modelId, distance).items) == Mapped(EntryOf, d.items) +
            [Entry(true, UserWords(m, distance <= 5), if distance <= 5 then Pictures(m) else [], d.pending, [])]
  {
    UserMakesEntry(d, m, modelId, distance <= 5);
    MappedNext(EntryOf, d.items, UserItem(Carry(HistoryUser(m, modelId, distance <= 5), d.pending)));
  }

  lemma AssistantStepMakesEntries(d: Draft, m: ChatMessage, modelId: string, distance: nat)
    requires m.role.Assistant?
    ensures Mapped(EntryOf, DraftStep(d, m, modelId, distance).items) == Mapped(EntryOf, d.items) +
            ((if d.pending != [] then [Entry(true, "Tool results provided.", [], d.pending, [])] else []) +
             [AssistantEntry(m)])
  {
    var synthetic := Synthetic(modelId, d.pending);
    var before := if d.pending != [] then d.items + [synthetic] else d.items;
    AssistantMakesEntry(m);
    MappedNext(EntryOf, d.items, synthetic);
    MappedNext(EntryOf, before, AssistantItem(HistoryAssistant(m)));
    assert EntryOf(synthetic) == Entry(true, "Tool results provided.", [], d.pending, []);
    Reassociate(Mapped(EntryOf, d.items), [EntryOf(synthetic)], [AssistantEntry(m)]);
  }

  lemma StepMakesEntries(d: Draft, ms: seq<ChatMessage>, modelId: string, total: nat)
    requires ms != [] && |ms| < total && d.pending == Waiting(Init(ms))
    ensures var d' := DraftStep(d, Last(ms), modelId, total - |ms|);
      Mapped(EntryOf, d'.items) == Mapped(EntryOf, d.items) + EntriesOfLast(ms, total)
  {
    var m := Last(ms);
    if m.role.User? {
      UserStepMakesEntry(d, m, modelId, total - |ms|);
    } else if m.role.Assistant? {
      AssistantStepMakesEntries(d, m, modelId, total - |ms|);
    } else {
      assert EntriesOfLast(ms, total) == [];
    }
  }

  lemma StepWaits(d: Draft, ms: seq<ChatMessage>, modelId: string, distance: nat)
    requires ms != [] && d.pending == Waiting(Init(ms))
    ensures DraftStep(d, Last(ms), modelId, distance).pending == Waiting(ms)
  {
  }

  lemma {:induction false} DraftMakesEntries(ms: seq<ChatMessage>, modelId: string, total: nat)
    requires |ms| < total
    ensures Mapped(EntryOf, DraftOf(ms, modelId, total).items) == Entries(ms, total)
    ensures DraftOf(ms, modelId, total).pending == Waiting(ms)
  {
    if ms == [] {
    } else {
      DraftMakesEntries(Init(ms), modelId, total);
      StepMakesEntries(DraftOf(Init(ms), modelId, total), ms, modelId, total);
      StepWaits(DraftOf(Init(ms), modelId, total), ms, modelId, total - |ms|);
    }
  }

  lemma PlaceholderOpens(items: seq<HistoryItem>, modelId: string)
    ensures Mapped(EntryOf, WithPlaceholder(items, modelId)) == Opened(Mapped(EntryOf, items))
  {
    assert items != [] ==> Mapped(EntryOf, items)[0] == EntryOf(items[0]);
    if items != [] && items[0].AssistantItem? {
      var dot := UserItem(UserInput(".", modelId, ORIGIN, [], None));
      assert EntryOf(dot) == Entry(true, ".", [], [], []);
      assert Mapped(EntryOf, [dot] + items) == [EntryOf(dot)] + Mapped(EntryOf, items);
    }
  }

  lemma TruncationKeepsRecent(items: seq<HistoryItem>)
    ensures Mapped(EntryOf, Truncate(items)) == Recent(Mapped(EntryOf, items))
  {
  }

  lemma UnfilteredMakesEntries(ms: seq<ChatMessage>, modelId: string)
    requires ms != []
    ensures Mapped(EntryOf, Unfiltered(ms, modelId)) == Recent(Opened(Entries(Init(ms), |ms|)))
  {
    var items := DraftOf(Init(ms), modelId, |ms|).items;
    DraftMakesEntries(Init(ms), modelId, |ms|);
    PlaceholderOpens(items, modelId);
    TruncationKeepsRecent(WithPlaceholder(items, modelId));
  }

  lemma {:induction false} UsesAreDeclared(hs: seq<HistoryItem>)
    ensures UseIds(hs) == Declared(Mapped(EntryOf, hs))
  {
    if hs == [] {
    } else {
      UsesAreDeclared(Init(hs));
      MappedLast(EntryOf, hs);
      DeclaredNext(Mapped(EntryOf, Init(hs)), EntryOf(Last(hs)));
    }
  }

  lemma DeclaredNext(es: seq<Entry>, e: Entry)
    ensures Declared(es + [e]) == Declared(es) + set u | u in e.uses :: u.id
  {
  }

  lemma {:induction false} KnownIsFilter(rs: seq<ToolResult>, ids: set<string>)
    ensures Known(rs, ids) == Flatten(Mapped((r: ToolResult) => if r.id in ids then [r] else [], rs))
  {
    if rs == [] {
    } else {
      KnownIsFilter(Init(rs), ids);
      MappedLast((r: ToolResult) => if r.id in ids then [r] else [], rs);
    }
  }

  lemma KnownInEntry(h: HistoryItem, ids: set<string>)
    ensures EntryOf(KnownInItem(h, ids)) == OnlyKnown(EntryOf(h), ids)
  {
    KnownIsFilter(ItemResults(h), ids);
  }

  lemma {:induction false} FilteredMakesEntries(hs: seq<HistoryItem>, ids: set<string>)
    ensures Mapped(EntryOf, KnownInHistory(hs, ids)) == WithKnown(Mapped(EntryOf, hs), ids)
  {
    if hs == [] {
    } else {
      FilteredMakesEntries(Init(hs), ids);
      MappedLast(EntryOf, hs);
      MappedLast(EntryOf, KnownInHistory(hs, ids));
      MappedLast(e => OnlyKnown(e, ids), Mapped(EntryOf, hs));
      KnownInEntry(Last(hs), ids);
    }
  }

  /** How the history ends: with the assistant's last message, or with a word of the assistant. */
  function Closed(es: seq<Entry>, last: ChatMessage): seq<Entry> {
    if last.role.Assistant? then es + [AssistantEntry(last)]
    else if es != [] && Last(es).byUser then es + [Entry(false, "Continue", [], [], [])]
    else es
  }

  /** The entries of the earlier messages: opened by the user, the last 50 of them, with the results whose
      use they declare. */
  function EarlierEntries(ms: seq<ChatMessage>): seq<Entry>
    requires ms != []
  {
    var es := Recent(Opened(Entries(Init(ms), |ms|)));
    WithKnown(es, Declared(es))
  }

  lemma StageMakesEntries(ms: seq<ChatMessage>, modelId: string)
    requires ms != []
    ensures Mapped(EntryOf, FilterOrphans(Unfiltered(ms, modelId))) == EarlierEntries(ms)
  {
    UnfilteredMakesEntries(ms, modelId);
    FilterMakesEntries(Unfiltered(ms, modelId));
  }

  /** The history of a request, entry by entry: those of the earlier messages, closed by the assistant. */
  lemma HistoryInClosedForm(ms: seq<ChatMessage>, modelId: string, prompt: string, tools: seq<ToolSpec>)
    requires ms != []
    ensures Mapped(EntryOf, RequestFor(ms, modelId, prompt, tools).history) == Closed(EarlierEntries(ms), Last(ms))
  {
    StageMakesEntries(ms, modelId);
    RequestHistory(ms, modelId, prompt, tools);
    HistoryIsClosed(FilterOrphans(Unfiltered(ms, modelId)), Last(ms));
  }

  lemma FilterMakesEntries(hs: seq<HistoryItem>)
    ensures Mapped(EntryOf, FilterOrphans(hs)) == WithKnown(Mapped(EntryOf, hs), Declared(Mapped(EntryOf, hs)))
  {
    UsesAreDeclared(hs);
    FilteredMakesEntries(hs, UseIds(hs));
  }

  lemma HistoryIsClosed(history: seq<HistoryItem>, last: ChatMessage)
    ensures Closed(Mapped(EntryOf, history), last) == Mapped(EntryOf,
      if last.role.Assistant? then history + [AssistantItem(HistoryAssistant(last))] else Answered(history))
  {
    AssistantMakesEntry(last);
    MappedNext(EntryOf, history, AssistantItem(HistoryAssistant(last)));
    MappedNext(EntryOf, history, AssistantItem(AssistantMessage(CONTINUE, [])));
    if history != [] {
      MappedLast(EntryOf, history);
    }
  }

  /** A user entry of this model; it has a context only for its results. */
  predicate IsStamped(h: HistoryItem, modelId: string) {
    h.UserItem? ==>
      && h.input.modelId == modelId && h.input.origin == "AI_EDITOR"
      && (h.input.context.Some? ==> h.input.context.value.toolResults != [] && h.input.context.value.tools == [])
  }

  predicate AllStamped(hs: seq<HistoryItem>, modelId: string) {
    forall i | 0 <= i < |hs| :: IsStamped(hs[i], modelId)
  }

  lemma {:induction false} DraftIsStamped(ms: seq<ChatMessage>, modelId: string, total: nat)
    requires |ms| < total
    ensures AllStamped(DraftOf(ms, modelId, total).items, modelId)
  {
    if ms == [] {
    } else {
      DraftIsStamped(Init(ms), modelId, total);
      StepIsStamped(DraftOf(Init(ms), modelId, total), Last(ms), modelId, total - |ms|);
    }
  }

  lemma StepIsStamped(d: Draft, m: ChatMessage, modelId: string, distance: nat)
    requires AllStamped(d.items, modelId)
    ensures AllStamped(DraftStep(d, m, modelId, distance).items, modelId)
  {
    if m.role.User? {
      UserIsSaid(m, modelId, distance <= 5);
    }
  }

  lemma KnownIsStamped(h: HistoryItem, ids: set<string>, modelId: string)
    requires IsStamped(h, modelId)
    ensures IsStamped(KnownInItem(h, ids), modelId)
  {
  }

  lemma FilteredIsStamped(hs: seq<HistoryItem>, ids: set<string>, modelId: string)
    requires AllStamped(hs, modelId)
    ensures AllStamped(KnownInHistory(hs, ids), modelId)
  {
    if hs != [] {
      FilteredItem(hs, ids, 0);
    }
    forall i | 0 <= i < |KnownInHistory(hs, ids)| ensures IsStamped(KnownInHistory(hs, ids)[i], modelId) {
      FilteredItem(hs, ids, i);
      KnownIsStamped(hs[i], ids, modelId);
    }
  }

  /** Every user entry of the history is of the request's model, and carries a context only with results. */
  lemma HistoryIsStamped(ms: seq<ChatMessage>, modelId: string, prompt: string, tools: seq<ToolSpec>)
    requires ms != []
    ensures AllStamped(RequestFor(ms, modelId, prompt, tools).history, modelId)
  {
    DraftIsStamped(Init(ms), modelId, |ms|);
    FilteredIsStamped(Unfiltered(ms, modelId), UseIds(Unfiltered(ms, modelId)), modelId);
    RequestHistory(ms, modelId, prompt, tools);
  }

  // ------------------------------------------------------------------------------------
  // The current results
  // ------------------------------------------------------------------------------------

  /** The first result of each id. */
  function Firsts(rs: seq<ToolResult>): seq<ToolResult> {
    if rs == [] then []
    else Firsts(Init(rs)) + if exists r :: r in Init(rs) && r.id == Last(rs).id then [] else [Last(rs)]
  }

  lemma {:induction false} DedupIsFirsts(rs: seq<ToolResult>)
    ensures Dedup(rs) == Firsts(rs)
  {
    if rs == [] {
    } else {
      DedupIsFirsts(Init(rs));
      assert Last(rs).id in Ids(Init(rs)) <==> exists r :: r in Init(rs) && r.id == Last(rs).id;
    }
  }

  function Filtered(rs: seq<ToolResult>, ids: set<string>): seq<ToolResult> {
    Flatten(Mapped((r: ToolResult) => if r.id in ids then [r] else [], rs))
  }

  /** The results of the current message: behind the assistant's message none, and otherwise those that
      wait, a final tool message included, the first of each id, as far as the history declares their
      uses, if it declares any. */
  lemma CurrentResultsAre(ms: seq<ChatMessage>, modelId: string, prompt: string, tools: seq<ToolSpec>)
    requires ms != []
    ensures var r := RequestFor(ms, modelId, prompt, tools);
      var waiting := Firsts(Waiting(if Last(ms).role.Tool? then ms else Init(ms)));
      var declared := Declared(Mapped(EntryOf, r.history));
      ContextResults(r.current.context) ==
        if Last(ms).role.Assistant? then [] else if declared == {} then waiting else Filtered(waiting, declared)
  {
    var r := RequestFor(ms, modelId, prompt, tools);
    UsesAreDeclared(r.history);
    DraftMakesEntries(Init(ms), modelId, |ms|);
    if Last(ms).role.Assistant? {
      NothingCurrentBehindAssistant(ms, modelId, prompt, tools);
    } else if Last(ms).role.Tool? {
      TrailingToolsReachTheRequest(ms, modelId, prompt, tools);
      WaitingIsTail(ms);
      DedupIsFirsts(TailTools(ms));
      KnownIsFilter(Dedup(TailTools(ms)), UseIds(r.history));
    } else {
      PendingToolsReachTheRequest(ms, modelId, prompt, tools);
      WaitingIsTail(Init(ms));
      DedupIsFirsts(TailTools(Init(ms)));
      KnownIsFilter(Dedup(TailTools(Init(ms))), UseIds(r.history));
    }
  }

  lemma {:induction false} WaitingIsTail(ms: seq<ChatMessage>)
    ensures Waiting(ms) == TailTools(ms)
  {
    if ms == [] {
    } else {
      WaitingIsTail(Init(ms));
    }
  }

  // ------------------------------------------------------------------------------------
  // The whole conversion
  // ------------------------------------------------------------------------------------

  /** The texts that are not empty, with something between them. */
  function Joined(between: string, texts: seq<string>): string {
    if texts == [] then "" else Beside(Joined(between, Init(texts)), between, Last(texts))
  }

  function SystemWords(m: ChatMessage): string {
    if m.role.System? then m.content else ""
  }

  function Speaker(m: ChatMessage): seq<ChatMessage> {
    if m.role.System? then [] else [m]
  }

  lemma {:induction false} SystemTextIsJoined(ms: seq<ChatMessage>)
    ensures SystemText(ms) == Joined("\n\n", Mapped(SystemWords, ms))
  {
    if ms == [] {
    } else {
      SystemTextIsJoined(Init(ms));
      MappedLast(SystemWords, ms);
    }
  }

  lemma {:induction false} NonSystemAreSpeakers(ms: seq<ChatMessage>)
    ensures NonSystem(ms) == Flatten(Mapped(Speaker, ms))
  {
    if ms == [] {
    } else {
      NonSystemAreSpeakers(Init(ms));
      MappedLast(Speaker, ms);
    }
  }

  /** The prompt: the thinking hint, the system texts, and the other hints line by line. */
  function Prompt(h: Hints, ms: seq<ChatMessage>): string {
    Joined("\n", [Joined("\n\n", [h.thinking, Joined("\n\n", Mapped(SystemWords, ms))]), h.toolChoice, h.responseFormat])
  }

  lemma JoinedTwo(between: string, a: string, b: string)
    ensures Joined(between, [a, b]) == Beside(a, between, b)
  {
    assert Init([a, b]) == [a] && Init([a]) == [];
    assert Joined(between, [a]) == Beside("", between, a) == a;
  }

  lemma JoinedThree(between: string, a: string, b: string, c: string)
    ensures Joined(between, [a, b, c]) == Beside(Beside(a, between, b), between, c)
  {
    assert Init([a, b, c]) == [a, b];
    JoinedTwo(between, a, b);
  }

  lemma PromptIsDecorated(h: Hints, ms: seq<ChatMessage>)
    ensures Decorated(h, SystemText(ms)) == Prompt(h, ms)
  {
    var text := SystemText(ms);
    SystemTextIsJoined(ms);
    var first := Beside(h.thinking, "\n\n", text);
    JoinedTwo("\n\n", h.thinking, text);
    JoinedThree("\n", first, h.toolChoice, h.responseFormat);
    HintIsBeside(first, h.toolChoice);
    HintIsBeside(Beside(first, "\n", h.toolChoice), h.responseFormat);
    assert first == if h.thinking == "" then text else if text == "" then h.thinking else h.thinking + "\n\n" + text;
  }

  lemma HintIsBeside(text: string, hint: string)
    ensures WithHint(text, hint) == Beside(text, "\n", hint)
  {
  }

  /** The conversion: nothing is asked of no messages, and nothing is sent for system messages alone;
      otherwise the request is that of the merged messages but the system's, whose texts make the prompt,
      with the usable tools. */
  lemma ConversionIs(ms: seq<ChatMessage>, modelId: string, hints: Hints, tools: seq<RequestTool>)
    ensures var merged := MergeAll(DropBrace(ms));
      var rest := Flatten(Mapped(Speaker, merged));
      Convert(ms, modelId, hints, tools) ==
        if ms == [] then Failed
        else if rest == [] then FilteredOut
        else Built(RequestFor(rest, modelId, Prompt(hints, merged), KiroTools.KiroToolsOf(tools)))
  {
    var merged := MergeAll(DropBrace(ms));
    NonSystemAreSpeakers(merged);
    PromptIsDecorated(hints, merged);
  }
}
