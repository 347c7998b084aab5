/** What the caller of each provider is left with when a context is cancelled: the producer's, so that its
    Push calls start to fail, or the reader's, so that Each gives up. */
module CancelledAnswers {
  import opened Common
  import opened Accumulator
  import opened StreamChunks
  import opened CancelledDelivery
  import CodexStream
  import CodexAnswer
  import KiroStream
  import GeminiStream
  import GeminiAnswer

  type Play = seq<CancelledDelivery.Event<Chunk>>

  /** The session in which a provider's program is played over a queue of the given capacity. */
  function Delivered(p: Program<Chunk>, capacity: nat, plays: Play): Session<Chunk, State> {
    Played(Open(p, capacity, ZERO), plays, p, Add)
  }

  predicate IsDelivery(p: Program<Chunk>, capacity: nat, plays: Play) {
    IsPlay(Open(p, capacity, ZERO), plays, p, Add)
  }

  lemma CancelledIsAccumulated(p: Program<Chunk>, capacity: nat, plays: Play) returns (folded: seq<Chunk>)
    requires IsDelivery(p, capacity, plays)
    ensures var x := Delivered(p, capacity, plays);
      && x.sys.acc == Accumulate(ZERO, folded) && CutOf(folded, p, x.refused)
      && (x.sys.consumer.Returned? ==> folded == x.sys.q.accepted)
  {
    folded := CancelledStreamsAreCut(p, capacity, ZERO, Add, plays);
    FoldIsAccumulate(folded);
  }

  // ------------------------------------------------------------------------------------
  // Codex
  // ------------------------------------------------------------------------------------

  lemma {:induction false} CodexMadeGrows(heard: seq<CodexStream.Event>, events: seq<CodexStream.Event>)
    requires heard <= events
    ensures CodexStream.Made(heard) <= CodexStream.Made(events) && |CodexStream.Made(events)| <= |events|
  {
    if |heard| == |events| {
      assert heard == events;
      if events != [] {
        CodexMadeGrows(Init(events), Init(events));
      }
    } else {
      CodexMadeGrows(heard, Init(events));
    }
  }

  lemma CodexHeardStep(events: seq<CodexStream.Event>, room: nat)
    requires events != []
    ensures var heard, before := CodexStream.UpToStop(events, room), CodexStream.UpToStop(Init(events), room);
      before <= heard && heard == if CodexStream.Stopped(before, room) then before else before + [Last(events)]
  {
  }

  lemma {:induction false} CodexHeardIsFront(events: seq<CodexStream.Event>, room: nat)
    ensures var heard := CodexStream.UpToStop(events, room);
      heard <= events && (heard == events || CodexStream.Stopped(heard, room))
  {
    if events == [] {
    } else {
      CodexHeardIsFront(Init(events), room);
      CodexHeardStep(events, room);
      InitAndLast(events);
    }
  }

  /** With less room the events heard are fewer, or the same if nothing is refused. */
  lemma {:induction false} CodexHeardGrows(events: seq<CodexStream.Event>, room: nat, more: nat)
    requires room <= more
    ensures CodexStream.UpToStop(events, room) <= CodexStream.UpToStop(events, more)
    ensures var heard := CodexStream.UpToStop(events, room);
      |CodexStream.Made(heard)| > room || heard == CodexStream.UpToStop(events, more)
  {
    if events == [] {
    } else {
      CodexHeardGrows(Init(events), room, more);
      CodexHeardStep(events, room);
      CodexHeardStep(events, more);
    }
  }

  /** The final chunk of an event loop whose queue has room for that many chunks before it. */
  function CodexFinal(inv: Invocation, model: string, events: seq<CodexStream.Event>, room: nat,
                      refusal: string, readError: Option<string>): Chunk {
    var heard := CodexStream.UpToStop(events, room);
    CodexStream.FinalOf(inv, model, heard, CodexStream.ErrorOf(heard, room, refusal, readError))
  }

  /** What the processor pushes when nothing is refused, and what comes after a refusal. */
  function CodexProgram(inv: Invocation, model: string, events: seq<CodexStream.Event>,
                        refusal: string, readError: Option<string>): Program<Chunk> {
    var n := |events|;
    Program(CodexStream.Sent(inv, model, CodexStream.UpToStop(events, n), n),
            (refused: Option<nat>) => CodexFinal(inv, model, events, refused.GetOr(n), refusal, readError),
            true)
  }

  /** What the processor sends, the final chunk included, to a queue with that much room. */
  function CodexOffer(inv: Invocation, model: string, events: seq<CodexStream.Event>, room: nat,
                      refusal: string, readError: Option<string>): seq<Chunk> {
    var heard := CodexStream.UpToStop(events, room);
    CodexAnswer.Stream(inv, model, heard, room, CodexStream.ErrorOf(heard, room, refusal, readError))
  }

  lemma CodexMadeFits(events: seq<CodexStream.Event>)
    ensures |CodexStream.Made(CodexStream.UpToStop(events, |events|))| <= |events|
  {
    var heard := CodexStream.UpToStop(events, |events|);
    CodexHeardIsFront(events, |events|);
    CodexMadeGrows(heard, events);
  }

  /** Less room takes the front of what all room takes. */
  lemma CodexTakenFront(heard: seq<CodexStream.Event>, all: seq<CodexStream.Event>, room: nat)
    requires heard <= all && (|CodexStream.Made(heard)| > room || heard == all)
    requires room <= |CodexStream.Made(all)|
    ensures CodexStream.Taken(heard, room) == CodexStream.Made(all)[..room]
  {
    CodexMadeGrows(heard, all);
    assert heard == all && |CodexStream.Made(all)| == room ==>
           CodexStream.Made(all)[..room] == CodexStream.Made(all);
  }

  lemma CodexTaken(events: seq<CodexStream.Event>, room: nat)
    requires room <= |CodexStream.Made(CodexStream.UpToStop(events, |events|))| || room == |events|
    ensures var all := CodexStream.Made(CodexStream.UpToStop(events, |events|));
      && |all| <= |events|
      && CodexStream.Taken(CodexStream.UpToStop(events, room), room) == if room <= |all| then all[..room] else all
  {
    var all := CodexStream.UpToStop(events, |events|);
    CodexMadeFits(events);
    if room <= |CodexStream.Made(all)| {
      CodexHeardGrows(events, room, |events|);
      CodexTakenFront(CodexStream.UpToStop(events, room), all, room);
    }
  }

  lemma {:induction false} ChunksFront(inv: Invocation, model: string, ps: seq<Piece>, n: nat)
    requires n <= |ps|
    ensures |Chunks(inv, model, ps)| == |ps| && Chunks(inv, model, ps)[..n] == Chunks(inv, model, ps[..n])
  {
    if n == |ps| {
      CodexStream.ChunkCount(inv, model, ps);
      assert ps[..n] == ps;
    } else {
      ChunksFront(inv, model, Init(ps), n);
      assert Init(ps)[..n] == ps[..n];
    }
  }

  /** What is offered up to a refused Push is what the processor sends when the queue has that much room. */
  lemma CodexOfferIsStream(inv: Invocation, model: string, events: seq<CodexStream.Event>,
                           refusal: string, readError: Option<string>, refused: Option<nat>)
    requires refused.Some? ==> refused.value < |CodexProgram(inv, model, events, refusal, readError).chunks|
    ensures Offer(CodexProgram(inv, model, events, refusal, readError), refused) ==
            CodexOffer(inv, model, events, refused.GetOr(|events|), refusal, readError)
  {
    var n := |events|;
    var p, all := CodexProgram(inv, model, events, refusal, readError), CodexStream.Made(CodexStream.UpToStop(events, n));
    CodexTaken(events, n);
    assert all[..|all|] == all;
    CodexStream.ChunkCount(inv, model, all);
    if refused.Some? {
      CodexTaken(events, refused.value);
      ChunksFront(inv, model, all, refused.value);
    } else {
      OfferOfAll(p);
    }
  }

  /** All that a Codex message says is the beginning of what was heard. */
  ghost predicate SaysFrontOf(m: Message, heard: seq<CodexStream.Event>) {
    && m.content <= CodexAnswer.Texts(heard) && m.reasoning <= CodexAnswer.Reasonings(heard)
    && CodexAnswer.AllFunctions(CodexAnswer.FunctionItems(heard))
    && m.toolCalls <= CodexAnswer.Numbering(CodexAnswer.FunctionItems(heard))
  }

  lemma FrontSays(ps: seq<Piece>, heard: seq<CodexStream.Event>)
    requires ps <= CodexStream.Made(heard)
    ensures SaysFrontOf(Message(ASSISTANT, TextOf(ps), ReasoningOf(ps), CallsOf(ps)), heard)
    ensures Numbered(CallsOf(ps))
  {
    var all := CodexStream.Made(heard);
    CodexAnswer.MadeSays(heard);
    CodexAnswer.NumberingIsNumbered(CodexAnswer.FunctionItems(heard));
    CodexAnswer.PrefixSays(all, |ps|);
    CodexAnswer.PrefixCalls(all, |ps|);
    assert all[..|ps|] == ps;
  }

  /** The response of some chunks without the final one. */
  lemma FrontIsHeard(inv: Invocation, model: string, heard: seq<CodexStream.Event>, folded: seq<Chunk>)
    requires folded <= Chunks(inv, model, CodexStream.Made(heard))
    ensures var r := Accumulate(ZERO, folded).response;
      !r.done && if folded == [] then r.choices == [] else |r.choices| == 1 && SaysFrontOf(r.choices[0].message, heard)
  {
    var all := CodexStream.Made(heard);
    CodexStream.ChunkCount(inv, model, all);
    var ps := all[..|folded|];
    ChunksFront(inv, model, all, |folded|);
    assert folded == Chunks(inv, model, ps);
    FrontSays(ps, heard);
    PiecesAddUp(inv, model, ps);
    HeardSays(inv, model, ps);
  }

  lemma HeardSays(inv: Invocation, model: string, ps: seq<Piece>)
    ensures var r := Heard(inv, model, ps);
      !r.done && if ps == [] then r.choices == []
                 else |r.choices| == 1 &&
                      r.choices[0].message == Message(ASSISTANT, TextOf(ps), ReasoningOf(ps), CallsOf(ps))
  {
  }

  /** And with the final one, whether it is accepted or not. */
  lemma OfferIsHeard(inv: Invocation, model: string, events: seq<CodexStream.Event>, room: nat,
                     refusal: string, readError: Option<string>)
    requires room <= |CodexStream.Made(CodexStream.UpToStop(events, |events|))| || room == |events|
    ensures var r := Accumulate(ZERO, CodexOffer(inv, model, events, room, refusal, readError)).response;
      |r.choices| == 1 && SaysFrontOf(r.choices[0].message, CodexStream.UpToStop(events, |events|))
  {
    var heard, all := CodexStream.UpToStop(events, room), CodexStream.UpToStop(events, |events|);
    CodexTaken(events, room);
    CodexAnswer.MessageSays(inv, model, heard, room, CodexStream.ErrorOf(heard, room, refusal, readError));
    FrontSays(CodexStream.Taken(heard, room), all);
  }

  /** Whichever context is cancelled, and when: the response that the reader has accumulated is that of
      the chunks up to the first refused Push, or of a beginning of them; it is done only with the final
      chunk, and it says nothing but a beginning of what would have been heard. */
  lemma CancelledCodexAnswers(capacity: nat, inv: Invocation, model: string, events: seq<CodexStream.Event>,
                              refusal: string, readError: Option<string>, plays: Play)
    returns (folded: seq<Chunk>)
    requires IsDelivery(CodexProgram(inv, model, events, refusal, readError), capacity, plays)
    ensures var x := Delivered(CodexProgram(inv, model, events, refusal, readError), capacity, plays);
      var offer := CodexOffer(inv, model, events, x.refused.GetOr(|events|), refusal, readError);
      var r := x.sys.acc.response;
      && x.sys.acc == Accumulate(ZERO, folded) && folded <= offer
      && (r.done ==> folded == offer)
      && (if folded == [] then r.choices == []
          else |r.choices| == 1 && SaysFrontOf(r.choices[0].message, CodexStream.UpToStop(events, |events|)))
  {
    var p := CodexProgram(inv, model, events, refusal, readError);
    var x := Delivered(p, capacity, plays);
    folded := CancelledIsAccumulated(p, capacity, plays);
    CodexOfferIsStream(inv, model, events, refusal, readError, x.refused);
    CutOfCodex(inv, model, events, refusal, readError, x.refused, folded);
  }

  lemma CutOfCodex(inv: Invocation, model: string, events: seq<CodexStream.Event>,
                   refusal: string, readError: Option<string>, refused: Option<nat>, folded: seq<Chunk>)
    requires CutOf(folded, CodexProgram(inv, model, events, refusal, readError), refused)
    ensures var r := Accumulate(ZERO, folded).response;
      && (r.done ==> folded == CodexOffer(inv, model, events, refused.GetOr(|events|), refusal, readError))
      && (if folded == [] then r.choices == []
          else |r.choices| == 1 && SaysFrontOf(r.choices[0].message, CodexStream.UpToStop(events, |events|)))
  {
    var p, room := CodexProgram(inv, model, events, refusal, readError), refused.GetOr(|events|);
    var heard := CodexStream.UpToStop(events, |events|);
    CodexOfferIsStream(inv, model, events, refusal, readError, refused);
    CodexTaken(events, |events|);
    CodexStream.ChunkCount(inv, model, CodexStream.Made(heard));
    if folded == Offer(p, refused) {
      OfferIsHeard(inv, model, events, room, refusal, readError);
    } else {
      assert folded <= p.chunks;
      FrontIsHeard(inv, model, heard, folded);
    }
  }

  // ------------------------------------------------------------------------------------
  // Kiro
  // ------------------------------------------------------------------------------------

  lemma {:induction false} KiroMadeGrows(inv: Invocation, heard: seq<KiroStream.Event>, events: seq<KiroStream.Event>)
    requires heard <= events
    ensures KiroStream.Made(inv, heard) <= KiroStream.Made(inv, events)
  {
    if |heard| == |events| {
      assert heard == events;
    } else {
      KiroMadeGrows(inv, heard, Init(events));
    }
  }

  lemma {:induction false} KiroMadeIsShort(inv: Invocation, events: seq<KiroStream.Event>)
    ensures |KiroStream.Made(inv, events)| <= |events|
  {
    if events == [] {
    } else {
      KiroMadeIsShort(inv, Init(events));
    }
  }

  lemma KiroHeardStep(inv: Invocation, events: seq<KiroStream.Event>, room: nat)
    requires events != []
    ensures var heard, before := KiroStream.UpToStop(inv, events, room), KiroStream.UpToStop(inv, Init(events), room);
      before <= heard && heard == if KiroStream.Stopped(inv, before, room) then before else before + [Last(events)]
  {
  }

  lemma {:induction false} KiroHeardIsShort(inv: Invocation, events: seq<KiroStream.Event>, room: nat)
    ensures |KiroStream.UpToStop(inv, events, room)| <= |events|
  {
    if events == [] {
    } else {
      KiroHeardIsShort(inv, Init(events), room);
      KiroHeardStep(inv, events, room);
    }
  }

  lemma {:induction false} KiroHeardGrows(inv: Invocation, events: seq<KiroStream.Event>, room: nat, more: nat)
    requires room <= more
    ensures KiroStream.UpToStop(inv, events, room) <= KiroStream.UpToStop(inv, events, more)
    ensures var heard := KiroStream.UpToStop(inv, events, room);
      |KiroStream.Made(inv, heard)| > room || heard == KiroStream.UpToStop(inv, events, more)
  {
    if events == [] {
    } else {
      KiroHeardGrows(inv, Init(events), room, more);
      KiroHeardStep(inv, events, room);
      KiroHeardStep(inv, events, more);
    }
  }

  /** What the loop sends, the final chunk included, when the queue has that much room. */
  function KiroOffer(inv: Invocation, events: seq<KiroStream.Event>, room: nat, readError: Option<string>): seq<Chunk> {
    KiroStream.Sent(inv, KiroStream.UpToStop(inv, events, room), room) + [KiroFinal(inv, events, room, readError)]
  }

  function KiroFinal(inv: Invocation, events: seq<KiroStream.Event>, room: nat, readError: Option<string>): Chunk {
    var heard := KiroStream.UpToStop(inv, events, room);
    KiroStream.FinalOf(inv, heard, KiroStream.ErrorOf(inv, heard, room, readError))
  }

  function KiroProgram(inv: Invocation, events: seq<KiroStream.Event>, readError: Option<string>): Program<Chunk> {
    var n := |events|;
    Program(KiroStream.Sent(inv, KiroStream.UpToStop(inv, events, n), n),
            (refused: Option<nat>) => KiroFinal(inv, events, refused.GetOr(n), readError),
            true)
  }

  lemma KiroAllSent(inv: Invocation, events: seq<KiroStream.Event>)
    ensures KiroStream.Sent(inv, KiroStream.UpToStop(inv, events, |events|), |events|) ==
            KiroStream.Made(inv, KiroStream.UpToStop(inv, events, |events|))
  {
    KiroHeardIsShort(inv, events, |events|);
    KiroMadeIsShort(inv, KiroStream.UpToStop(inv, events, |events|));
  }

  lemma KiroSentFront(inv: Invocation, heard: seq<KiroStream.Event>, all: seq<KiroStream.Event>, room: nat)
    requires heard <= all && (|KiroStream.Made(inv, heard)| > room || heard == all)
    requires room < |KiroStream.Made(inv, all)|
    ensures KiroStream.Sent(inv, heard, room) == KiroStream.Made(inv, all)[..room]
  {
    KiroMadeGrows(inv, heard, all);
  }

  lemma KiroOfferIsStream(inv: Invocation, events: seq<KiroStream.Event>, readError: Option<string>,
                          refused: Option<nat>)
    requires refused.Some? ==> refused.value < |KiroProgram(inv, events, readError).chunks|
    ensures Offer(KiroProgram(inv, events, readError), refused) ==
            KiroOffer(inv, events, refused.GetOr(|events|), readError)
  {
    var n := |events|;
    KiroAllSent(inv, events);
    if refused.Some? {
      var k := refused.value;
      KiroHeardIsShort(inv, events, n);
      KiroMadeIsShort(inv, KiroStream.UpToStop(inv, events, n));
      KiroHeardGrows(inv, events, k, n);
      KiroSentFront(inv, KiroStream.UpToStop(inv, events, k), KiroStream.UpToStop(inv, events, n), k);
    } else {
      OfferOfAll(KiroProgram(inv, events, readError));
    }
  }

  /** Whichever context is cancelled, and when: the reader has accumulated a beginning of what the loop
      sends to a queue that has room for just the chunks that were accepted. */
  lemma CancelledKiroAnswers(capacity: nat, inv: Invocation, events: seq<KiroStream.Event>,
                             readError: Option<string>, plays: Play)
    returns (folded: seq<Chunk>)
    requires IsDelivery(KiroProgram(inv, events, readError), capacity, plays)
    ensures var x := Delivered(KiroProgram(inv, events, readError), capacity, plays);
      x.sys.acc == Accumulate(ZERO, folded) && folded <= KiroOffer(inv, events, x.refused.GetOr(|events|), readError)
  {
    var p := KiroProgram(inv, events, readError);
    folded := CancelledIsAccumulated(p, capacity, plays);
    KiroOfferIsStream(inv, events, readError, Delivered(p, capacity, plays).refused);
  }

  // ------------------------------------------------------------------------------------
  // Gemini
  // ------------------------------------------------------------------------------------

  function GeminiProgram(inv: Invocation, model: string, events: seq<GeminiStream.Event>,
                         readError: Option<string>, drawn: nat): Program<Chunk> {
    var heard := GeminiStream.UpToError(events);
    Program(GeminiStream.Sent(inv, model, GeminiStream.Parts(heard), drawn),
            (refused: Option<nat>) => GeminiStream.FinalOf(inv, heard, readError),
            false)
  }

  lemma GeminiOfferIsStream(inv: Invocation, model: string, events: seq<GeminiStream.Event>,
                            readError: Option<string>, drawn: nat)
    ensures Offer(GeminiProgram(inv, model, events, readError, drawn), None) ==
            GeminiAnswer.Stream(inv, model, GeminiStream.UpToError(events), readError, drawn)
  {
    OfferOfAll(GeminiProgram(inv, model, events, readError, drawn));
  }

  /** The Gemini processor does not look at what Push returns, so any chunks may be missing, also from the
      middle of the stream. */
  lemma CancelledGeminiAnswers(capacity: nat, inv: Invocation, model: string, events: seq<GeminiStream.Event>,
                               readError: Option<string>, drawn: nat, plays: Play)
    returns (folded: seq<Chunk>)
    requires IsDelivery(GeminiProgram(inv, model, events, readError, drawn), capacity, plays)
    ensures var x := Delivered(GeminiProgram(inv, model, events, readError, drawn), capacity, plays);
      && x.sys.acc == Accumulate(ZERO, folded)
      && Subsequence(folded, GeminiAnswer.Stream(inv, model, GeminiStream.UpToError(events), readError, drawn))
  {
    GeminiOfferIsStream(inv, model, events, readError, drawn);
    folded := CancelledIsAccumulated(GeminiProgram(inv, model, events, readError, drawn), capacity, plays);
  }
}
