/** The delivery of a stream whose producer and consumer may be cancelled, each by a context of its own:
    Push and Pop then may, but need not, return the context's error. */
module CancelledDelivery {
  import opened Common
  import opened ChanQueue
  import opened StreamDelivery

  /** What the producer pushes: the chunks, and then a final one, which may tell which Push was refused.
      A refused Push ends the chunks or is ignored. */
  datatype Program<!C> = Program(chunks: seq<C>, final: Option<nat> -> C, stops: bool)

  /** `refused` is the first refused Push of a chunk, if that ended the chunks; `gaveUp` says that Each
      has returned with the context's error. */
  datatype Session<C, A> = Session(sys: System<C, A>, refused: Option<nat>, gaveUp: bool)

  datatype Event<C> =
    | Plays(m: Move<C>)
    | Cancels(t: nat)

  function Open<C, A>(p: Program<C>, capacity: nat, zero: A): Session<C, A> {
    Session(Start(capacity, Offer(p, None), zero), None, false)
  }

  /** The chunks up to a refused Push, and the final one. */
  function Offer<C>(p: Program<C>, refused: Option<nat>): seq<C>
    requires refused.Some? ==> refused.value <= |p.chunks|
  {
    p.chunks[..refused.GetOr(|p.chunks|)] + [p.final(refused)]
  }

  lemma OfferOfAll<C>(p: Program<C>)
    ensures Offer(p, None) == p.chunks + [p.final(None)]
  {
    assert p.chunks[..|p.chunks|] == p.chunks;
  }

  predicate Refuses<C>(m: Move<C>) {
    m.Inside? && m.a.SendCancelled?
  }

  predicate GivesUp<C>(m: Move<C>) {
    m.Inside? && m.a.PopCancelled?
  }

  predicate CanPlay<C, A>(x: Session<C, A>, m: Move<C>) {
    CanMove(x.sys, m) && !(m.CallPop? && x.gaveUp)
  }

  predicate CanGo<C, A>(x: Session<C, A>, e: Event<C>) {
    match e
    case Plays(m) => CanPlay(x, m)
    case Cancels(t) => (t == PRODUCER || t == CONSUMER) && t !in x.sys.q.cancelled
  }

  function Play<C, A>(x: Session<C, A>, m: Move<C>, p: Program<C>, add: (A, C) -> A): Session<C, A> {
    var s := Take(x.sys, m, add);
    if Refuses(m) && p.stops && x.sys.todo != [] then
      var k := |x.sys.q.accepted|;
      Session(s.(todo := [p.final(Some(k))]), Some(k), x.gaveUp)
    else Session(s, x.refused, x.gaveUp || GivesUp(m))
  }

  function Go<C, A>(x: Session<C, A>, e: Event<C>, p: Program<C>, add: (A, C) -> A): Session<C, A> {
    if !CanGo(x, e) then x else
    match e
    case Plays(m) => Play(x, m, p, add)
    case Cancels(t) => x.(sys := x.sys.(q := Step(x.sys.q, Cancel(t))))
  }

  function Played<C, A>(x: Session<C, A>, events: seq<Event<C>>, p: Program<C>, add: (A, C) -> A): Session<C, A> {
    if events == [] then x else Go(Played(x, Init(events), p, add), Last(events), p, add)
  }

  predicate IsPlay<C, A>(x: Session<C, A>, events: seq<Event<C>>, p: Program<C>, add: (A, C) -> A) {
    events == [] || (IsPlay(x, Init(events), p, add) && CanGo(Played(x, Init(events), p, add), Last(events)))
  }

  // ------------------------------------------------------------------------------------
  // Subsequences
  // ------------------------------------------------------------------------------------

  /** What is left of b when some of its items are left out. */
  ghost predicate Subsequence<T>(a: seq<T>, b: seq<T>) {
    a == [] || (b != [] && (Subsequence(a, Init(b)) || (Last(a) == Last(b) && Subsequence(Init(a), Init(b)))))
  }

  lemma {:induction false} SubsequenceOfItself<T>(a: seq<T>)
    ensures Subsequence(a, a)
  {
    if a == [] {
    } else {
      SubsequenceOfItself(Init(a));
    }
  }

  lemma {:induction false} LeaveOut<T>(a: seq<T>, x: T, b: seq<T>, c: seq<T>)
    requires Subsequence(a + [x] + b, c)
    ensures Subsequence(a + b, c)
    decreases |c|
  {
    if Subsequence(a + [x] + b, Init(c)) {
      LeaveOut(a, x, b, Init(c));
    } else if b == [] {
      assert a + b == a == Init(a + [x] + b);
    } else {
      InitOfConcat(a + [x], b);
      InitOfConcat(a, b);
      LeaveOut(a, x, Init(b), Init(c));
    }
  }

  lemma {:induction false} FrontOfSubsequence<T>(a: seq<T>, b: seq<T>, c: seq<T>)
    requires Subsequence(a + b, c)
    ensures Subsequence(a, c)
  {
    if b == [] {
      assert a + b == a;
    } else {
      assert a + Init(b) + [Last(b)] + [] == a + b;
      LeaveOut(a + Init(b), Last(b), [], c);
      assert a + Init(b) + [] == a + Init(b);
      FrontOfSubsequence(a, Init(b), c);
    }
  }

  // ------------------------------------------------------------------------------------
  // What every interleaving keeps
  // ------------------------------------------------------------------------------------

  /** What the producer has still to get accepted. */
  function ToCome<C, A>(s: System<C, A>): seq<C> {
    InPush(s.q.At(PRODUCER)) + s.todo
  }

  /** A producer that stops offers a prefix of its chunks and a final one, all of which are accepted but
      perhaps the final one. */
  ghost predicate Stopping<C, A>(x: Session<C, A>, p: Program<C>) {
    && (x.refused.Some? ==> x.refused.value < |p.chunks| && |ToCome(x.sys)| <= 1)
    && (x.sys.q.accepted + ToCome(x.sys) == Offer(p, x.refused) ||
        (x.sys.q.accepted == Init(Offer(p, x.refused)) && ToCome(x.sys) == []))
  }

  /** Any Push of a producer that goes on may be refused. */
  ghost predicate Skipping<C, A>(x: Session<C, A>, p: Program<C>) {
    x.refused.None? && Subsequence(x.sys.q.accepted + ToCome(x.sys), Offer(p, None))
  }

  ghost predicate Offering<C, A>(x: Session<C, A>, p: Program<C>) {
    if p.stops then Stopping(x, p) else Skipping(x, p)
  }

  ghost predicate Sound<C, A>(x: Session<C, A>, zero: A, add: (A, C) -> A) {
    && Ordered(x.sys) && Folding(x.sys, zero, add)
    && x.sys.q.cancelled <= {PRODUCER, CONSUMER}
    && (x.gaveUp ==> CONSUMER in x.sys.q.cancelled && x.sys.consumer.Looping? && x.sys.q.At(CONSUMER).Idle?)
  }

  lemma AcceptedGrows<T>(q: Queue<T>, a: Action<T>)
    ensures q.accepted <= Step(q, a).accepted
  {
  }

  /** A move that is no refusal takes nothing from what is accepted or to come. */
  lemma MoveKeepsOffer<C, A>(s: System<C, A>, m: Move<C>, add: (A, C) -> A)
    requires Ordered(s) && CanMove(s, m) && !Refuses(m)
    ensures var s' := Take(s, m, add);
      s'.q.accepted + ToCome(s') == s.q.accepted + ToCome(s) && s.q.accepted <= s'.q.accepted
  {
    var all := s.q.accepted + InPush(s.q.At(PRODUCER)) + s.todo;
    Reassociate(s.q.accepted, InPush(s.q.At(PRODUCER)), s.todo);
    var s' := Take(s, m, add);
    if m.Inside? {
      InsideKeepsPassing(s, m.a, all, add);
      AcceptedGrows(s.q, m.a);
    } else {
      CallKeepsPassing(s, m, all, add);
    }
    Reassociate(s'.q.accepted, InPush(s'.q.At(PRODUCER)), s'.todo);
  }

  /** A refusal takes the item in Push, and nothing else. */
  lemma RefusalTakesOne<C, A>(s: System<C, A>, m: Move<C>, add: (A, C) -> A)
    requires Ordered(s) && CanMove(s, m) && Refuses(m)
    ensures var s' := Take(s, m, add);
      && s'.q.accepted == s.q.accepted && s'.todo == s.todo && ToCome(s') == s.todo
      && |ToCome(s)| == 1 + |s.todo| && ToCome(s)[1..] == s.todo
  {
    OnlyTheTwoMove(s, m.a);
  }

  lemma PlayKeepsStopping<C, A>(x: Session<C, A>, m: Move<C>, p: Program<C>, add: (A, C) -> A)
    requires Ordered(x.sys) && Stopping(x, p) && p.stops && CanPlay(x, m)
    ensures Stopping(Play(x, m, p, add), p)
  {
    if Refuses(m) {
      RefusalTakesOne(x.sys, m, add);
      RefusalKeepsStopping(x, m, p, add);
    } else {
      MoveKeepsOffer(x.sys, m, add);
    }
  }

  lemma RefusalKeepsStopping<C, A>(x: Session<C, A>, m: Move<C>, p: Program<C>, add: (A, C) -> A)
    requires Ordered(x.sys) && Stopping(x, p) && p.stops && CanPlay(x, m) && Refuses(m)
    ensures Stopping(Play(x, m, p, add), p)
  {
    RefusalTakesOne(x.sys, m, add);
    var accepted, all := x.sys.q.accepted, Offer(p, x.refused);
    assert accepted + ToCome(x.sys) == all;
    assert all[..|accepted|] == accepted;
    if x.sys.todo == [] {
      assert |all| == |accepted| + 1;
    } else {
      assert x.refused.None? && |accepted| < |p.chunks|;
      assert accepted == p.chunks[..|accepted|];
    }
  }

  lemma PlayKeepsSkipping<C, A>(x: Session<C, A>, m: Move<C>, p: Program<C>, add: (A, C) -> A)
    requires Ordered(x.sys) && Skipping(x, p) && !p.stops && CanPlay(x, m)
    ensures Skipping(Play(x, m, p, add), p)
  {
    if Refuses(m) {
      RefusalTakesOne(x.sys, m, add);
      var accepted, item, todo := x.sys.q.accepted, ToCome(x.sys)[0], x.sys.todo;
      assert accepted + ToCome(x.sys) == accepted + [item] + todo;
      LeaveOut(accepted, item, todo, Offer(p, None));
    } else {
      MoveKeepsOffer(x.sys, m, add);
    }
  }

  lemma PlayKeepsSound<C, A>(x: Session<C, A>, m: Move<C>, p: Program<C>, zero: A, add: (A, C) -> A)
    requires Sound(x, zero, add) && CanPlay(x, m)
    ensures Sound(Play(x, m, p, add), zero, add)
  {
    if m.Inside? {
      OnlyTheTwoMove(x.sys, m.a);
      InsideKeepsOrdered(x.sys, m.a, add);
      OthersStay(x.sys.q, m.a);
      if Delivers(m.a) {
        ItemArrives(x.sys, m.a, zero, add);
      } else {
        StreamDelivery.NothingArrives(x.sys, m.a, zero, add);
      }
    } else {
      CallKeepsOrdered(x.sys, m, add);
      CallKeepsFolding(x.sys, m, zero, add);
    }
  }

  lemma CancelKeepsSound<C, A>(x: Session<C, A>, t: nat, p: Program<C>, zero: A, add: (A, C) -> A)
    requires Sound(x, zero, add) && CanGo(x, Cancels(t))
    ensures Sound(Go(x, Cancels(t), p, add), zero, add)
    ensures Offering(x, p) ==> Offering(Go(x, Cancels(t), p, add), p)
  {
    var x' := Go(x, Cancels(t), p, add);
    assert x'.sys.q == x.sys.q.(cancelled := x.sys.q.cancelled + {t});
    assert forall u: nat :: x'.sys.q.At(u) == x.sys.q.At(u);
  }

  lemma {:induction false} EveryPlayIsSound<C, A>(
      p: Program<C>, capacity: nat, zero: A, add: (A, C) -> A, events: seq<Event<C>>)
    requires IsPlay(Open(p, capacity, zero), events, p, add)
    ensures var x := Played(Open(p, capacity, zero), events, p, add);
      Sound(x, zero, add) && Offering(x, p)
  {
    if events == [] {
      OpenIsSound(p, capacity, zero, add);
    } else {
      EveryPlayIsSound(p, capacity, zero, add, Init(events));
      GoKeepsSound(Played(Open(p, capacity, zero), Init(events), p, add), Last(events), p, zero, add);
    }
  }

  lemma OpenIsSound<C, A>(p: Program<C>, capacity: nat, zero: A, add: (A, C) -> A)
    ensures Sound(Open(p, capacity, zero), zero, add) && Offering(Open(p, capacity, zero), p)
  {
    var x := Open(p, capacity, zero);
    SubsequenceOfItself(Offer(p, None));
    assert x.sys.q.accepted + ToCome(x.sys) == Offer(p, None);
  }

  lemma GoKeepsSound<C, A>(x: Session<C, A>, e: Event<C>, p: Program<C>, zero: A, add: (A, C) -> A)
    requires Sound(x, zero, add) && Offering(x, p) && CanGo(x, e)
    ensures Sound(Go(x, e, p, add), zero, add) && Offering(Go(x, e, p, add), p)
  {
    match e
    case Cancels(t) => CancelKeepsSound(x, t, p, zero, add);
    case Plays(m) =>
      PlayKeepsSound(x, m, p, zero, add);
      if p.stops {
        PlayKeepsStopping(x, m, p, add);
      } else {
        PlayKeepsSkipping(x, m, p, add);
      }
  }

  /** A prefix of the chunks, followed at most by the final one, if the producer stops at a refused Push;
      otherwise the offer with some items left out. */
  ghost predicate CutOf<C>(folded: seq<C>, p: Program<C>, refused: Option<nat>) {
    if p.stops then (refused.Some? ==> refused.value < |p.chunks|) && folded <= Offer(p, refused)
    else Subsequence(folded, Offer(p, None))
  }

  lemma AcceptedIsCut<C, A>(x: Session<C, A>, p: Program<C>, folded: seq<C>)
    requires Offering(x, p) && folded <= x.sys.q.accepted
    ensures CutOf(folded, p, x.refused)
  {
    if p.stops {
      assert x.sys.q.accepted <= Offer(p, x.refused);
    } else {
      var rest := x.sys.q.accepted[|folded|..] + ToCome(x.sys);
      assert x.sys.q.accepted + ToCome(x.sys) == folded + rest;
      FrontOfSubsequence(folded, rest, Offer(p, None));
    }
  }

  /** Whoever is cancelled and whenever: what the consumer has folded is such a cut of the stream, and
      when Each returns without an error, it is all that was accepted. */
  lemma CancelledStreamsAreCut<C, A>(
      p: Program<C>, capacity: nat, zero: A, add: (A, C) -> A, events: seq<Event<C>>) returns (folded: seq<C>)
    requires IsPlay(Open(p, capacity, zero), events, p, add)
    ensures var x := Played(Open(p, capacity, zero), events, p, add);
      && x.sys.acc == Fold(add, zero, folded) && CutOf(folded, p, x.refused)
      && (x.sys.consumer.Returned? ==> folded == x.sys.q.accepted)
  {
    var x := Played(Open(p, capacity, zero), events, p, add);
    EveryPlayIsSound(p, capacity, zero, add, events);
    folded := FoldedSoFar(x.sys, zero, add);
    AcceptedIsCut(x, p, folded);
  }

  lemma FoldedSoFar<C, A>(s: System<C, A>, zero: A, add: (A, C) -> A) returns (folded: seq<C>)
    requires Ordered(s) && Folding(s, zero, add)
    ensures s.acc == Fold(add, zero, folded) && folded <= s.q.accepted
    ensures s.consumer.Returned? ==> folded == s.q.accepted
  {
    var d := s.q.dequeued;
    folded := if s.consumer.Calling? then d[..|d| - 1] else d;
    assert d <= s.q.accepted;
  }

  // ------------------------------------------------------------------------------------
  // How it ends
  // ------------------------------------------------------------------------------------

  predicate Ended<C, A>(x: Session<C, A>) {
    x.sys.producer.Exited? && (x.sys.consumer.Returned? || x.gaveUp)
  }

  /** The consumer has given up, and the producer, which nobody cancels, waits at a full buffer. */
  predicate LeftBehind<C, A>(x: Session<C, A>) {
    && x.gaveUp && x.sys.q.At(PRODUCER).PushWait?
    && PRODUCER !in x.sys.q.cancelled && |x.sys.q.buffer| == x.sys.q.capacity
  }

  lemma SomePlay<C, A>(x: Session<C, A>, zero: A, add: (A, C) -> A) returns (m: Move<C>)
    requires Sound(x, zero, add)
    ensures Ended(x) || LeftBehind(x) || CanPlay(x, m)
  {
    m := SomeMove(x.sys);
    if x.gaveUp {
      m := match x.sys.q.At(PRODUCER)
        case PushEntry(item) => Inside(PassFastPath(PRODUCER))
        case PushWait(item) =>
          if PRODUCER in x.sys.q.cancelled then Inside(SendCancelled(PRODUCER)) else Inside(Send(PRODUCER))
        case CloseEntry => Inside(WinCas(PRODUCER))
        case CloseSignal => Inside(Signal(PRODUCER))
        case _ => if x.sys.producer.Closing? then Exit else if x.sys.todo == [] then CallClose else CallPush;
    }
  }

  lemma NoPlayBehind<C, A>(x: Session<C, A>, m: Move<C>, zero: A, add: (A, C) -> A)
    requires Sound(x, zero, add) && (Ended(x) || LeftBehind(x))
    ensures !CanPlay(x, m)
  {
    if CanMove(x.sys, m) && m.Inside? {
      OnlyTheTwoMove(x.sys, m.a);
    }
  }

  /** Nothing can move any more if and only if both sides have ended, or the producer is left behind. */
  lemma StuckIff<C(!new), A>(x: Session<C, A>, zero: A, add: (A, C) -> A)
    requires Sound(x, zero, add)
    ensures (forall m: Move<C> :: !CanPlay(x, m)) <==> Ended(x) || LeftBehind(x)
  {
    var m := SomePlay(x, zero, add);
    if Ended(x) || LeftBehind(x) {
      forall m: Move<C> ensures !CanPlay(x, m) {
        NoPlayBehind(x, m, zero, add);
      }
    }
  }

  function Pending(cancelled: set<nat>): nat {
    (if PRODUCER in cancelled then 0 else 1) + (if CONSUMER in cancelled then 0 else 1)
  }

  function SessionWork<C, A>(x: Session<C, A>): nat {
    Work(x.sys) + Pending(x.sys.q.cancelled) + if x.gaveUp then 0 else 2
  }

  lemma GivingUpIsProgress<C, A>(x: Session<C, A>, m: Move<C>, p: Program<C>, zero: A, add: (A, C) -> A)
    requires Sound(x, zero, add) && CanPlay(x, m) && GivesUp(m)
    ensures SessionWork(Play(x, m, p, add)) < SessionWork(x)
  {
    OnlyTheTwoMove(x.sys, m.a);
    OthersStay(x.sys.q, m.a);
  }

  lemma GoIsProgress<C, A>(x: Session<C, A>, e: Event<C>, p: Program<C>, zero: A, add: (A, C) -> A)
    requires Sound(x, zero, add) && CanGo(x, e)
    ensures SessionWork(Go(x, e, p, add)) < SessionWork(x)
  {
    match e
    case Cancels(t) => CancelIsProgress(x, t, p, add);
    case Plays(m) =>
      if GivesUp(m) {
        GivingUpIsProgress(x, m, p, zero, add);
      } else {
        MoveIsProgress(x.sys, m, add);
        PlayOutMove(x, m, p, add);
      }
  }

  lemma CancelIsProgress<C, A>(x: Session<C, A>, t: nat, p: Program<C>, add: (A, C) -> A)
    requires CanGo(x, Cancels(t))
    ensures SessionWork(Go(x, Cancels(t), p, add)) < SessionWork(x)
  {
    var q := x.sys.q;
    assert Step(q, Cancel(t)) == q.(cancelled := q.cancelled + {t});
    assert forall u: nat :: Step(q, Cancel(t)).At(u) == q.At(u);
    assert Pending(q.cancelled + {t}) < Pending(q.cancelled);
  }

  /** Replacing the chunks still to come by one final chunk makes no work. */
  lemma PlayOutMove<C, A>(x: Session<C, A>, m: Move<C>, p: Program<C>, add: (A, C) -> A)
    requires Ordered(x.sys) && CanPlay(x, m) && !GivesUp(m)
    ensures Work(Play(x, m, p, add).sys) <= Work(Take(x.sys, m, add))
    ensures Play(x, m, p, add).gaveUp == x.gaveUp
    ensures Play(x, m, p, add).sys.q.cancelled == x.sys.q.cancelled
  {
    if m.Inside? {
      OnlyTheTwoMove(x.sys, m.a);
    }
  }

  /** Every schedule is finite here too. */
  lemma {:induction false} PlaysAreBounded<C, A>(
      p: Program<C>, capacity: nat, zero: A, add: (A, C) -> A, events: seq<Event<C>>)
    requires IsPlay(Open(p, capacity, zero), events, p, add)
    ensures |events| + SessionWork(Played(Open(p, capacity, zero), events, p, add)) <= 7 * |p.chunks| + 18
  {
    if events == [] {
      SchedulesAreBounded<C, A>(capacity, Offer(p, None), [], zero, add);
    } else {
      PlaysAreBounded(p, capacity, zero, add, Init(events));
      EveryPlayIsSound(p, capacity, zero, add, Init(events));
      GoIsProgress(Played(Open(p, capacity, zero), Init(events), p, add), Last(events), p, zero, add);
    }
  }

  /** So a schedule that cannot be continued has ended both sides, unless the consumer's context alone was
      cancelled and the producer waits at a full buffer. */
  lemma EveryPlayEndsIff<C(!new), A>(
      p: Program<C>, capacity: nat, zero: A, add: (A, C) -> A, events: seq<Event<C>>)
    requires IsPlay(Open(p, capacity, zero), events, p, add)
    requires forall m: Move<C> :: !CanPlay(Played(Open(p, capacity, zero), events, p, add), m)
    ensures var x := Played(Open(p, capacity, zero), events, p, add);
      && (Ended(x) <==> !LeftBehind(x))
      && (PRODUCER in x.sys.q.cancelled || CONSUMER !in x.sys.q.cancelled ==> Ended(x))
  {
    EveryPlayIsSound(p, capacity, zero, add, events);
    StuckIff(Played(Open(p, capacity, zero), events, p, add), zero, add);
  }

  // ------------------------------------------------------------------------------------
  // Two schedules
  // ------------------------------------------------------------------------------------

  lemma Continue<C, A>(x: Session<C, A>, events: seq<Event<C>>, e: Event<C>, p: Program<C>, add: (A, C) -> A)
    returns (longer: seq<Event<C>>)
    requires IsPlay(x, events, p, add) && CanGo(Played(x, events, p, add), e)
    ensures longer == events + [e]
    ensures IsPlay(x, longer, p, add) && Played(x, longer, p, add) == Go(Played(x, events, p, add), e, p, add)
  {
    longer := events + [e];
    assert Init(longer) == events;
  }

  predicate BeforePush<C, A>(x: Session<C, A>) {
    x.sys.producer.Producing? && x.sys.q.At(PRODUCER).Idle? && x.sys.todo != [] && !x.sys.q.closed
  }

  function InSelect<C, A>(x: Session<C, A>): Session<C, A>
    requires BeforePush(x)
  {
    x.(sys := x.sys.(q := x.sys.q.Move(PRODUCER, PushWait(x.sys.todo[0])), todo := x.sys.todo[1..]))
  }

  lemma PushSteps<C, A>(x: Session<C, A>, p: Program<C>, add: (A, C) -> A)
    requires BeforePush(x)
    ensures var called := Go(x, Plays(CallPush), p, add);
      && CanGo(x, Plays(CallPush)) && CanGo(called, Plays(Inside(PassFastPath(PRODUCER))))
      && Go(called, Plays(Inside(PassFastPath(PRODUCER))), p, add) == InSelect(x)
  {
    var threads: map<nat, Thread<C>>, item := x.sys.q.threads, x.sys.todo[0];
    assert threads[PRODUCER := PushEntry(item)][PRODUCER := PushWait(item)] == threads[PRODUCER := PushWait(item)];
  }

  /** The next Push gets as far as its select. */
  lemma PushNext<C, A>(x: Session<C, A>, events: seq<Event<C>>, p: Program<C>, add: (A, C) -> A)
    returns (longer: seq<Event<C>>)
    requires IsPlay(x, events, p, add) && BeforePush(Played(x, events, p, add))
    ensures IsPlay(x, longer, p, add) && Played(x, longer, p, add) == InSelect(Played(x, events, p, add))
  {
    PushSteps(Played(x, events, p, add), p, add);
    longer := Continue(x, events, Plays(CallPush), p, add);
    longer := Continue(x, longer, Plays(Inside(PassFastPath(PRODUCER))), p, add);
  }

  lemma SendStep<C, A>(x: Session<C, A>, p: Program<C>, add: (A, C) -> A)
    requires x.sys.q.At(PRODUCER).PushWait? && |x.sys.q.buffer| < x.sys.q.capacity
    ensures CanGo(x, Plays(Inside(Send(PRODUCER))))
    ensures Go(x, Plays(Inside(Send(PRODUCER))), p, add).sys.q.accepted ==
            x.sys.q.accepted + [x.sys.q.At(PRODUCER).item]
  {
  }

  lemma GiveUpFirst<C, A>(p: Program<C>, capacity: nat, zero: A, add: (A, C) -> A) returns (events: seq<Event<C>>)
    ensures IsPlay(Open(p, capacity, zero), events, p, add)
    ensures var q := Queue(capacity, [], false, false, map[CONSUMER := Idle], {CONSUMER}, [], []);
      Played(Open(p, capacity, zero), events, p, add) ==
      Session(System(q, Offer(p, None), Producing, Looping, zero), None, true)
  {
    var x := Open(p, capacity, zero);
    events := Continue(x, [], Cancels(CONSUMER), p, add);
    events := Continue(x, events, Plays(CallPop), p, add);
    events := Continue(x, events, Plays(Inside(PopCancelled(CONSUMER))), p, add);
  }

  /** Without a buffer, a consumer that gives up before the first chunk leaves the producer waiting. */
  lemma ProducerCanBeLeft<C, A>(p: Program<C>, zero: A, add: (A, C) -> A) returns (events: seq<Event<C>>)
    ensures IsPlay(Open(p, 0, zero), events, p, add)
    ensures LeftBehind(Played(Open(p, 0, zero), events, p, add))
  {
    events := GiveUpFirst(p, 0, zero, add);
    events := PushNext(Open(p, 0, zero), events, p, add);
  }

  lemma CancelFirst<C, A>(p: Program<C>, capacity: nat, zero: A, add: (A, C) -> A) returns (events: seq<Event<C>>)
    ensures IsPlay(Open(p, capacity, zero), events, p, add)
    ensures var q := Queue(capacity, [], false, false, map[], {PRODUCER}, [], []);
      Played(Open(p, capacity, zero), events, p, add) ==
      Session(System(q, Offer(p, None), Producing, Looping, zero), None, false)
  {
    events := Continue(Open(p, capacity, zero), [], Cancels(PRODUCER), p, add);
  }

  lemma RefusalStep<C, A>(x: Session<C, A>, p: Program<C>, add: (A, C) -> A)
    requires x.sys.q.At(PRODUCER).PushWait? && PRODUCER in x.sys.q.cancelled
    ensures CanGo(x, Plays(Inside(SendCancelled(PRODUCER))))
    ensures var s := Go(x, Plays(Inside(SendCancelled(PRODUCER))), p, add).sys;
      && s.q == x.sys.q.Move(PRODUCER, Idle) && s.producer == x.sys.producer
      && s.todo == if p.stops && x.sys.todo != [] then [p.final(Some(|x.sys.q.accepted|))] else x.sys.todo
  {
  }

  lemma RefuseFirst<C, A>(p: Program<C>, capacity: nat, zero: A, add: (A, C) -> A) returns (events: seq<Event<C>>)
    requires |p.chunks| == 1
    ensures IsPlay(Open(p, capacity, zero), events, p, add)
    ensures var y := Played(Open(p, capacity, zero), events, p, add);
      && y.sys.q == Queue(capacity, [], false, false, map[PRODUCER := Idle], {PRODUCER}, [], [])
      && y.sys.todo == [p.final(if p.stops then Some(0) else None)] && y.sys.producer.Producing?
  {
    assert Offer(p, None)[1..] == [p.final(None)];
    events := CancelFirst(p, capacity, zero, add);
    events := PushNext(Open(p, capacity, zero), events, p, add);
    RefusalStep(Played(Open(p, capacity, zero), events, p, add), p, add);
    events := Continue(Open(p, capacity, zero), events, Plays(Inside(SendCancelled(PRODUCER))), p, add);
  }

  /** Once the producer is cancelled, each of its Push calls is refused or not, as it happens: here the
      only chunk is lost, and the final one accepted. */
  lemma ChunkCanBeLost<C, A>(p: Program<C>, capacity: nat, zero: A, add: (A, C) -> A) returns (events: seq<Event<C>>)
    requires |p.chunks| == 1 && capacity > 0
    ensures IsPlay(Open(p, capacity, zero), events, p, add)
    ensures Played(Open(p, capacity, zero), events, p, add).sys.q.accepted ==
            [p.final(if p.stops then Some(0) else None)]
  {
    events := RefuseFirst(p, capacity, zero, add);
    events := PushNext(Open(p, capacity, zero), events, p, add);
    SendStep(Played(Open(p, capacity, zero), events, p, add), p, add);
    events := Continue(Open(p, capacity, zero), events, Plays(Inside(Send(PRODUCER))), p, add);
  }
}
