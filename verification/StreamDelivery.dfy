/** One producer that pushes every chunk of a stream and then closes the queue, and one consumer
    that runs `Each` and folds every item it gets into an accumulator. This is the discipline of
    all three providers. The queue steps are those of ChanQueue, in any interleaving. */
module StreamDelivery {
  import opened ChanQueue

  const PRODUCER: nat := 0
  const CONSUMER: nat := 1

  datatype ProducerPhase = Producing | Closing | Exited
  datatype ConsumerPhase<C> = Looping | Calling(item: C) | Returned

  /** `todo` holds the chunks whose Push has not been called yet. */
  datatype System<C, A> = System(
    q: Queue<C>, todo: seq<C>, producer: ProducerPhase, consumer: ConsumerPhase<C>, acc: A)

  datatype Move<C> =
    | CallPush
    | CallClose
    | Exit                       // the producer's goroutine ends
    | CallPop
    | CallFn                     // Each applies its callback to the item Pop returned
    | Inside(a: Action<C>)       // one atomic step inside a call that is under way

  function Start<C, A>(capacity: nat, chunks: seq<C>, zero: A): System<C, A> {
    System(New(capacity), chunks, Producing, Looping, zero)
  }

  /** The calls themselves are made by the program of each side. No context is cancelled here. */
  predicate IsInside<C>(a: Action<C>) {
    !a.BeginPush? && !a.BeginPop? && !a.BeginClose? && !a.Cancel?
  }

  predicate CanMove<C, A>(s: System<C, A>, m: Move<C>) {
    match m
    case CallPush => s.producer.Producing? && s.q.At(PRODUCER).Idle? && s.todo != []
    case CallClose => s.producer.Producing? && s.q.At(PRODUCER).Idle? && s.todo == []
    case Exit => s.producer.Closing? && s.q.At(PRODUCER).Idle?
    case CallPop => s.consumer.Looping? && s.q.At(CONSUMER).Idle?
    case CallFn => s.consumer.Calling?
    case Inside(a) => IsInside(a) && Enabled(s.q, a)
  }

  function Consume<C>(a: Action<C>, before: Queue<C>, after: Queue<C>, phase: ConsumerPhase<C>)
    : ConsumerPhase<C>
  {
    if Delivers(a) && after.dequeued != [] then
      Calling(after.dequeued[|after.dequeued| - 1])
    else if a == DrainEmpty(CONSUMER) then Returned
    else phase
  }

  function Take<C, A>(s: System<C, A>, m: Move<C>, add: (A, C) -> A): System<C, A> {
    if !CanMove(s, m) then s else
    match m
    case CallPush => s.(q := Step(s.q, BeginPush(PRODUCER, s.todo[0])), todo := s.todo[1..])
    case CallClose => s.(q := Step(s.q, BeginClose(PRODUCER)), producer := Closing)
    case Exit => s.(producer := Exited)
    case CallPop => s.(q := Step(s.q, BeginPop(CONSUMER)))
    case CallFn => s.(acc := add(s.acc, s.consumer.item), consumer := Looping)
    case Inside(a) => s.(q := Step(s.q, a), consumer := Consume(a, s.q, Step(s.q, a), s.consumer))
  }

  function Reach<C, A>(s: System<C, A>, moves: seq<Move<C>>, add: (A, C) -> A): System<C, A> {
    if moves == [] then s
    else Take(Reach(s, moves[..|moves| - 1], add), moves[|moves| - 1], add)
  }

  predicate IsSchedule<C, A>(s: System<C, A>, moves: seq<Move<C>>, add: (A, C) -> A) {
    moves == [] ||
    (&& IsSchedule(s, moves[..|moves| - 1], add)
     && CanMove(Reach(s, moves[..|moves| - 1], add), moves[|moves| - 1]))
  }

  function Fold<C, A>(add: (A, C) -> A, zero: A, chunks: seq<C>): A {
    if chunks == [] then zero
    else add(Fold(add, zero, chunks[..|chunks| - 1]), chunks[|chunks| - 1])
  }

  // ------------------------------------------------------------------------------------
  // What every interleaving keeps
  // ------------------------------------------------------------------------------------

  function InPush<C>(local: Thread<C>): seq<C> {
    match local
    case PushEntry(x) => [x]
    case PushWait(x) => [x]
    case _ => []
  }

  predicate ProducerInOrder<C, A>(s: System<C, A>) {
    var p := s.q.At(PRODUCER);
    match s.producer
    case Producing => !s.q.closed && !s.q.done && (p.Idle? || p.PushEntry? || p.PushWait?)
    case Closing => s.todo == [] && (p.CloseEntry? || p.CloseSignal? || p.Idle?)
      && (p.CloseEntry? <==> !s.q.closed) && (p.Idle? <==> s.q.done)
    case Exited => s.todo == [] && p.Idle? && s.q.closed && s.q.done
  }

  predicate ConsumerInOrder<C, A>(s: System<C, A>) {
    var c := s.q.At(CONSUMER);
    && (c.Idle? || c.PopWait? || c.PopDrain?)
    && (c.PopDrain? ==> s.q.done)
    && (!s.consumer.Looping? ==> c.Idle?)
    && (s.consumer.Returned? ==> s.q.done && s.q.buffer == [])
  }

  /** The accumulator has folded everything dequeued, but for an item still to be called for. */
  ghost predicate Folding<C, A>(s: System<C, A>, zero: A, add: (A, C) -> A) {
    var d := s.q.dequeued;
    if s.consumer.Calling? then
      d != [] && d[|d| - 1] == s.consumer.item && s.acc == Fold(add, zero, d[..|d| - 1])
    else s.acc == Fold(add, zero, d)
  }

  /** Both sides keep to their programs, and nobody else uses the queue. */
  ghost predicate Ordered<C, A>(s: System<C, A>) {
    && Conserved(s.q)
    && (forall t: nat :: t != PRODUCER && t != CONSUMER ==> s.q.At(t).Idle?)
    && ProducerInOrder(s)
    && ConsumerInOrder(s)
  }

  ghost predicate Passing<C, A>(s: System<C, A>, chunks: seq<C>) {
    s.q.accepted + InPush(s.q.At(PRODUCER)) + s.todo == chunks
  }

  ghost predicate Delivering<C, A>(s: System<C, A>, chunks: seq<C>, zero: A, add: (A, C) -> A) {
    Ordered(s) && s.q.cancelled == {} && Passing(s, chunks) && Folding(s, zero, add)
  }

  lemma CallKeepsOrdered<C, A>(s: System<C, A>, m: Move<C>, add: (A, C) -> A)
    requires Ordered(s) && CanMove(s, m) && !m.Inside?
    ensures Ordered(Take(s, m, add))
  {
    match m
    case CallPush => OthersStay(s.q, BeginPush(PRODUCER, s.todo[0]));
    case CallClose => OthersStay<C>(s.q, BeginClose(PRODUCER));
    case Exit =>
    case CallPop => OthersStay<C>(s.q, BeginPop(CONSUMER));
    case CallFn =>
  }

  lemma CallKeepsPassing<C, A>(s: System<C, A>, m: Move<C>, chunks: seq<C>, add: (A, C) -> A)
    requires Ordered(s) && Passing(s, chunks) && CanMove(s, m) && !m.Inside?
    ensures Passing(Take(s, m, add), chunks)
  {
    if m.CallPush? {
      assert [s.todo[0]] + s.todo[1..] == s.todo;
    }
  }

  lemma CallKeepsFolding<C, A>(s: System<C, A>, m: Move<C>, zero: A, add: (A, C) -> A)
    requires Folding(s, zero, add) && CanMove(s, m) && !m.Inside?
    ensures Folding(Take(s, m, add), zero, add)
  {
    assert Take(s, m, add).q.dequeued == s.q.dequeued;
  }

  lemma OnlyTheTwoMove<C, A>(s: System<C, A>, a: Action<C>)
    requires Ordered(s) && CanMove(s, Inside(a))
    ensures (a.t == PRODUCER || a.t == CONSUMER) && (a.HandOff? ==> a.t == PRODUCER && a.receiver == CONSUMER)
    ensures forall t: nat :: t != PRODUCER && t != CONSUMER ==> Step(s.q, a).At(t).Idle?
    ensures Step(s.q, a).cancelled == s.q.cancelled
  {
    OthersStay(s.q, a);
  }

  lemma InsideKeepsProducer<C, A>(s: System<C, A>, a: Action<C>, add: (A, C) -> A)
    requires Ordered(s) && CanMove(s, Inside(a))
    ensures ProducerInOrder(Take(s, Inside(a), add))
  {
    OnlyTheTwoMove(s, a);
    OthersStay(s.q, a);
  }

  lemma InsideKeepsConsumer<C, A>(s: System<C, A>, a: Action<C>, add: (A, C) -> A)
    requires Ordered(s) && CanMove(s, Inside(a))
    ensures ConsumerInOrder(Take(s, Inside(a), add))
  {
    OnlyTheTwoMove(s, a);
    OthersStay(s.q, a);
  }

  lemma InsideKeepsOrdered<C, A>(s: System<C, A>, a: Action<C>, add: (A, C) -> A)
    requires Ordered(s) && CanMove(s, Inside(a))
    ensures Ordered(Take(s, Inside(a), add))
  {
    StepKeepsConserved(s.q, a);
    OnlyTheTwoMove(s, a);
    InsideKeepsProducer(s, a, add);
    InsideKeepsConsumer(s, a, add);
  }

  lemma InsideKeepsPassing<C, A>(s: System<C, A>, a: Action<C>, chunks: seq<C>, add: (A, C) -> A)
    requires Ordered(s) && Passing(s, chunks) && CanMove(s, Inside(a)) && !a.SendCancelled?
    ensures Passing(Take(s, Inside(a), add), chunks)
  {
    OthersStay(s.q, a);
  }

  /** An item reaches the consumer through the buffer or from hand to hand. */
  predicate Delivers<C>(a: Action<C>) {
    a == Receive(CONSUMER) || (a.HandOff? && a.receiver == CONSUMER)
  }

  lemma ItemArrives<C, A>(s: System<C, A>, a: Action<C>, zero: A, add: (A, C) -> A)
    requires Ordered(s) && Folding(s, zero, add) && CanMove(s, Inside(a)) && Delivers(a)
    ensures Folding(Take(s, Inside(a), add), zero, add)
  {
    var d, d' := s.q.dequeued, Step(s.q, a).dequeued;
    assert !s.consumer.Calling?;
    assert |d'| == |d| + 1 && d'[..|d|] == d;
  }

  lemma NothingArrives<C, A>(s: System<C, A>, a: Action<C>, zero: A, add: (A, C) -> A)
    requires Ordered(s) && Folding(s, zero, add) && CanMove(s, Inside(a)) && !Delivers(a)
    ensures Folding(Take(s, Inside(a), add), zero, add)
  {
    assert a.t == PRODUCER || a.t == CONSUMER;
    assert Step(s.q, a).dequeued == s.q.dequeued;
  }

  lemma MoveKeepsDelivering<C, A>(s: System<C, A>, m: Move<C>, chunks: seq<C>, zero: A, add: (A, C) -> A)
    requires Delivering(s, chunks, zero, add) && CanMove(s, m)
    ensures Delivering(Take(s, m, add), chunks, zero, add)
  {
    if m.Inside? {
      OnlyTheTwoMove(s, m.a);
      InsideKeepsOrdered(s, m.a, add);
      InsideKeepsPassing(s, m.a, chunks, add);
      if Delivers(m.a) {
        ItemArrives(s, m.a, zero, add);
      } else {
        NothingArrives(s, m.a, zero, add);
      }
    } else {
      CallKeepsOrdered(s, m, add);
      CallKeepsPassing(s, m, chunks, add);
      CallKeepsFolding(s, m, zero, add);
    }
  }

  lemma {:induction false} EveryScheduleDelivers<C, A>(
      capacity: nat, chunks: seq<C>, moves: seq<Move<C>>, zero: A, add: (A, C) -> A)
    requires IsSchedule(Start(capacity, chunks, zero), moves, add)
    ensures Delivering(Reach(Start(capacity, chunks, zero), moves, add), chunks, zero, add)
  {
    if moves == [] {
      assert Start<C, A>(capacity, chunks, zero).q.At(PRODUCER).Idle?;
    } else {
      var prev := moves[..|moves| - 1];
      EveryScheduleDelivers(capacity, chunks, prev, zero, add);
      MoveKeepsDelivering(Reach(Start(capacity, chunks, zero), prev, add), moves[|moves| - 1], chunks, zero, add);
    }
  }

  predicate Finished<C, A>(s: System<C, A>) {
    s.producer.Exited? && s.consumer.Returned?
  }

  /** Whatever the interleaving and whatever the capacity: what the consumer has folded is always
      a prefix of what the producer was given, and when Each returns, it is all of it. */
  lemma EachReturnsEverything<C, A>(
      capacity: nat, chunks: seq<C>, moves: seq<Move<C>>, zero: A, add: (A, C) -> A)
    requires IsSchedule(Start(capacity, chunks, zero), moves, add)
    ensures var s := Reach(Start(capacity, chunks, zero), moves, add);
      && (exists n :: 0 <= n <= |chunks| && s.acc == Fold(add, zero, chunks[..n]))
      && (s.consumer.Returned? ==> s.acc == Fold(add, zero, chunks))
  {
    EveryScheduleDelivers(capacity, chunks, moves, zero, add);
    var s := Reach(Start(capacity, chunks, zero), moves, add);
    var d := s.q.dequeued;
    var n := if s.consumer.Calling? then |d| - 1 else |d|;
    assert d[..|d|] == d;
    assert d[..n] == chunks[..n];
    if s.consumer.Returned? {
      assert chunks[..n] == chunks;
    }
  }

  // ------------------------------------------------------------------------------------
  // Progress
  // ------------------------------------------------------------------------------------

  /** No Push of the stream is ever turned away and no step is ever blocked for good: until both
      sides are done, some move is possible. */
  lemma NeverStuck<C, A>(s: System<C, A>, chunks: seq<C>, zero: A, add: (A, C) -> A) returns (m: Move<C>)
    requires Delivering(s, chunks, zero, add)
    ensures !Finished(s) ==> CanMove(s, m)
    ensures !CanMove(s, Inside(FailFastPath(PRODUCER))) && !CanMove(s, Inside(SendClosed(PRODUCER)))
  {
    m := SomeMove(s);
  }

  /** While the consumer goes on, one side can. */
  lemma SomeMove<C, A>(s: System<C, A>) returns (m: Move<C>)
    requires Ordered(s)
    ensures !Finished(s) ==> CanMove(s, m)
  {
    var p, c := s.q.At(PRODUCER), s.q.At(CONSUMER);
    if s.consumer.Calling? {
      m := CallFn;
    } else if s.consumer.Looping? && c.Idle? {
      m := CallPop;
    } else if s.consumer.Looping? && s.q.buffer != [] {
      m := Inside(Receive(CONSUMER));
    } else if c.PopDrain? {
      m := Inside(DrainEmpty(CONSUMER));
    } else if s.q.done && c.PopWait? {
      m := Inside(SeeDone(CONSUMER));
    } else {
      // The buffer is empty and `done` is open, or the consumer has returned: the producer moves.
      m := match p
        case PushEntry(x) => Inside(PassFastPath(PRODUCER))
        case PushWait(x) => Inside(HandOff(PRODUCER, CONSUMER))
        case CloseEntry => Inside(WinCas(PRODUCER))
        case CloseSignal => Inside(Signal(PRODUCER))
        case _ => if s.producer.Closing? then Exit else if s.todo == [] then CallClose else CallPush;
    }
  }

  function ProducerWork<C, A>(s: System<C, A>): nat {
    3 * |s.todo|
    + (match s.q.At(PRODUCER)
       case PushEntry(_) => 2
       case PushWait(_) => 1
       case _ => 0)
    + (match s.producer
       case Producing => 4
       case Closing => (match s.q.At(PRODUCER) case CloseEntry => 3 case CloseSignal => 2 case _ => 1)
       case Exited => 0)
  }

  function ConsumerWork<C, A>(s: System<C, A>): nat {
    4 * (|s.todo| + |InPush(s.q.At(PRODUCER))| + |s.q.buffer|)
    + (match s.consumer
       case Looping => (match s.q.At(CONSUMER) case PopWait => 2 case PopDrain => 1 case _ => 3)
       case Calling(_) => 4
       case Returned => 0)
  }

  function Work<C, A>(s: System<C, A>): nat {
    ProducerWork(s) + ConsumerWork(s)
  }

  lemma ConsumerProgresses<C, A>(s: System<C, A>, a: Action<C>, add: (A, C) -> A)
    requires Ordered(s) && CanMove(s, Inside(a)) && a.t == CONSUMER && !a.PopCancelled?
    ensures Work(Take(s, Inside(a), add)) < Work(s)
  {
    OthersStay(s.q, a);
    assert Step(s.q, a).At(PRODUCER) == s.q.At(PRODUCER);
    match a
    case Receive(_) =>
    case SeeDone(_) =>
    case DrainEmpty(_) =>
  }

  lemma ProducerProgresses<C, A>(s: System<C, A>, a: Action<C>, add: (A, C) -> A)
    requires Ordered(s) && CanMove(s, Inside(a)) && a.t == PRODUCER
    ensures Work(Take(s, Inside(a), add)) < Work(s)
  {
    OnlyTheTwoMove(s, a);
    OthersStay(s.q, a);
  }

  lemma InsideIsProgress<C, A>(s: System<C, A>, a: Action<C>, add: (A, C) -> A)
    requires Ordered(s) && CanMove(s, Inside(a)) && !a.PopCancelled?
    ensures Work(Take(s, Inside(a), add)) < Work(s)
  {
    OnlyTheTwoMove(s, a);
    if a.t == CONSUMER {
      ConsumerProgresses(s, a, add);
    } else {
      ProducerProgresses(s, a, add);
    }
  }

  lemma MoveIsProgress<C, A>(s: System<C, A>, m: Move<C>, add: (A, C) -> A)
    requires Ordered(s) && CanMove(s, m) && !(m.Inside? && m.a.PopCancelled?)
    ensures Work(Take(s, m, add)) < Work(s)
  {
    match m
    case Inside(a) => InsideIsProgress(s, a, add);
    case _ =>
  }

  lemma EveryMoveIsProgress<C, A>(s: System<C, A>, m: Move<C>, chunks: seq<C>, zero: A, add: (A, C) -> A)
    requires Delivering(s, chunks, zero, add) && CanMove(s, m)
    ensures Work(Take(s, m, add)) < Work(s)
  {
    MoveIsProgress(s, m, add);
  }

  /** Every schedule is finite, with an explicit bound. */
  lemma {:induction false} SchedulesAreBounded<C, A>(
      capacity: nat, chunks: seq<C>, moves: seq<Move<C>>, zero: A, add: (A, C) -> A)
    requires IsSchedule(Start(capacity, chunks, zero), moves, add)
    ensures |moves| + Work(Reach(Start(capacity, chunks, zero), moves, add)) <= 7 * |chunks| + 7
  {
    if moves == [] {
    } else {
      var prev := moves[..|moves| - 1];
      SchedulesAreBounded(capacity, chunks, prev, zero, add);
      EveryScheduleDelivers(capacity, chunks, prev, zero, add);
      EveryMoveIsProgress(Reach(Start(capacity, chunks, zero), prev, add), moves[|moves| - 1], chunks, zero, add);
    }
  }

  /** The whole guarantee: a schedule that cannot be continued has ended both goroutines and has
      folded every chunk, in order, exactly once. */
  lemma MaximalSchedulesDeliverAll<C(!new), A>(
      capacity: nat, chunks: seq<C>, moves: seq<Move<C>>, zero: A, add: (A, C) -> A)
    requires IsSchedule(Start(capacity, chunks, zero), moves, add)
    requires forall m: Move<C> :: !CanMove(Reach(Start(capacity, chunks, zero), moves, add), m)
    ensures var s := Reach(Start(capacity, chunks, zero), moves, add);
      Finished(s) && s.q.buffer == [] && s.acc == Fold(add, zero, chunks)
  {
    EveryScheduleDelivers(capacity, chunks, moves, zero, add);
    var m := NeverStuck(Reach(Start(capacity, chunks, zero), moves, add), chunks, zero, add);
    EachReturnsEverything(capacity, chunks, moves, zero, add);
  }
}
