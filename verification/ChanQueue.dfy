/** The closable bounded queue as a transition system over its atomic steps.

    Every goroutine that uses the queue is a thread with a local state that says how far
    its current call has got. One action is one atomic step of one thread (two threads for
    a direct hand-off between a waiting sender and a waiting receiver). A `select` with
    several ready cases is several enabled actions, so every choice the runtime may make is
    a run of this system, for any number of producers, consumers, closers and cancellations. */
module ChanQueue {

  datatype Thread<T> =
    | Idle
    | PushEntry(item: T)   // Push was called; the closed flag has not been loaded yet
    | PushWait(item: T)    // Push passed the fast path and is in its select
    | PopWait              // Pop is in its first select
    | PopDrain             // Pop saw `done` and is about to try the buffer once more
    | CloseEntry           // Close was called; the compare-and-swap is still to come
    | CloseSignal          // Close won the compare-and-swap and is about to close `done`

  /** `accepted` and `dequeued` record, in order, what Push calls delivered into the channel
      and what Pop calls took out of it. No step reads them. */
  datatype Queue<T> = Queue(
    capacity: nat,
    buffer: seq<T>,
    closed: bool,
    done: bool,
    threads: map<nat, Thread<T>>,
    cancelled: set<nat>,
    accepted: seq<T>,
    dequeued: seq<T>)
  {
    function At(t: nat): Thread<T> {
      if t in threads then threads[t] else Idle
    }

    function Move(t: nat, local: Thread<T>): Queue<T> {
      this.(threads := threads[t := local])
    }
  }

  datatype Action<T> =
    | BeginPush(t: nat, item: T)
    | PassFastPath(t: nat)
    | FailFastPath(t: nat)
    | Send(t: nat)
    | SendClosed(t: nat)
    | SendCancelled(t: nat)
    | BeginPop(t: nat)
    | Receive(t: nat)
    | SeeDone(t: nat)
    | DrainEmpty(t: nat)
    | PopCancelled(t: nat)
    | HandOff(t: nat, receiver: nat)
    | BeginClose(t: nat)
    | WinCas(t: nat)
    | LoseCas(t: nat)
    | Signal(t: nat)
    | Cancel(t: nat)

  function New<T>(capacity: nat): Queue<T> {
    Queue(capacity, [], false, false, map[], {}, [], [])
  }

  predicate Receiving<T>(local: Thread<T>) {
    local.PopWait? || local.PopDrain?
  }

  predicate Enabled<T>(q: Queue<T>, a: Action<T>) {
    match a
    case BeginPush(t, _) => q.At(t).Idle?
    case PassFastPath(t) => q.At(t).PushEntry? && !q.closed
    case FailFastPath(t) => q.At(t).PushEntry? && q.closed
    case Send(t) => q.At(t).PushWait? && |q.buffer| < q.capacity
    case SendClosed(t) => q.At(t).PushWait? && q.done
    case SendCancelled(t) => q.At(t).PushWait? && t in q.cancelled
    case BeginPop(t) => q.At(t).Idle?
    case Receive(t) => Receiving(q.At(t)) && q.buffer != []
    case SeeDone(t) => q.At(t).PopWait? && q.done
    case DrainEmpty(t) => q.At(t).PopDrain? && q.buffer == []
    case PopCancelled(t) => q.At(t).PopWait? && t in q.cancelled
    case HandOff(t, r) => q.At(t).PushWait? && Receiving(q.At(r)) && q.buffer == []
    case BeginClose(t) => q.At(t).Idle?
    case WinCas(t) => q.At(t).CloseEntry? && !q.closed
    case LoseCas(t) => q.At(t).CloseEntry? && q.closed
    case Signal(t) => q.At(t).CloseSignal?
    case Cancel(t) => true
  }

  /** The state after one step; an action that is not enabled leaves the queue alone. */
  function Step<T>(q: Queue<T>, a: Action<T>): Queue<T> {
    if !Enabled(q, a) then q else
    match a
    case BeginPush(t, x) => q.Move(t, PushEntry(x))
    case PassFastPath(t) => q.Move(t, PushWait(q.At(t).item))
    case Send(t) => q.Move(t, Idle).(buffer := q.buffer + [q.At(t).item],
                                     accepted := q.accepted + [q.At(t).item])
    case BeginPop(t) => q.Move(t, PopWait)
    case Receive(t) => q.Move(t, Idle).(buffer := q.buffer[1..],
                                        dequeued := q.dequeued + [q.buffer[0]])
    case SeeDone(t) => q.Move(t, PopDrain)
    case HandOff(t, r) => q.Move(t, Idle).Move(r, Idle).(accepted := q.accepted + [q.At(t).item],
                                                         dequeued := q.dequeued + [q.At(t).item])
    case BeginClose(t) => q.Move(t, CloseEntry)
    case WinCas(t) => q.Move(t, CloseSignal).(closed := true)
    case Signal(t) => q.Move(t, Idle).(done := true)
    case Cancel(t) => q.(cancelled := q.cancelled + {t})
    case _ => q.Move(a.t, Idle)   // the call returns an error and changes nothing else
  }

  predicate Acts<T>(a: Action<T>, t: nat) {
    t == a.t || (a.HandOff? && t == a.receiver)
  }

  lemma OthersStay<T>(q: Queue<T>, a: Action<T>)
    ensures forall u: nat {:trigger Step(q, a).At(u)} ::
        !Acts(a, u) ==> Step(q, a).At(u) == q.At(u)
  {
  }

  function After<T>(q: Queue<T>, run: seq<Action<T>>): Queue<T> {
    if run == [] then q else Step(After(q, run[..|run| - 1]), run[|run| - 1])
  }

  predicate IsRun<T>(q: Queue<T>, run: seq<Action<T>>) {
    run == [] || (IsRun(q, run[..|run| - 1]) && Enabled(After(q, run[..|run| - 1]), run[|run| - 1]))
  }

  lemma {:induction false} RunAt<T>(q: Queue<T>, run: seq<Action<T>>, i: nat)
    requires IsRun(q, run) && i < |run|
    ensures IsRun(q, run[..i]) && Enabled(After(q, run[..i]), run[i])
    ensures After(q, run[..i + 1]) == Step(After(q, run[..i]), run[i])
  {
    assert run[..i + 1][..i] == run[..i];
    if i < |run| - 1 {
      var prev := run[..|run| - 1];
      RunAt(q, prev, i);
      assert prev[..i] == run[..i];
    } else {
      assert run[..i + 1] == run;
    }
  }

  lemma Extend<T>(q: Queue<T>, run: seq<Action<T>>, a: Action<T>) returns (longer: seq<Action<T>>)
    requires IsRun(q, run) && Enabled(After(q, run), a)
    ensures longer == run + [a]
    ensures IsRun(q, longer) && After(q, longer) == Step(After(q, run), a)
  {
    longer := run + [a];
    assert longer[..|longer| - 1] == run;
  }

  // ------------------------------------------------------------------------------------
  // Safety of every run
  // ------------------------------------------------------------------------------------

  ghost predicate Conserved<T>(q: Queue<T>) {
    && q.accepted == q.dequeued + q.buffer
    && |q.buffer| <= q.capacity
  }

  ghost predicate ClosedInOrder<T>(q: Queue<T>) {
    && (q.done ==> q.closed)
    && (forall t: nat :: q.At(t).CloseSignal? ==> q.closed && !q.done)
    && (forall t: nat, u: nat :: q.At(t).CloseSignal? && q.At(u).CloseSignal? ==> t == u)
    && (q.closed && !q.done ==> exists t: nat :: q.At(t).CloseSignal?)
  }

  ghost predicate Invariant<T>(q: Queue<T>) {
    Conserved(q) && ClosedInOrder(q)
  }

  lemma OnlyTheWinnerSignals<T>(q: Queue<T>, a: Action<T>)
    ensures forall u: nat {:trigger Step(q, a).At(u)} :: Step(q, a).At(u).CloseSignal? <==>
        if Enabled(q, a) && a == WinCas(u) then true
        else q.At(u).CloseSignal? && !(a == Signal(u))
  {
    OthersStay(q, a);
    match a
    case HandOff(t, r) =>
    case WinCas(t) =>
    case Signal(t) =>
    case _ =>
  }

  lemma StepKeepsConserved<T>(q: Queue<T>, a: Action<T>)
    requires Conserved(q)
    ensures Conserved(Step(q, a))
  {
    match a
    case Send(t) =>
    case Receive(t) =>
    case HandOff(t, r) =>
    case _ =>
  }

  lemma StepKeepsClosedInOrder<T>(q: Queue<T>, a: Action<T>)
    requires ClosedInOrder(q)
    ensures ClosedInOrder(Step(q, a))
  {
    OnlyTheWinnerSignals(q, a);
    if Enabled(q, a) && a.WinCas? {
      assert Step(q, a).At(a.t).CloseSignal?;
    } else if q.closed && !q.done {
      var t: nat :| q.At(t).CloseSignal?;
      assert a == Signal(t) || Step(q, a).At(t).CloseSignal?;
    }
  }

  /** Nothing is lost, duplicated or reordered inside the queue; the buffer never outgrows its
      capacity; `done` is closed once, by the one thread that won the compare-and-swap. */
  lemma {:induction false} EveryRunIsSafe<T>(capacity: nat, run: seq<Action<T>>)
    ensures Invariant(After(New(capacity), run))
    ensures After(New(capacity), run).capacity == capacity
  {
    if run == [] {
    } else {
      EveryRunIsSafe(capacity, run[..|run| - 1]);
      StepKeepsConserved(After(New(capacity), run[..|run| - 1]), run[|run| - 1]);
      StepKeepsClosedInOrder(After(New(capacity), run[..|run| - 1]), run[|run| - 1]);
    }
  }

  /** Closing `done` a second time would panic; no run ever gets there. */
  lemma DoneIsClosedOnce<T>(capacity: nat, run: seq<Action<T>>, i: nat, j: nat)
    requires IsRun(New(capacity), run)
    requires i < j < |run| && run[i].Signal?
    ensures !run[j].Signal?
  {
    var q := New(capacity);
    RunAt(q, run, i);
    FlagsAreMonotone(q, run, i + 1, j);
    EveryRunIsSafe(capacity, run[..j]);
    RunAt(q, run, j);
  }

  lemma FlagsStay<T>(q: Queue<T>, a: Action<T>)
    ensures (q.closed ==> Step(q, a).closed) && (q.done ==> Step(q, a).done)
  {
  }

  lemma {:induction false} FlagsAreMonotone<T>(q: Queue<T>, run: seq<Action<T>>, i: nat, j: nat)
    requires IsRun(q, run) && i <= j <= |run|
    ensures After(q, run[..i]).closed ==> After(q, run[..j]).closed
    ensures After(q, run[..i]).done ==> After(q, run[..j]).done
    decreases j
  {
    if i == j {
    } else {
      FlagsAreMonotone(q, run, i, j - 1);
      RunAt(q, run, j - 1);
      FlagsStay(After(q, run[..j - 1]), run[j - 1]);
    }
  }

  function Wins<T>(run: seq<Action<T>>): nat {
    if run == [] then 0
    else Wins(run[..|run| - 1]) + if run[|run| - 1].WinCas? then 1 else 0
  }

  /** However many Close calls race, one of them succeeds as soon as any of them has reached
      its compare-and-swap, and never a second one. */
  lemma {:induction false} ExactlyOneCloseSucceeds<T>(capacity: nat, run: seq<Action<T>>)
    requires IsRun(New(capacity), run)
    ensures Wins(run) == if After(New(capacity), run).closed then 1 else 0
    ensures (exists i :: 0 <= i < |run| && (run[i].WinCas? || run[i].LoseCas?)) ==> Wins(run) == 1
  {
    if run == [] {
    } else {
      var prev := run[..|run| - 1];
      ExactlyOneCloseSucceeds(capacity, prev);
      forall i | 0 <= i < |run| && (run[i].WinCas? || run[i].LoseCas?) ensures Wins(run) == 1 {
        if i < |run| - 1 {
          assert prev[i] == run[i];
        }
      }
    }
  }

  predicate Accepts<T>(a: Action<T>, t: nat) {
    a == Send(t) || (a.HandOff? && a.t == t)
  }

  lemma OnlyPassersWait<T>(q: Queue<T>, a: Action<T>)
    ensures forall u: nat {:trigger Step(q, a).At(u)} :: Step(q, a).At(u).PushWait? ==>
        if Enabled(q, a) && a == PassFastPath(u) then !q.closed
        else Step(q, a).At(u) == q.At(u)
  {
    OthersStay(q, a);
    match a
    case HandOff(t, r) =>
    case PassFastPath(t) =>
    case _ =>
  }

  /** The local state of a thread after the first n actions. */
  function LocalAt<T>(q: Queue<T>, run: seq<Action<T>>, n: nat, t: nat): Thread<T>
    requires n <= |run|
  {
    After(q, run[..n]).At(t)
  }

  lemma WaitingStep<T>(q: Queue<T>, run: seq<Action<T>>, n: nat, t: nat)
    requires IsRun(q, run) && 0 < n <= |run| && LocalAt(q, run, n, t).PushWait?
    ensures LocalAt(q, run, n - 1, t) == LocalAt(q, run, n, t)
        || (run[n - 1] == PassFastPath(t) && !After(q, run[..n - 1]).closed)
  {
    RunAt(q, run, n - 1);
    OnlyPassersWait(After(q, run[..n - 1]), run[n - 1]);
    assert Step(After(q, run[..n - 1]), run[n - 1]).At(t) == LocalAt(q, run, n, t);
  }

  /** A thread in Push's select got there by loading the closed flag as 0 and has not moved since. */
  lemma {:induction false} WaitingMeansPassed<T>(q: Queue<T>, run: seq<Action<T>>, n: nat, t: nat)
    returns (k: nat)
    requires IsRun(q, run) && n <= |run|
    requires !LocalAt(q, run, 0, t).PushWait? && LocalAt(q, run, n, t).PushWait?
    ensures k < n && run[k] == PassFastPath(t) && !After(q, run[..k]).closed
    ensures forall m | k < m <= n :: LocalAt(q, run, m, t) == LocalAt(q, run, n, t)
    decreases n
  {
    WaitingStep(q, run, n, t);
    if LocalAt(q, run, n - 1, t) == LocalAt(q, run, n, t) {
      k := WaitingMeansPassed(q, run, n - 1, t);
    } else {
      k := n - 1;
    }
  }

  /** An item that enters the channel after Close won its compare-and-swap belongs to a Push
      that had passed the fast path before that moment. */
  lemma LateAcceptPassedBeforeClose<T>(capacity: nat, run: seq<Action<T>>, i: nat, j: nat, t: nat)
    returns (k: nat)
    requires IsRun(New(capacity), run)
    requires i < j < |run| && run[i].WinCas? && Accepts(run[j], t)
    ensures k < i && run[k] == PassFastPath(t)
    ensures forall m | k < m <= j :: LocalAt(New(capacity), run, m, t) == LocalAt(New(capacity), run, j, t)
  {
    var q := New<T>(capacity);
    RunAt(q, run, j);
    assert run[..0] == [];
    k := WaitingMeansPassed(q, run, j, t);
    RunAt(q, run, i);
    if i < k {
      FlagsAreMonotone(q, run, i + 1, k);
    }
  }

  // ------------------------------------------------------------------------------------
  // When ErrQueueClosed means that everything has been read
  // ------------------------------------------------------------------------------------

  /** Some continuation leaves an item in the buffer, where no reader that stops at
      ErrQueueClosed will look for it. */
  ghost predicate CanStrand<T(!new)>(q: Queue<T>) {
    exists more: seq<Action<T>> :: IsRun(q, more) && After(q, more).buffer != []
  }

  /** Closed, drained, and nobody left who could still put something in. */
  ghost predicate Sealed<T>(q: Queue<T>) {
    && q.closed && q.buffer == []
    && (q.capacity == 0 || forall t: nat :: !q.At(t).PushWait?)
  }

  lemma StaysSealed<T>(q: Queue<T>, a: Action<T>)
    requires Sealed(q)
    ensures Sealed(Step(q, a)) && Step(q, a).capacity == q.capacity
  {
    OnlyPassersWait(q, a);
  }

  lemma {:induction false} NothingArrives<T>(q: Queue<T>, more: seq<Action<T>>)
    requires Sealed(q)
    ensures Sealed(After(q, more))
  {
    if more == [] {
    } else {
      NothingArrives(q, more[..|more| - 1]);
      StaysSealed(After(q, more[..|more| - 1]), more[|more| - 1]);
    }
  }

  /** Pop answers ErrQueueClosed in a state with `done` closed and an empty buffer. Whether that
      answer is final depends on exactly one thing: a buffered queue can still strand an item
      if and only if some Push is past the fast path at that moment. */
  lemma ClosedAnswerIsFinalIff<T(!new)>(q: Queue<T>, popper: nat)
    requires Invariant(q) && q.done && Enabled(q, DrainEmpty(popper))
    ensures CanStrand(Step(q, DrainEmpty(popper)))
        <==> q.capacity > 0 && exists t: nat :: q.At(t).PushWait?
  {
    var q' := Step(q, DrainEmpty(popper));
    OthersStay(q, DrainEmpty(popper));
    OnlyPassersWait(q, DrainEmpty(popper));
    if q.capacity > 0 && exists t: nat :: q.At(t).PushWait? {
      var t: nat :| q.At(t).PushWait?;
      var more := Extend(q', [], Send(t));
      assert After(q', more).buffer != [];
    } else {
      forall more: seq<Action<T>> | IsRun(q', more) ensures After(q', more).buffer == [] {
        NothingArrives(q', more);
      }
    }
  }

  /** A Push of `x` waits in its select and a Pop waits for an item. */
  lemma PushAndPopWaiting<T>(x: T) returns (run: seq<Action<T>>)
    ensures IsRun(New(1), run)
    ensures After(New(1), run) ==
        Queue(1, [], false, false, map[0 := PushWait(x), 1 := PopWait], {}, [], [])
  {
    run := Extend(New(1), [], BeginPush(0, x));
    run := Extend(New(1), run, PassFastPath(0));
    run := Extend(New(1), run, BeginPop(1));
  }

  /** A whole Close call, undisturbed. */
  lemma CloseBy<T>(q0: Queue<T>, run: seq<Action<T>>, t: nat) returns (longer: seq<Action<T>>)
    requires IsRun(q0, run) && After(q0, run).At(t).Idle? && !After(q0, run).closed
    ensures IsRun(q0, longer)
    ensures After(q0, longer) == After(q0, run).Move(t, Idle).(closed := true, done := true)
  {
    var q := After(q0, run);
    longer := Extend(q0, run, BeginClose(t));
    longer := Extend(q0, longer, WinCas(t));
    longer := Extend(q0, longer, Signal(t));
    assert q.threads[t := CloseEntry][t := CloseSignal][t := Idle] == q.threads[t := Idle];
  }

  lemma PushOvertakenByClose<T>(x: T) returns (run: seq<Action<T>>)
    ensures IsRun(New(1), run)
    ensures After(New(1), run) ==
        Queue(1, [], true, true, map[0 := PushWait(x), 1 := PopWait, 2 := Idle], {}, [], [])
  {
    run := PushAndPopWaiting(x);
    run := CloseBy(New(1), run, 2);
  }

  /** The race is real: this run ends with an accepted item that the reader, already told that
      the queue is closed, never receives. */
  lemma LatePushIsStranded<T>(x: T) returns (run: seq<Action<T>>, answered: nat)
    ensures IsRun(New(1), run)
    ensures answered < |run| && run[answered] == DrainEmpty(1)
    ensures After(New(1), run).buffer == [x] && After(New(1), run).dequeued == []
    ensures forall t: nat :: After(New(1), run).At(t).Idle?
  {
    var q0 := New<T>(1);
    run := PushOvertakenByClose(x);
    run := Extend(q0, run, SeeDone(1));
    answered := |run|;
    run := Extend(q0, run, DrainEmpty(1));
    run := Extend(q0, run, Send(0));
  }
}
