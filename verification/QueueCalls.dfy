/** The queue's methods, step by step, among other goroutines. Every method takes only steps of the
    transition system in ChanQueue, in program order; `others` and the ticks say what the rest of the
    program does in between and which ready case a select takes. */
module QueueCalls {
  import opened Common
  import opened ChanQueue

  datatype Outcome = Nil | QueueClosed | Cancelled | CallbackFailed | Blocked

  /** One look of a select at its cases: first others act, then a case is taken if it is ready. */
  datatype Tick<T> = Tick(others: seq<Action<T>>, choice: Action<T>)

  predicate Receives<T>(a: Action<T>, t: nat) {
    a == Receive(t) || (a.HandOff? && a.receiver == t)
  }

  predicate PushCase<T>(a: Action<T>, t: nat) {
    a == SendCancelled(t) || a == SendClosed(t) || Accepts(a, t)
  }

  predicate PopCase<T>(a: Action<T>, t: nat) {
    a == PopCancelled(t) || a == SeeDone(t) || Receives(a, t)
  }

  /** The last look finds its case ready. */
  predicate ReadyAtLast<T>(q: Queue<T>, ticks: seq<Tick<T>>, isCase: Action<T> -> bool) {
    ticks != [] && isCase(Last(ticks).choice) && Enabled(q, Last(ticks).choice)
  }

  /** From the n-th step on, t neither puts an item into the queue nor takes one out. */
  predicate Still<T>(trace: seq<Action<T>>, n: nat, t: nat) {
    forall i | n <= i < |trace| :: !Accepts(trace[i], t) && !Receives(trace[i], t)
  }

  /** What the last step of a Push that began at step n says about its outcome; before it, nothing
      was transferred. */
  predicate PushEnds<T>(trace: seq<Action<T>>, n: nat, t: nat, r: Outcome) {
    && n < |trace| && Still(trace[..|trace| - 1], n, t)
    && var last := trace[|trace| - 1];
       match r
       case Nil => Accepts(last, t)
       case QueueClosed => last == FailFastPath(t) || last == SendClosed(t)
       case Cancelled => last == SendCancelled(t)
       case CallbackFailed => false
       case Blocked => Still(trace, n, t)
  }

  predicate PopEnds<T>(trace: seq<Action<T>>, n: nat, t: nat, r: Outcome) {
    && n < |trace| && Still(trace[..|trace| - 1], n, t)
    && var last := trace[|trace| - 1];
       match r
       case Nil => Receives(last, t)
       case QueueClosed => last == DrainEmpty(t)
       case Cancelled => last == PopCancelled(t)
       case CallbackFailed => false
       case Blocked => Still(trace, n, t)
  }

  lemma StillBefore<T>(trace: seq<Action<T>>, n: nat, t: nat)
    requires trace != [] && Still(trace, n, t)
    ensures Still(trace[..|trace| - 1], n, t)
  {
  }

  /** A step with which Pop returns leaves its goroutine idle. */
  lemma PopStepEnds<T>(q: Queue<T>, trace: seq<Action<T>>, t: nat)
    requires trace != [] && IsRun(q, trace)
    requires Last(trace) == DrainEmpty(t) || Last(trace) == PopCancelled(t)
    ensures After(q, trace).At(t).Idle?
  {
  }

  /** The items that t has taken out of the queue, in order. */
  function Taken<T>(q: Queue<T>, trace: seq<Action<T>>, t: nat): seq<T> {
    if trace == [] then []
    else
      var before, now := Taken(q, trace[..|trace| - 1], t), After(q, trace);
      if Receives(trace[|trace| - 1], t) && now.dequeued != []
      then before + [now.dequeued[|now.dequeued| - 1]] else before
  }

  lemma TakenNext<T>(q: Queue<T>, trace: seq<Action<T>>, a: Action<T>, t: nat)
    ensures var now := Step(After(q, trace), a);
      Taken(q, trace + [a], t) ==
        if Receives(a, t) && now.dequeued != [] then Taken(q, trace, t) + [now.dequeued[|now.dequeued| - 1]]
        else Taken(q, trace, t)
  {
    var longer := trace + [a];
    assert longer[..|longer| - 1] == trace && longer[|longer| - 1] == a;
    assert After(q, longer) == Step(After(q, trace), a);
  }

  class Channel<T(==, !new)> {
    ghost const capacity: nat
    ghost var trace: seq<Action<T>>
    var state: Queue<T>

    ghost predicate Valid()
      reads this
    {
      IsRun(New(capacity), trace) && state == After(New(capacity), trace)
    }

    constructor (bufferSize: nat)
      ensures Valid() && capacity == bufferSize && trace == []
    {
      capacity, trace, state := bufferSize, [], New(bufferSize);
    }

    /** What t has received so far. */
    ghost function Got(t: nat): seq<T>
      reads this
    {
      Taken(New(capacity), trace, t)
    }

    /** One atomic step. */
    method Act(a: Action<T>)
      requires Valid() && Enabled(state, a)
      modifies this
      ensures Valid() && state == Step(old(state), a)
      ensures trace == old(trace) + [a]
    {
      ghost var longer := Extend(New(capacity), trace, a);
      trace, state := longer, Step(state, a);
    }

    /** A step by which t transfers nothing. */
    method ActStill(a: Action<T>, t: nat, ghost n: nat)
      requires Valid() && Enabled(state, a) && !Accepts(a, t) && !Receives(a, t)
      requires n <= |trace| && Still(trace, n, t)
      modifies this
      ensures Valid() && state == Step(old(state), a)
      ensures trace == old(trace) + [a] && Still(trace, n, t)
      ensures Got(t) == old(Got(t))
    {
      TakenNext(New(capacity), trace, a, t);
      Act(a);
    }

    /** Other goroutines act; what they cannot do, or what is not theirs to do, is skipped. */
    method Others(t: nat, actions: seq<Action<T>>, ghost n: nat)
      requires Valid() && n <= |trace| && Still(trace, n, t)
      modifies this
      ensures Valid() && old(trace) <= trace && Still(trace, n, t)
      ensures state.At(t) == old(state.At(t)) && Got(t) == old(Got(t))
    {
      for i := 0 to |actions|
        invariant Valid() && old(trace) <= trace && Still(trace, n, t)
        invariant state.At(t) == old(state.At(t)) && Got(t) == old(Got(t))
      {
        if !Acts(actions[i], t) && Enabled(state, actions[i]) {
          OthersStay(state, actions[i]);
          assert Step(state, actions[i]).At(t) == state.At(t);
          ActStill(actions[i], t, n);
        }
      }
    }

    /** Takes a ready case of the select of Push. */
    method EndPush(t: nat, item: T, a: Action<T>, ghost n: nat) returns (r: Outcome)
      requires Valid() && n <= |trace| && Still(trace, n, t)
      requires state.At(t) == PushWait(item) && PushCase(a, t) && Enabled(state, a)
      modifies this
      ensures Valid() && old(trace) <= trace && PushEnds(trace, n, t, r) && r != Blocked
      ensures state.At(t) == Idle
      ensures r == Nil ==> state.accepted == old(state.accepted) + [item]
    {
      Act(a);
      assert trace[..|trace| - 1] == old(trace);
      r := if a == SendClosed(t) then QueueClosed else if a == SendCancelled(t) then Cancelled else Nil;
    }

    /** The select of Push. */
    method SelectPush(t: nat, item: T, ticks: seq<Tick<T>>, ghost n: nat) returns (r: Outcome)
      requires Valid() && n <= |trace| && Still(trace, n, t)
      requires state.At(t) == PushWait(item)
      modifies this
      ensures Valid() && old(trace) <= trace
      ensures if r == Blocked then Still(trace, n, t) else PushEnds(trace, n, t, r)
      ensures state.At(t) == if r == Blocked then PushWait(item) else Idle
      ensures r == Nil ==> state.accepted != [] && Last(state.accepted) == item
      ensures r == Blocked ==> !ReadyAtLast(state, ticks, a => PushCase(a, t))
    {
      for i := 0 to |ticks|
        invariant Valid() && old(trace) <= trace && Still(trace, n, t)
        invariant state.At(t) == PushWait(item)
        invariant !ReadyAtLast(state, ticks[..i], a => PushCase(a, t))
      {
        Others(t, ticks[i].others, n);
        if PushCase(ticks[i].choice, t) && Enabled(state, ticks[i].choice) {
          r := EndPush(t, item, ticks[i].choice, n);
          return;
        }
        TakeNext(ticks, i);
      }
      assert ticks[..|ticks|] == ticks;
      r := Blocked;
    }

    /** The fast path of a closed queue. */
    method RefusePush(t: nat, ghost n: nat) returns (r: Outcome)
      requires Valid() && n <= |trace| && Still(trace, n, t) && Enabled(state, FailFastPath(t))
      modifies this
      ensures Valid() && old(trace) <= trace && PushEnds(trace, n, t, r)
      ensures r == QueueClosed && state.At(t) == Idle
    {
      Act(FailFastPath(t));
      assert trace[..|trace| - 1] == old(trace);
      r := QueueClosed;
    }

    /** Push behind its fast path. */
    method PushOpen(t: nat, item: T, ticks: seq<Tick<T>>, ghost n: nat) returns (r: Outcome)
      requires Valid() && n <= |trace| && Still(trace, n, t)
      requires state.At(t) == PushEntry(item) && !state.closed
      modifies this
      ensures Valid() && old(trace) <= trace && PushEnds(trace, n, t, r)
      ensures state.At(t) == if r == Blocked then PushWait(item) else Idle
      ensures r == Nil ==> state.accepted != [] && Last(state.accepted) == item
      ensures r == Blocked ==> !ReadyAtLast(state, ticks, a => PushCase(a, t))
    {
      ActStill(PassFastPath(t), t, n);
      r := SelectPush(t, item, ticks, n);
      if r == Blocked {
        StillBefore(trace, n, t);
      }
    }

    /** Push returns nil exactly if this call put the item into the queue, which it does once, as its
        last step. It blocks only where its last look finds no case ready. */
    method Push(t: nat, item: T, others: seq<Action<T>>, ticks: seq<Tick<T>>) returns (r: Outcome)
      requires Valid() && state.At(t).Idle?
      modifies this
      ensures Valid() && old(trace) <= trace && PushEnds(trace, |old(trace)|, t, r)
      ensures state.At(t) == if r == Blocked then PushWait(item) else Idle
      ensures r == Nil ==> state.accepted != [] && Last(state.accepted) == item
      ensures r == Blocked ==> !ReadyAtLast(state, ticks, a => PushCase(a, t))
    {
      ghost var n := |trace|;
      ActStill(BeginPush(t, item), t, n);
      Others(t, others, n);
      if state.closed {
        r := RefusePush(t, n);
        return;
      }
      r := PushOpen(t, item, ticks, n);
    }

    /** A receive, from the buffer or from a waiting sender. */
    method EndPop(t: nat, a: Action<T>, ghost n: nat) returns (item: T)
      requires Valid() && n <= |trace| && Still(trace, n, t)
      requires Receives(a, t) && Enabled(state, a)
      modifies this
      ensures Valid() && old(trace) <= trace && PopEnds(trace, n, t, Nil)
      ensures state.At(t) == Idle && Got(t) == old(Got(t)) + [item]
    {
      TakenNext(New(capacity), trace, a, t);
      Act(a);
      assert trace[..|trace| - 1] == old(trace);
      item := state.dequeued[|state.dequeued| - 1];
    }

    /** A step that ends Pop without an item. */
    method FailPop(t: nat, a: Action<T>, ghost n: nat) returns (r: Outcome)
      requires Valid() && n <= |trace| && Still(trace, n, t)
      requires (a == PopCancelled(t) || a == DrainEmpty(t)) && Enabled(state, a)
      modifies this
      ensures Valid() && old(trace) <= trace && PopEnds(trace, n, t, r)
      ensures r == if a == DrainEmpty(t) then QueueClosed else Cancelled
      ensures trace == old(trace) + [a]
      ensures state.At(t) == Idle && Got(t) == old(Got(t)) && state.buffer == old(state.buffer)
    {
      TakenNext(New(capacity), trace, a, t);
      Act(a);
      assert trace[..|trace| - 1] == old(trace);
      r := if a == DrainEmpty(t) then QueueClosed else Cancelled;
    }

    /** The second select found the tick's sender ready to hand over. */
    ghost predicate Offered(run: seq<Action<T>>, t: nat, tick: Tick<T>)
      requires run != []
    {
      Receives(tick.choice, t) && Enabled(After(New(capacity), run[..|run| - 1]), tick.choice)
    }

    /** The second select of Pop, which does not block. */
    method Drain(t: nat, tick: Tick<T>, ghost n: nat) returns (item: Option<T>, r: Outcome)
      requires Valid() && n <= |trace| && Still(trace, n, t) && state.At(t).PopDrain?
      modifies this
      ensures Valid() && old(trace) <= trace && PopEnds(trace, n, t, r)
      ensures r == Nil || r == QueueClosed
      ensures (r == Nil <==> item.Some?) && (r == QueueClosed ==> state.buffer == [])
      ensures state.At(t) == Idle && Got(t) == old(Got(t)) + if item.Some? then [item.value] else []
      ensures r == QueueClosed ==> !Offered(trace, t, tick)
    {
      Others(t, tick.others, n);
      if state.buffer != [] {
        var x := EndPop(t, Receive(t), n);
        return Some(x), Nil;
      }
      if Receives(tick.choice, t) && Enabled(state, tick.choice) {
        var x := EndPop(t, tick.choice, n);
        return Some(x), Nil;
      }
      r := FailPop(t, DrainEmpty(t), n);
      item := None;
    }

    /** Takes a ready case of the first select of Pop, and then, behind `done`, the second select. */
    method TakePopCase(t: nat, a: Action<T>, last: Tick<T>, ghost n: nat) returns (item: Option<T>, r: Outcome)
      requires Valid() && n <= |trace| && Still(trace, n, t)
      requires state.At(t).PopWait? && PopCase(a, t) && Enabled(state, a)
      modifies this
      ensures Valid() && old(trace) <= trace && PopEnds(trace, n, t, r) && r != Blocked
      ensures (r == Nil <==> item.Some?) && (r == QueueClosed ==> state.buffer == [])
      ensures state.At(t) == Idle && Got(t) == old(Got(t)) + if item.Some? then [item.value] else []
      ensures r == QueueClosed ==> !Offered(trace, t, last)
    {
      if a == PopCancelled(t) {
        r := FailPop(t, a, n);
        return None, r;
      }
      if a == SeeDone(t) {
        ActStill(a, t, n);
        item, r := Drain(t, last, n);
        return;
      }
      var x := EndPop(t, a, n);
      item, r := Some(x), Nil;
    }

    /** Pop hands out exactly the item that this call took out of the queue; it answers
        ErrQueueClosed only at its second select, over an empty buffer and with no sender offered. It
        blocks only where its last look finds no case ready. */
    method Pop(t: nat, ticks: seq<Tick<T>>, last: Tick<T>) returns (item: Option<T>, r: Outcome)
      requires Valid() && state.At(t).Idle?
      modifies this
      ensures Valid() && old(trace) <= trace && PopEnds(trace, |old(trace)|, t, r)
      ensures (r == Nil <==> item.Some?) && (r == QueueClosed ==> state.buffer == [])
      ensures Got(t) == old(Got(t)) + if item.Some? then [item.value] else []
      ensures if r == Blocked then state.At(t).PopWait? else state.At(t).Idle?
      ensures r == Blocked ==> !ReadyAtLast(state, ticks, a => PopCase(a, t))
      ensures r == QueueClosed ==> !Offered(trace, t, last)
    {
      ghost var n := |trace|;
      ActStill(BeginPop(t), t, n);
      for i := 0 to |ticks|
        invariant Valid() && old(trace) < trace && Still(trace, n, t)
        invariant state.At(t).PopWait? && Got(t) == old(Got(t))
        invariant !ReadyAtLast(state, ticks[..i], a => PopCase(a, t))
      {
        Others(t, ticks[i].others, n);
        if PopCase(ticks[i].choice, t) && Enabled(state, ticks[i].choice) {
          item, r := TakePopCase(t, ticks[i].choice, last, n);
          return;
        }
        TakeNext(ticks, i);
      }
      assert ticks[..|ticks|] == ticks;
      StillBefore(trace, n, t);
      item, r := None, Blocked;
    }

    /** One round of Each: an item for the callback, or the end. */
    method Feed(t: nat, fn: (seq<T>, T) -> bool, before: seq<T>, ticks: seq<Tick<T>>, last: Tick<T>)
      returns (item: Option<T>, r: Outcome)
      requires Valid() && state.At(t).Idle?
      modifies this
      ensures Valid() && old(trace) < trace
      ensures Got(t) == old(Got(t)) + if item.Some? then [item.value] else []
      ensures item.Some? <==> r == Nil || r == CallbackFailed
      ensures item.Some? ==> (r == Nil <==> fn(before, item.value))
      ensures r == QueueClosed ==> state.buffer == []
      ensures r == QueueClosed <==> Last(trace) == DrainEmpty(t)
      ensures r == Cancelled <==> Last(trace) == PopCancelled(t)
      ensures if r == Blocked then state.At(t).PopWait? else state.At(t).Idle?
    {
      item, r := Pop(t, ticks, last);
      if Last(trace) == DrainEmpty(t) || Last(trace) == PopCancelled(t) {
        PopStepEnds(New(capacity), trace, t);
      }
      if item.Some? {
        var ok := fn(before, item.value);
        r := if ok then Nil else CallbackFailed;
      }
    }

    /** Each gives its callback exactly what this goroutine takes out of the queue while it runs, in
        order. It returns nil exactly at the drained end of a closed queue; a failing callback and a
        cancelled context end it with an error; otherwise it still waits in Pop, or the script of its
        rounds is used up. */
    method Each(t: nat, fn: (seq<T>, T) -> bool, script: seq<(seq<Tick<T>>, Tick<T>)>)
      returns (given: seq<T>, r: Outcome)
      requires Valid() && state.At(t).Idle?
      modifies this
      ensures Valid() && old(trace) <= trace && Got(t) == old(Got(t)) + given
      ensures if r == CallbackFailed
        then given != [] && AllAccepted(fn, Common.Init(given)) && !fn(Common.Init(given), Last(given))
        else AllAccepted(fn, given)
      ensures r == Nil <==> |old(trace)| < |trace| && Last(trace) == DrainEmpty(t)
      ensures r == Nil ==> state.buffer == []
      ensures r == Cancelled <==> |old(trace)| < |trace| && Last(trace) == PopCancelled(t)
      ensures r == Blocked <==> state.At(t).PopWait? || (|given| == |script| && AllAccepted(fn, given))
      ensures r != QueueClosed
    {
      given := [];
      for i := 0 to |script|
        invariant Valid() && old(trace) <= trace && state.At(t).Idle?
        invariant Got(t) == old(Got(t)) + given && AllAccepted(fn, given) && |given| == i
        invariant |old(trace)| < |trace| ==> Last(trace) != DrainEmpty(t) && Last(trace) != PopCancelled(t)
      {
        var item, err := Feed(t, fn, given, script[i].0, script[i].1);
        if item.None? {
          r := if err == QueueClosed then Nil else err;
          return;
        }
        AllAcceptedNext(fn, given, item.value);
        given := given + [item.value];
        if err == CallbackFailed {
          return given, CallbackFailed;
        }
      }
      r := Blocked;
    }

    /** The winner of the compare-and-swap closes `done`. */
    method CloseWon(t: nat, others: seq<Action<T>>, ghost n: nat)
      requires Valid() && n <= |trace| && Still(trace, n, t) && Enabled(state, WinCas(t))
      modifies this
      ensures Valid() && old(trace) < trace && Still(trace, n, t)
      ensures state.At(t) == Idle && Last(trace) == Signal(t) && state.done
    {
      ActStill(WinCas(t), t, n);
      Others(t, others, n);
      ActStill(Signal(t), t, n);
    }

    /** Close returns nil exactly if it won the compare-and-swap, and then `done` is closed. */
    method Close(t: nat, others: seq<Action<T>>, others': seq<Action<T>>) returns (r: Outcome)
      requires Valid() && state.At(t).Idle?
      modifies this
      ensures Valid() && old(trace) < trace && Still(trace, |old(trace)|, t)
      ensures state.At(t) == Idle
      ensures if r == Nil then Last(trace) == Signal(t) && state.done
        else r == QueueClosed && Last(trace) == LoseCas(t) && state.closed
    {
      ghost var n := |trace|;
      ActStill(BeginClose(t), t, n);
      Others(t, others, n);
      if !state.closed {
        CloseWon(t, others', n);
        return Nil;
      }
      ActStill(LoseCas(t), t, n);
      r := QueueClosed;
    }
  }

  /** So whatever calls are made, in whatever interleaving, the queue keeps what every run keeps. */
  lemma CallsAreSafe<T(!new)>(c: Channel<T>)
    requires c.Valid()
    ensures Invariant(c.state) && c.state.capacity == c.capacity
  {
    EveryRunIsSafe(c.capacity, c.trace);
  }
}
