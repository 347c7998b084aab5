/** Small shared vocabulary: optional values and functions on sequences. */
module Common {

  datatype Option<+T> = None | Some(value: T) {
    function GetOr(default: T): T {
      if Some? then value else default
    }
  }

  function Last<T>(s: seq<T>): T
    requires s != []
  {
    s[|s| - 1]
  }

  function Init<T>(s: seq<T>): seq<T>
    requires s != []
  {
    s[..|s| - 1]
  }

  function Flatten<T>(ss: seq<seq<T>>): seq<T> {
    if ss == [] then [] else Flatten(Init(ss)) + Last(ss)
  }

  /** s with x behind it, if there is an x. */
  function Plus<T>(s: seq<T>, x: Option<T>): seq<T> {
    if x.Some? then s + [x.value] else s
  }

  /** The last positive value of a count over some events, or 0. */
  function LastPositive<E>(count: E -> int, events: seq<E>): int {
    if events == [] then 0
    else if count(Last(events)) > 0 then count(Last(events))
    else LastPositive(count, Init(events))
  }

  predicate IsLastPositive<E>(count: E -> int, events: seq<E>, i: nat) {
    i < |events| && count(events[i]) > 0 && forall j | i < j < |events| :: count(events[j]) <= 0
  }

  predicate NeverPositive<E>(count: E -> int, events: seq<E>) {
    forall i | 0 <= i < |events| :: count(events[i]) <= 0
  }

  lemma {:induction false} LastPositiveAt<E>(count: E -> int, events: seq<E>)
    ensures forall i: nat | IsLastPositive(count, events, i) :: LastPositive(count, events) == count(events[i])
    ensures NeverPositive(count, events) ==> LastPositive(count, events) == 0
  {
    if events == [] || count(Last(events)) > 0 {
    } else {
      var before := Init(events);
      LastPositiveAt(count, before);
      forall i: nat | IsLastPositive(count, events, i) ensures LastPositive(count, events) == count(events[i]) {
        assert IsLastPositive(count, before, i);
      }
      assert NeverPositive(count, events) ==> NeverPositive(count, before);
    }
  }

  /** `n` is the count of the last event with a positive one, or `initial` if there is none. */
  ghost predicate Leaves<E(!new)>(count: E -> int, events: seq<E>, initial: int, n: int) {
    && (forall i: nat | IsLastPositive(count, events, i) :: n == count(events[i]))
    && (NeverPositive(count, events) ==> n == initial)
  }

  lemma {:induction false} SameCounts<E(!new)>(a: E -> int, b: E -> int, events: seq<E>)
    requires forall e | e in events :: a(e) == b(e)
    ensures LastPositive(a, events) == LastPositive(b, events) >= 0
  {
    if events == [] {
    } else {
      assert Last(events) in events && forall e | e in Init(events) :: e in events;
      SameCounts(a, b, Init(events));
    }
  }

  /** What a running count that takes over positive values leaves, told by another form of the count. */
  lemma CountIs<E(!new)>(count: E -> int, reported: E -> int, events: seq<E>, initial: int)
    requires forall e | e in events :: count(e) == reported(e)
    ensures LastPositive(count, events) >= 0
    ensures var n := LastPositive(count, events); Leaves(reported, events, initial, if n > 0 then n else initial)
  {
    SameCounts(count, reported, events);
    LastPositiveAt(reported, events);
  }

  /** The last value given for a field by some events. */
  function LastGiven<E, T>(field: E -> Option<T>, events: seq<E>): Option<T> {
    if events == [] then None
    else if field(Last(events)).Some? then field(Last(events))
    else LastGiven(field, Init(events))
  }

  function LastNonEmpty<E>(field: E -> string, events: seq<E>): string {
    if events == [] then ""
    else if field(Last(events)) != "" then field(Last(events))
    else LastNonEmpty(field, Init(events))
  }

  /** Event i is the last one that gives the field. */
  predicate IsLastGiven<E>(field: E -> string, events: seq<E>, i: nat) {
    i < |events| && field(events[i]) != "" && forall j | i < j < |events| :: field(events[j]) == ""
  }

  predicate NeverGiven<E>(field: E -> string, events: seq<E>) {
    forall i | 0 <= i < |events| :: field(events[i]) == ""
  }

  lemma {:induction false} LastNonEmptyAt<E>(field: E -> string, events: seq<E>, i: nat)
    requires IsLastGiven(field, events, i)
    ensures LastNonEmpty(field, events) == field(events[i])
  {
    if i == |events| - 1 {
    } else {
      LastNonEmptyAt(field, Init(events), i);
    }
  }

  lemma {:induction false} LastNonEmptyOfNone<E>(field: E -> string, events: seq<E>)
    requires NeverGiven(field, events)
    ensures LastNonEmpty(field, events) == ""
  {
    if events == [] {
    } else {
      LastNonEmptyOfNone(field, Init(events));
    }
  }

  predicate IsLastSome<E, T>(field: E -> Option<T>, events: seq<E>, i: nat) {
    i < |events| && field(events[i]).Some? && forall j | i < j < |events| :: field(events[j]).None?
  }

  predicate NeverSome<E, T>(field: E -> Option<T>, events: seq<E>) {
    forall i | 0 <= i < |events| :: field(events[i]).None?
  }

  lemma {:induction false} LastGivenAt<E, T>(field: E -> Option<T>, events: seq<E>, i: nat)
    requires IsLastSome(field, events, i)
    ensures LastGiven(field, events) == field(events[i])
  {
    if i == |events| - 1 {
    } else {
      LastGivenAt(field, Init(events), i);
    }
  }

  lemma {:induction false} LastGivenOfNone<E, T>(field: E -> Option<T>, events: seq<E>)
    requires NeverSome(field, events)
    ensures LastGiven(field, events) == None
  {
    if events == [] {
    } else {
      LastGivenOfNone(field, Init(events));
    }
  }

  /** A callback accepted every one of these items, each when it had been given those before it. */
  predicate AllAccepted<T(!new)>(accepts: (seq<T>, T) -> bool, given: seq<T>) {
    forall i | 0 <= i < |given| :: accepts(given[..i], given[i])
  }

  lemma AllAcceptedNext<T(!new)>(accepts: (seq<T>, T) -> bool, given: seq<T>, item: T)
    requires AllAccepted(accepts, given)
    ensures AllAccepted(accepts, given + [item]) <==> accepts(given, item)
    ensures Init(given + [item]) == given
  {
    assert (given + [item])[..|given|] == given;
    forall i | 0 <= i < |given| ensures accepts((given + [item])[..i], (given + [item])[i]) {
      assert (given + [item])[..i] == given[..i];
    }
  }

  function Mapped<A, B>(f: A -> B, s: seq<A>): seq<B> {
    seq(|s|, i requires 0 <= i < |s| => f(s[i]))
  }

  lemma MappedLast<A, B>(f: A -> B, s: seq<A>)
    requires s != []
    ensures Mapped(f, s) == Mapped(f, Init(s)) + [f(Last(s))]
    ensures Init(Mapped(f, s)) == Mapped(f, Init(s)) && Last(Mapped(f, s)) == f(Last(s))
  {
  }

  lemma MappedNext<A, B>(f: A -> B, s: seq<A>, x: A)
    ensures Mapped(f, s + [x]) == Mapped(f, s) + [f(x)]
  {
  }

  lemma FlattenAppend<T>(ss: seq<seq<T>>, s: seq<T>)
    ensures Flatten(ss + [s]) == Flatten(ss) + s
  {
    assert Init(ss + [s]) == ss;
  }

  lemma InitAndLast<T>(xs: seq<T>)
    requires xs != []
    ensures Init(xs) + [Last(xs)] == xs
  {
  }

  lemma InitOfConcat<T>(a: seq<T>, b: seq<T>)
    requires b != []
    ensures a + b != [] && Init(a + b) == a + Init(b) && Last(a + b) == Last(b)
  {
  }

  lemma TakeNext<T>(s: seq<T>, i: nat)
    requires i < |s|
    ensures s[..i + 1] == s[..i] + [s[i]]
  {
  }

  lemma Reassociate<T>(a: seq<T>, b: seq<T>, c: seq<T>)
    ensures (a + b) + c == a + (b + c)
  {
  }
}
