/** The controller log's Info budget: a token bucket refilled to capacity at
    most once per second. Times are nanoseconds. */
module InfoBucket {

  const SECOND := 1_000_000_000

  datatype Bucket = Bucket(capacity: int, tokens: int, lastRefill: int) {
    predicate Valid() { 0 < capacity && 0 <= tokens <= capacity }

    /** The call refills first when a second has passed. */
    predicate Refills(now: int) { now - lastRefill >= SECOND }

    function Allow(now: int): (Bucket, bool) {
      var b := if Refills(now) then this.(tokens := capacity, lastRefill := now) else this;
      if b.tokens <= 0 then (b, false) else (b.(tokens := b.tokens - 1), true)
    }
  }

  function Full(capacity: int, now: int): Bucket { Bucket(capacity, capacity, now) }

  class ControllerInfoBucket {
    var capacity: int
    var tokens: int
    var lastRefill: int
    const disabled: bool

    function Value(): Bucket
      reads this
    {
      Bucket(capacity, tokens, lastRefill)
    }

    constructor (perSec: int, now: int)
      ensures disabled <==> perSec <= 0
      ensures !disabled ==> Value() == Full(perSec, now) && Value().Valid()
    {
      disabled := perSec <= 0;
      if perSec <= 0 {
        capacity, tokens, lastRefill := 0, 0, 0;
      } else {
        capacity, tokens, lastRefill := perSec, perSec, now;
      }
    }

    /** One call under the lock, at the clock value read before it was taken. */
    method Allow(now: int) returns (ok: bool)
      modifies this
      ensures disabled ==> ok && Value() == old(Value())
      ensures !disabled ==> (Value(), ok) == old(Value()).Allow(now)
      ensures !disabled && old(Value()).Valid() ==> Value().Valid()
    {
      if disabled { return true; }
      if now - lastRefill >= SECOND {
        tokens := capacity;
        lastRefill := now;
      }
      if tokens <= 0 { return false; }
      tokens := tokens - 1;
      return true;
    }
  }

  // ---- Runs ----------------------------------------------------------------

  function After(b: Bucket, calls: seq<int>): Bucket
    decreases calls
  {
    if calls == [] then b else After(b.Allow(calls[0]).0, calls[1..])
  }

  function Decisions(b: Bucket, calls: seq<int>): (ds: seq<bool>)
    ensures |ds| == |calls|
    decreases calls
  {
    if calls == [] then [] else [b.Allow(calls[0]).1] + Decisions(b.Allow(calls[0]).0, calls[1..])
  }

  /** How many of the calls dated in [from, from + 1s) are admitted. */
  function AdmittedIn(calls: seq<int>, ds: seq<bool>, from: int): nat
    requires |calls| == |ds|
  {
    if calls == [] then 0
    else (if ds[0] && from <= calls[0] < from + SECOND then 1 else 0) + AdmittedIn(calls[1..], ds[1..], from)
  }

  predicate NonDecreasing(calls: seq<int>) { forall i, j :: 0 <= i < j < |calls| ==> calls[i] <= calls[j] }

  /** Tokens stay between zero and capacity over every run, on any clock. */
  lemma {:induction false} TokensStayInRange(b: Bucket, calls: seq<int>)
    requires b.Valid()
    ensures After(b, calls).Valid() && After(b, calls).capacity == b.capacity
    decreases calls
  {
    if calls != [] { TokensStayInRange(b.Allow(calls[0]).0, calls[1..]); }
  }

  /** Until the next refill exactly the first `tokens` calls are admitted. */
  lemma {:induction false} EpochAdmitsFirstTokens(b: Bucket, calls: seq<int>)
    requires b.Valid() && forall i :: 0 <= i < |calls| ==> !b.Refills(calls[i])
    ensures forall i :: 0 <= i < |calls| ==> Decisions(b, calls)[i] == (i < b.tokens)
    ensures After(b, calls) == b.(tokens := if |calls| < b.tokens then b.tokens - |calls| else 0)
    decreases calls
  {
    if calls != [] {
      var next := b.Allow(calls[0]).0;
      EpochAdmitsFirstTokens(next, calls[1..]);
      assert Decisions(b, calls) == [b.Allow(calls[0]).1] + Decisions(next, calls[1..]);
    }
  }

  /** From one refill to the next exactly min(calls, capacity) calls are admitted. */
  lemma RefillAdmitsUpToCapacity(b: Bucket, refill: int, calls: seq<int>)
    requires b.Valid() && b.Refills(refill) && forall i :: 0 <= i < |calls| ==> calls[i] - refill < SECOND
    ensures forall i :: 0 <= i < |[refill] + calls| ==> Decisions(b, [refill] + calls)[i] == (i < b.capacity)
  {
    EpochAdmitsFirstTokens(b.Allow(refill).0, calls);
    assert ([refill] + calls)[1..] == calls;
  }

  // ---- The window bound ----------------------------------------------------

  /** No call reads a time before the bucket's last refill. */
  predicate NeverStale(b: Bucket, calls: seq<int>)
    decreases calls
  {
    calls == [] || (calls[0] >= b.lastRefill && NeverStale(b.Allow(calls[0]).0, calls[1..]))
  }

  /** No call reads a time before a refill that an earlier call of the run made. */
  predicate NoRefillOvertaken(b: Bucket, calls: seq<int>)
    decreases calls
  {
    calls == [] ||
    (if b.Refills(calls[0]) then NeverStale(b.Allow(calls[0]).0, calls[1..])
     else NoRefillOvertaken(b.Allow(calls[0]).0, calls[1..]))
  }

  /** It is enough that no reading precedes the last refill, whoever made it. */
  lemma {:induction false} NeverStaleOvertakesNone(b: Bucket, calls: seq<int>)
    requires NeverStale(b, calls)
    ensures NoRefillOvertaken(b, calls)
    decreases calls
  {
    if calls != [] && !b.Refills(calls[0]) { NeverStaleOvertakesNone(b.Allow(calls[0]).0, calls[1..]); }
  }

  lemma {:induction false} OrderedFromRefillNeverStale(b: Bucket, calls: seq<int>)
    requires NonDecreasing(calls) && (calls != [] ==> calls[0] >= b.lastRefill)
    ensures NeverStale(b, calls)
    decreases calls
  {
    if calls != [] { OrderedFromRefillNeverStale(b.Allow(calls[0]).0, calls[1..]); }
  }

  /** And it is enough that the readings come in order. */
  lemma {:induction false} OrderedOvertakesNone(b: Bucket, calls: seq<int>)
    requires NonDecreasing(calls)
    ensures NoRefillOvertaken(b, calls)
    decreases calls
  {
    if calls != [] {
      var next := b.Allow(calls[0]).0;
      if b.Refills(calls[0]) {
        OrderedFromRefillNeverStale(next, calls[1..]);
      } else {
        OrderedOvertakesNone(next, calls[1..]);
      }
    }
  }

  /** What the window from `from` on can still admit: the tokens in hand while
      the current second reaches into it, and one refill dated inside it. */
  function Budget(b: Bucket, from: int): int {
    if b.lastRefill >= from + SECOND then 0
    else if b.lastRefill >= from then b.tokens
    else if b.lastRefill > from - SECOND then b.tokens + b.capacity
    else 2 * b.capacity
  }

  lemma {:induction false} WindowWithinBudget(b: Bucket, calls: seq<int>, from: int)
    requires b.Valid() && NeverStale(b, calls)
    ensures AdmittedIn(calls, Decisions(b, calls), from) <= Budget(b, from)
    decreases calls
  {
    if calls != [] { WindowWithinBudget(b.Allow(calls[0]).0, calls[1..], from); }
  }

  lemma {:induction false} FirstSecondWithinBudget(b: Bucket, calls: seq<int>, from: int)
    requires b.Valid() && NoRefillOvertaken(b, calls)
    ensures AdmittedIn(calls, Decisions(b, calls), from)
         <= if b.lastRefill > from - SECOND then b.tokens + b.capacity else 2 * b.capacity
    decreases calls
  {
    if calls != [] {
      var next := b.Allow(calls[0]).0;
      if b.Refills(calls[0]) {
        WindowWithinBudget(next, calls[1..], from);
      } else {
        FirstSecondWithinBudget(next, calls[1..], from);
      }
    }
  }

  /** Any half-open one-second window admits at most twice the capacity, unless
      a call reads a time before a refill already made. */
  lemma WindowAdmitsAtMostTwice(b: Bucket, calls: seq<int>, from: int)
    requires b.Valid() && NoRefillOvertaken(b, calls)
    ensures AdmittedIn(calls, Decisions(b, calls), from) <= 2 * b.capacity
  {
    FirstSecondWithinBudget(b, calls, from);
  }

  /** With one token every refill is spent by the call that makes it, so on any
      clock a window admits the token in hand and at most one refill. */
  lemma {:induction false} SingleTokenBound(b: Bucket, calls: seq<int>, from: int)
    requires b.Valid() && b.capacity == 1
    ensures AdmittedIn(calls, Decisions(b, calls), from) <= b.tokens + (if b.lastRefill < from then 1 else 0)
    decreases calls
  {
    if calls != [] { SingleTokenBound(b.Allow(calls[0]).0, calls[1..], from); }
  }

  function Repeat(t: int, n: nat): (s: seq<int>)
    ensures |s| == n && forall i :: 0 <= i < n ==> s[i] == t
  {
    seq(n, _ => t)
  }

  lemma {:induction false} AllAdmitted(calls: seq<int>, ds: seq<bool>, from: int)
    requires |calls| == |ds|
    requires forall i :: 0 <= i < |calls| ==> ds[i] && from <= calls[i] < from + SECOND
    ensures AdmittedIn(calls, ds, from) == |calls|
  {
    if calls != [] { AllAdmitted(calls[1..], ds[1..], from); }
  }

  lemma {:induction false} DecisionsAppend(b: Bucket, first: seq<int>, second: seq<int>)
    ensures Decisions(b, first + second) == Decisions(b, first) + Decisions(After(b, first), second)
    decreases first
  {
    if first == [] {
      assert first + second == second;
    } else {
      assert (first + second)[1..] == first[1..] + second;
      DecisionsAppend(b.Allow(first[0]).0, first[1..], second);
    }
  }

  lemma {:induction false} AdmittedAppend(c: seq<int>, d: seq<int>, cs: seq<bool>, ds: seq<bool>, from: int)
    requires |c| == |cs| && |d| == |ds|
    ensures AdmittedIn(c + d, cs + ds, from) == AdmittedIn(c, cs, from) + AdmittedIn(d, ds, from)
  {
    if c == [] {
      assert c + d == d && cs + ds == ds;
    } else {
      assert (c + d)[1..] == c[1..] + d && (cs + ds)[1..] == cs[1..] + ds;
      AdmittedAppend(c[1..], d, cs[1..], ds, from);
    }
  }

  /** A burst that follows a refill it makes itself spends the whole capacity. */
  lemma RefillBurst(b: Bucket, t: int, from: int)
    requires b.Valid() && b.Refills(t) && from <= t < from + SECOND
    ensures AdmittedIn(Repeat(t, b.capacity), Decisions(b, Repeat(t, b.capacity)), from) == b.capacity
    ensures After(b, Repeat(t, b.capacity)) == Bucket(b.capacity, 0, t)
  {
    var rest := Repeat(t, b.capacity - 1);
    assert Repeat(t, b.capacity) == [t] + rest && ([t] + rest)[1..] == rest;
    RefillAdmitsUpToCapacity(b, t, rest);
    EpochAdmitsFirstTokens(b.Allow(t).0, rest);
    AllAdmitted(Repeat(t, b.capacity), Decisions(b, Repeat(t, b.capacity)), from);
  }

  lemma FullBurst(capacity: nat, t: int, from: int)
    requires capacity > 0 && t < SECOND && from <= t < from + SECOND
    ensures AdmittedIn(Repeat(t, capacity), Decisions(Full(capacity, 0), Repeat(t, capacity)), from) == capacity
    ensures After(Full(capacity, 0), Repeat(t, capacity)) == Bucket(capacity, 0, 0)
  {
    EpochAdmitsFirstTokens(Full(capacity, 0), Repeat(t, capacity));
    AllAdmitted(Repeat(t, capacity), Decisions(Full(capacity, 0), Repeat(t, capacity)), from);
  }

  /** The bound is tight: a burst on each side of one refill fills it exactly. */
  lemma TwiceIsAttained(capacity: nat) returns (calls: seq<int>)
    requires capacity > 0
    ensures NonDecreasing(calls)
    ensures AdmittedIn(calls, Decisions(Full(capacity, 0), calls), SECOND - 1) == 2 * capacity
  {
    var b := Full(capacity, 0);
    var before, after := Repeat(SECOND - 1, capacity), Repeat(SECOND, capacity);
    calls := before + after;
    FullBurst(capacity, SECOND - 1, SECOND - 1);
    RefillBurst(After(b, before), SECOND, SECOND - 1);
    DecisionsAppend(b, before, after);
    AdmittedAppend(before, after, Decisions(b, before), Decisions(After(b, before), after), SECOND - 1);
  }

  /** The clock is read before the lock is taken, so a delayed call can carry a
      reading from before a refill. Then every capacity above one can be exceeded:
      a burst, a refilled burst, the next refill and one delayed call. */
  lemma StaleReadingExceedsTwice(capacity: nat) returns (calls: seq<int>)
    requires capacity >= 2
    ensures AdmittedIn(calls, Decisions(Full(capacity, 0), calls), 1) == 2 * capacity + 1
  {
    var b := Full(capacity, 0);
    var first, second, last := Repeat(1, capacity), Repeat(SECOND, capacity), [2 * SECOND, 1];
    calls := first + (second + last);
    FullBurst(capacity, 1, 1);
    var spent := After(b, first);
    RefillBurst(spent, SECOND, 1);
    var empty := After(spent, second);
    DecisionsAppend(b, first, second + last);
    DecisionsAppend(spent, second, last);
    AdmittedAppend(first, second + last, Decisions(b, first), Decisions(spent, second + last), 1);
    AdmittedAppend(second, last, Decisions(spent, second), Decisions(empty, last), 1);
    DelayedCallAdmitted(capacity);
  }

  lemma DelayedCallAdmitted(capacity: nat)
    requires capacity >= 2
    ensures AdmittedIn([2 * SECOND, 1], Decisions(Bucket(capacity, 0, SECOND), [2 * SECOND, 1]), 1) == 1
  {
    var b := Bucket(capacity, 0, SECOND);
    var next := b.Allow(2 * SECOND).0;
    var rest := [1];
    assert [2 * SECOND, 1][1..] == rest && rest[1..] == [];
    assert Decisions(next, rest) == [true] && Decisions(b, [2 * SECOND, 1]) == [true, true];
    assert AdmittedIn(rest, [true], 1) == 1 && [true, true][1..] == [true];
  }

  ghost predicate BoundHolds(b: Bucket, calls: seq<int>, from: int) {
    AdmittedIn(calls, Decisions(b, calls), from) <= 2 * b.capacity
  }

  /** The bound holds on every clock exactly for a budget of one per second. */
  lemma BoundOnEveryClockExactly(capacity: nat)
    requires capacity > 0
    ensures (forall b: Bucket, calls: seq<int>, from: int ::
               b.Valid() && b.capacity == capacity ==> BoundHolds(b, calls, from))
       <==> capacity == 1
  {
    if capacity == 1 {
      forall b: Bucket, calls: seq<int>, from: int | b.Valid() && b.capacity == capacity
        ensures BoundHolds(b, calls, from)
      {
        SingleTokenBound(b, calls, from);
      }
    } else {
      var calls := StaleReadingExceedsTwice(capacity);
      assert !BoundHolds(Full(capacity, 0), calls, 1);
    }
  }
}
