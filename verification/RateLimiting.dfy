/**
  The fixed-window rate limiter: one visitor entry per key, swept lazily. Sweeping is
  shown to be invisible, and the number of allowed calls in any interval as long as the
  window is bounded.
 */
module RateLimiting {

  /** Instants and durations in clock ticks; the zero instant marks an absent entry. */
  const ZERO_TIME: int := 0

  datatype Visitor = Visitor(count: int, expiresAt: int)

  /** The limiter's whole state. */
  datatype State = State(limit: int, window: int, visitors: map<string, Visitor>, lastSweep: int)

  datatype Call = Call(key: string, now: int)

  // --- One call ---------------------------------------------------------------------

  function Swept(s: State, now: int): State {
    if now - s.lastSweep > s.window
    then s.(visitors := map k | k in s.visitors && now <= s.visitors[k].expiresAt :: s.visitors[k], lastSweep := now)
    else s
  }

  /** The entry a call works with: the stored one, or a fresh window when it is absent or over. */
  function Current(s: State, key: string, now: int): Visitor {
    var stored := if key in s.visitors then s.visitors[key] else Visitor(0, ZERO_TIME);
    if stored.expiresAt == ZERO_TIME || now > stored.expiresAt then Visitor(0, now + s.window) else stored
  }

  /** Counting the call, without sweeping: the simple limiter. */
  function Counted(s: State, key: string, now: int): (State, bool) {
    var current := Current(s, key, now);
    if current.count >= s.limit then (s, false)
    else (s.(visitors := s.visitors[key := Visitor(current.count + 1, current.expiresAt)]), true)
  }

  /** The limiter as written: sweep, then count. */
  function Allowed(s: State, key: string, now: int): (State, bool) {
    Counted(Swept(s, now), key, now)
  }

  /** The source's limiter. Its mutex makes each call one step. */
  class RateLimiter {
    const limit: int
    const window: int
    var visitors: map<string, Visitor>
    var lastSweep: int

    ghost function Contents(): State
      reads this
    {
      State(limit, window, visitors, lastSweep)
    }

    constructor (limit: int, window: int, now: int)
      ensures Contents() == State(limit, window, map[], now)
    {
      this.limit, this.window := limit, window;
      this.visitors, this.lastSweep := map[], now;
    }

    method Allow(key: string, now: int) returns (allowed: bool)
      modifies this
      ensures (Contents(), allowed) == Allowed(old(Contents()), key, now)
    {
      if now - lastSweep > window {
        var unseen := visitors.Keys;
        ghost var before := visitors;
        while unseen != {}
          invariant unseen <= before.Keys
          invariant visitors == map k | k in before && (k in unseen || now <= before[k].expiresAt) :: before[k]
          invariant lastSweep == old(lastSweep)
          decreases |unseen|
        {
          var k :| k in unseen;
          if now > visitors[k].expiresAt {
            visitors := visitors - {k};
          }
          unseen := unseen - {k};
        }
        lastSweep := now;
      }
      assert Contents().visitors == Swept(old(Contents()), now).visitors;
      var current := if key in visitors then visitors[key] else Visitor(0, ZERO_TIME);
      if current.expiresAt == ZERO_TIME || now > current.expiresAt {
        current := Visitor(0, now + window);
      }
      if current.count >= limit {
        return false;
      }
      current := current.(count := current.count + 1);
      visitors := visitors[key := current];
      return true;
    }
  }

  // --- Runs ------------------------------------------------------------------------------

  /** Calls in the order they are made, at times after the zero instant that never go back. */
  ghost predicate Chronological(calls: seq<Call>) {
    && (forall i | 0 <= i < |calls| :: calls[i].now > ZERO_TIME)
    && (forall i, j | 0 <= i < j < |calls| :: calls[i].now <= calls[j].now)
  }

  function After(s: State, calls: seq<Call>): State {
    if |calls| == 0 then s
    else Allowed(After(s, calls[..|calls| - 1]), calls[|calls| - 1].key, calls[|calls| - 1].now).0
  }

  function Answers(s: State, calls: seq<Call>): (answers: seq<bool>)
    ensures |answers| == |calls|
  {
    if |calls| == 0 then []
    else
      var n := |calls| - 1;
      Answers(s, calls[..n]) + [Allowed(After(s, calls[..n]), calls[n].key, calls[n].now).1]
  }

  /** The same runs of the limiter that never deletes an entry. */
  function AfterUnswept(s: State, calls: seq<Call>): State {
    if |calls| == 0 then s
    else Counted(AfterUnswept(s, calls[..|calls| - 1]), calls[|calls| - 1].key, calls[|calls| - 1].now).0
  }

  function AnswersUnswept(s: State, calls: seq<Call>): (answers: seq<bool>)
    ensures |answers| == |calls|
  {
    if |calls| == 0 then []
    else
      var n := |calls| - 1;
      AnswersUnswept(s, calls[..n]) + [Counted(AfterUnswept(s, calls[..n]), calls[n].key, calls[n].now).1]
  }

  // --- Sweeping is invisible ----------------------------------------------------------------

  /** `swept` holds what `full` holds, except entries that were over before `now`. */
  ghost predicate Simulates(swept: State, full: State, now: int) {
    && swept.limit == full.limit && swept.window == full.window
    && (forall k | k in swept.visitors :: k in full.visitors && swept.visitors[k] == full.visitors[k])
    && (forall k | k in full.visitors && k !in swept.visitors :: full.visitors[k].expiresAt < now)
  }

  lemma SimulationStep(swept: State, full: State, then_: int, key: string, now: int)
    requires Simulates(swept, full, then_) && then_ <= now
    ensures Allowed(swept, key, now).1 == Counted(full, key, now).1
    ensures Simulates(Allowed(swept, key, now).0, Counted(full, key, now).0, now)
  {
    var cleaned := Swept(swept, now);
    assert Simulates(cleaned, full, now);
    assert Current(cleaned, key, now) == Current(full, key, now);
  }

  lemma {:induction false} RunsSimulate(s: State, calls: seq<Call>)
    requires Chronological(calls)
    ensures Answers(s, calls) == AnswersUnswept(s, calls)
    ensures Simulates(After(s, calls), AfterUnswept(s, calls), if |calls| == 0 then ZERO_TIME else calls[|calls| - 1].now)
  {
    if |calls| > 0 {
      var n := |calls| - 1;
      RunsSimulate(s, calls[..n]);
      SimulationStep(After(s, calls[..n]), AfterUnswept(s, calls[..n]), if n == 0 then ZERO_TIME else calls[n - 1].now,
                     calls[n].key, calls[n].now);
    }
  }

  /** From any state, on any run, the limiter answers as if it never swept. */
  lemma SweepingIsInvisible(s: State, calls: seq<Call>)
    requires Chronological(calls)
    ensures Answers(s, calls) == AnswersUnswept(s, calls)
  {
    RunsSimulate(s, calls);
  }

  // --- The bound ------------------------------------------------------------------------------

  /** How many of the key's calls between `from` and `to` (both included) were allowed. */
  function AllowedWithin(calls: seq<Call>, answers: seq<bool>, key: string, from: int, to: int): nat
    requires |answers| == |calls|
  {
    if |calls| == 0 then 0
    else
      var n := |calls| - 1;
      AllowedWithin(calls[..n], answers[..n], key, from, to)
      + if answers[n] && calls[n].key == key && from <= calls[n].now <= to then 1 else 0
  }

  /**
    What is known of the allowed count `c` after a run that ends at `now`, from the key's entry:
    a window opened before the interval keeps its opening call out of the count, and a window
    opened inside it follows at most one such window.
   */
  ghost predicate Accounted(s: State, key: string, from: int, now: int, c: int) {
    && 0 <= c
    && (now < from ==> c == 0)
    && (key !in s.visitors ==> c == 0)
    && (key in s.visitors ==>
          var v := s.visitors[key];
          var openedAt := v.expiresAt - s.window;
          && 1 <= v.count <= s.limit && ZERO_TIME < openedAt <= now
          && (openedAt < from ==> c <= v.count - 1)
          && (from <= openedAt <= from + s.window ==> c <= s.limit - 1 + v.count)
          && c <= 2 * s.limit - 1)
  }

  lemma AccountingStep(s: State, key: string, from: int, then_: int, c: int, call: Call)
    requires s.limit >= 1 && s.window >= 0 && ZERO_TIME <= then_ <= call.now && ZERO_TIME < call.now
    requires Accounted(s, key, from, then_, c)
    ensures var (next, allowed) := Counted(s, call.key, call.now);
      Accounted(next, key, from, call.now,
                c + if allowed && call.key == key && from <= call.now <= from + s.window then 1 else 0)
  {
  }

  lemma {:induction false} RunIsAccounted(s: State, calls: seq<Call>, key: string, from: int)
    requires s.limit >= 1 && s.window >= 0 && s.visitors == map[] && Chronological(calls)
    ensures var end := AfterUnswept(s, calls);
      && end.limit == s.limit && end.window == s.window
      && Accounted(end, key, from, if |calls| == 0 then ZERO_TIME else calls[|calls| - 1].now,
                   AllowedWithin(calls, AnswersUnswept(s, calls), key, from, from + s.window))
  {
    if |calls| > 0 {
      var n := |calls| - 1;
      RunIsAccounted(s, calls[..n], key, from);
      assert AnswersUnswept(s, calls)[..n] == AnswersUnswept(s, calls[..n]);
      AccountingStep(AfterUnswept(s, calls[..n]), key, from, if n == 0 then ZERO_TIME else calls[n - 1].now,
                     AllowedWithin(calls[..n], AnswersUnswept(s, calls[..n]), key, from, from + s.window), calls[n]);
    }
  }

  /**
    Over every run on any set of keys, a closed interval as long as the window holds at most
    2 * limit - 1 allowed calls of one key.
   */
  lemma AllowedCallsAreBounded(limit: int, window: int, started: int, calls: seq<Call>, key: string, from: int)
    requires limit >= 1 && window >= 0 && Chronological(calls)
    ensures AllowedWithin(calls, Answers(State(limit, window, map[], started), calls), key, from, from + window) <= 2 * limit - 1
  {
    var s := State(limit, window, map[], started);
    SweepingIsInvisible(s, calls);
    RunIsAccounted(s, calls, key, from);
  }

  /** A limit below one refuses every call. */
  lemma {:induction false} NothingAllowedBelowOne(s: State, calls: seq<Call>)
    requires s.limit < 1 && s.visitors == map[]
    ensures forall i | 0 <= i < |calls| :: !Answers(s, calls)[i]
    ensures After(s, calls).visitors == map[] && After(s, calls).limit == s.limit
  {
    if |calls| > 0 {
      NothingAllowedBelowOne(s, calls[..|calls| - 1]);
    }
  }

  // --- The bound is reached ---------------------------------------------------------------------

  function BurstTime(limit: int, window: int, i: int): int {
    if i == 0 then 1 else if i < limit then 1 + window else 2 + window
  }

  /** One early call, then limit - 1 at the end of its window, then limit at the start of the next. */
  function Burst(key: string, limit: int, window: int, n: nat): (calls: seq<Call>)
    ensures |calls| == n
    ensures forall i | 0 <= i < n :: calls[i] == Call(key, BurstTime(limit, window, i))
  {
    seq(n, i requires 0 <= i => Call(key, BurstTime(limit, window, i)))
  }

  function BurstState(key: string, limit: int, window: int, n: nat): State {
    State(limit, window,
          if n == 0 then map[]
          else if n <= limit then map[key := Visitor(n, 1 + window)]
          else map[key := Visitor(n - limit, 2 + window + window)], 0)
  }

  lemma BurstStep(key: string, limit: int, window: int, n: nat)
    requires limit >= 1 && window >= 1 && n < 2 * limit
    ensures Counted(BurstState(key, limit, window, n), key, BurstTime(limit, window, n))
         == (BurstState(key, limit, window, n + 1), true)
  {
    var s, now := BurstState(key, limit, window, n), BurstTime(limit, window, n);
    assert Current(s, key, now) == if n == 0 then Visitor(0, 1 + window)
                                   else if n < limit then Visitor(n, 1 + window)
                                   else Visitor(n - limit, 2 + window + window);
    var next := Visitor(Current(s, key, now).count + 1, Current(s, key, now).expiresAt);
    assert s.visitors[key := next] == map[key := next];
  }

  lemma LastAnswer(s: State, calls: seq<Call>)
    requires |calls| > 0
    ensures var n := |calls| - 1;
      AnswersUnswept(s, calls) == AnswersUnswept(s, calls[..n]) + [Counted(AfterUnswept(s, calls[..n]), calls[n].key, calls[n].now).1]
  {
    hide Counted;
  }

  lemma {:induction false} BurstIsAllowed(key: string, limit: int, window: int, n: nat)
    requires limit >= 1 && window >= 1 && n <= 2 * limit
    ensures var s, calls := State(limit, window, map[], 0), Burst(key, limit, window, n);
      && AfterUnswept(s, calls) == BurstState(key, limit, window, n)
      && AllowedWithin(calls, AnswersUnswept(s, calls), key, 2, 2 + window) == (if n == 0 then 0 else n - 1)
  {
    if n > 0 {
      var s, calls := State(limit, window, map[], 0), Burst(key, limit, window, n);
      BurstIsAllowed(key, limit, window, n - 1);
      BurstStep(key, limit, window, n - 1);
      hide Counted, BurstState;
      assert calls[..n - 1] == Burst(key, limit, window, n - 1);
      LastAnswer(s, calls);
    }
  }

  /** 2 * limit - 1 is the best possible bound, for every limit and window of at least one tick. */
  lemma BoundIsReached(key: string, limit: int, window: int) returns (calls: seq<Call>, from: int)
    requires limit >= 1 && window >= 1
    ensures Chronological(calls)
    ensures AllowedWithin(calls, Answers(State(limit, window, map[], 0), calls), key, from, from + window) == 2 * limit - 1
  {
    calls, from := Burst(key, limit, window, 2 * limit), 2;
    SweepingIsInvisible(State(limit, window, map[], 0), calls);
    BurstIsAllowed(key, limit, window, 2 * limit);
  }
}
