/**
  The rate limiter's decision from the list of calls alone: a key's window opens at its first call
  after the window before has ended, and the first `limit` calls of a window are allowed.
 */
module Windows {
  import opened RateLimiting

  /** The latest call of `key` among the first `n`, if there is one. */
  function Latest(calls: seq<Call>, key: string, n: nat): (p: int)
    requires n <= |calls|
    ensures -1 <= p < n
    ensures p >= 0 ==> calls[p].key == key
    ensures forall j | p < j < n :: calls[j].key != key
  {
    if n == 0 then -1 else if calls[n - 1].key == key then n - 1 else Latest(calls, key, n - 1)
  }

  /** The call that opened the window call `i` falls into: itself, when the window before has ended. */
  function Opening(calls: seq<Call>, window: int, i: nat): (o: nat)
    requires i < |calls|
    ensures o <= i && calls[o].key == calls[i].key
  {
    var p := Latest(calls, calls[i].key, i);
    if p == -1 then i
    else
      var o := Opening(calls, window, p);
      if calls[i].now > calls[o].now + window then i else o
  }

  /** How many of the calls from `from` on and before `to` are of `key`, allowed or not. */
  function CallsOf(calls: seq<Call>, key: string, from: nat, to: nat): nat
    requires to <= |calls|
  {
    if to <= from then 0
    else CallsOf(calls, key, from, to - 1) + if calls[to - 1].key == key then 1 else 0
  }

  // --- The limiter keeps just that --------------------------------------------------------

  /** What the unswept limiter stores for a key after the first `n` calls. */
  predicate Stores(s: State, calls: seq<Call>, key: string, n: nat)
    requires n <= |calls|
  {
    var p := Latest(calls, key, n);
    if p == -1 then key !in s.visitors
    else
      var o := Opening(calls, s.window, p);
      var c := CallsOf(calls, key, o, n);
      key in s.visitors && s.visitors[key] == Visitor(if c < s.limit then c else s.limit, calls[o].now + s.window)
  }

  lemma {:induction false} LatestIsLocal(calls: seq<Call>, more: seq<Call>, key: string, n: nat)
    requires n <= |calls| && calls <= more
    ensures Latest(more, key, n) == Latest(calls, key, n)
  {
    if n > 0 {
      LatestIsLocal(calls, more, key, n - 1);
    }
  }

  lemma {:induction false} OpeningIsLocal(calls: seq<Call>, more: seq<Call>, window: int, i: nat)
    requires i < |calls| && calls <= more
    ensures Opening(more, window, i) == Opening(calls, window, i)
  {
    LatestIsLocal(calls, more, calls[i].key, i);
    var p := Latest(calls, calls[i].key, i);
    if p != -1 {
      OpeningIsLocal(calls, more, window, p);
    }
  }

  lemma {:induction false} CallsOfIsLocal(calls: seq<Call>, more: seq<Call>, key: string, from: nat, to: nat)
    requires to <= |calls| && calls <= more
    ensures CallsOf(more, key, from, to) == CallsOf(calls, key, from, to)
  {
    if to > from {
      CallsOfIsLocal(calls, more, key, from, to - 1);
    }
  }

  lemma {:induction false} NoneSince(calls: seq<Call>, key: string, from: nat, to: nat)
    requires to <= |calls| && forall j | from <= j < to :: calls[j].key != key
    ensures CallsOf(calls, key, from, to) == 0
  {
    if to > from {
      NoneSince(calls, key, from, to - 1);
    }
  }

  lemma {:induction false} CountedSince(calls: seq<Call>, key: string, from: nat, via: nat, to: nat)
    requires from <= via <= to <= |calls|
    ensures CallsOf(calls, key, from, to) == CallsOf(calls, key, from, via) + CallsOf(calls, key, via, to)
  {
    if to > via {
      CountedSince(calls, key, from, via, to - 1);
    }
  }

  predicate Admitted(calls: seq<Call>, limit: int, window: int, i: nat)
    requires i < |calls|
  {
    CallsOf(calls, calls[i].key, Opening(calls, window, i), i) < limit
  }

  /** One more call, with what its key has stored. */
  lemma StoredCall(s: State, calls: seq<Call>, n: nat)
    requires n < |calls| && s.limit >= 1 && Stores(s, calls, calls[n].key, n)
    requires forall i | 0 <= i < |calls| :: calls[i].now > ZERO_TIME
    ensures var (next, allowed) := Counted(s, calls[n].key, calls[n].now);
      && next.limit == s.limit && next.window == s.window
      && Stores(next, calls, calls[n].key, n + 1)
      && (allowed <==> Admitted(calls, s.limit, s.window, n))
      && forall k | k != calls[n].key :: (k in next.visitors <==> k in s.visitors) && (k in s.visitors ==> next.visitors[k] == s.visitors[k])
  {
    var key, now := calls[n].key, calls[n].now;
    var p := Latest(calls, key, n);
    assert Latest(calls, key, n + 1) == n;
    if p != -1 {
      var o := Opening(calls, s.window, p);
      CountedSince(calls, key, o, n, n + 1);
      assert CallsOf(calls, key, n, n + 1) == 1;
      CountedSince(calls, key, o, p, n);
      assert CallsOf(calls, key, p, p + 1) == 1;
      CountedSince(calls, key, p, p + 1, n);
      assert CallsOf(calls, key, o, n) >= 1;
    } else {
      assert CallsOf(calls, key, n, n + 1) == 1;
    }
  }

  lemma OtherKeys(s: State, next: State, calls: seq<Call>, key: string, n: nat)
    requires n < |calls| && key != calls[n].key && Stores(s, calls, key, n)
    requires next.limit == s.limit && next.window == s.window
    requires (key in next.visitors <==> key in s.visitors) && (key in s.visitors ==> next.visitors[key] == s.visitors[key])
    ensures Stores(next, calls, key, n + 1)
  {
    assert Latest(calls, key, n + 1) == Latest(calls, key, n);
    var p := Latest(calls, key, n);
    if p != -1 {
      var o := Opening(calls, s.window, p);
      CountedSince(calls, key, o, n, n + 1);
    }
  }

  lemma StoresLocally(s: State, calls: seq<Call>, more: seq<Call>, key: string, n: nat)
    requires n <= |calls| && calls <= more
    ensures Stores(s, more, key, n) == Stores(s, calls, key, n)
  {
    LatestIsLocal(calls, more, key, n);
    var p := Latest(calls, key, n);
    if p != -1 {
      OpeningIsLocal(calls, more, s.window, p);
      CallsOfIsLocal(calls, more, key, Opening(calls, s.window, p), n);
    }
  }

  lemma {:induction false} RunStores(s: State, calls: seq<Call>)
    requires s.limit >= 1 && s.visitors == map[] && Chronological(calls)
    ensures AfterUnswept(s, calls).limit == s.limit && AfterUnswept(s, calls).window == s.window
    ensures forall key :: Stores(AfterUnswept(s, calls), calls, key, |calls|)
  {
    var n := |calls| - 1;
    if |calls| == 0 {
      assert forall key :: Latest(calls, key, 0) == -1;
    } else {
      var before := AfterUnswept(s, calls[..n]);
      var after := AfterUnswept(s, calls);
      RunStores(s, calls[..n]);
      StoresLocally(before, calls[..n], calls, calls[n].key, n);
      StoredCall(before, calls, n);
      hide Stores, Counted;
      forall key ensures Stores(after, calls, key, |calls|) {
        StoresLocally(before, calls[..n], calls, key, n);
        if key != calls[n].key {
          OtherKeys(before, after, calls, key, n);
        }
      }
    }
  }

  lemma AdmittedLocally(calls: seq<Call>, more: seq<Call>, limit: int, window: int, i: nat)
    requires i < |calls| && calls <= more
    ensures Admitted(more, limit, window, i) == Admitted(calls, limit, window, i)
  {
    OpeningIsLocal(calls, more, window, i);
    CallsOfIsLocal(calls, more, calls[i].key, Opening(calls, window, i), i);
  }

  lemma {:induction false} UnsweptDecisions(s: State, calls: seq<Call>)
    requires s.limit >= 1 && s.visitors == map[] && Chronological(calls)
    ensures forall i | 0 <= i < |calls| :: AnswersUnswept(s, calls)[i] <==> Admitted(calls, s.limit, s.window, i)
  {
    hide Stores, Counted, Admitted;
    if |calls| > 0 {
      var n := |calls| - 1;
      UnsweptDecisions(s, calls[..n]);
      RunStores(s, calls[..n]);
      LastAnswer(s, calls);
      StoresLocally(AfterUnswept(s, calls[..n]), calls[..n], calls, calls[n].key, n);
      StoredCall(AfterUnswept(s, calls[..n]), calls, n);
      hide AnswersUnswept, AfterUnswept;
      forall i | 0 <= i < n ensures AnswersUnswept(s, calls)[i] <==> Admitted(calls, s.limit, s.window, i) {
        AdmittedLocally(calls[..n], calls, s.limit, s.window, i);
      }
    }
  }

  /**
    The exact decision, for every sequence of calls on any keys at times that never go back: a call is allowed
    if and only if fewer than `limit` calls of its key, allowed or not, came before it in its window.
   */
  lemma DecidedByTheCalls(limit: int, window: int, started: int, calls: seq<Call>, i: nat)
    requires limit >= 1 && Chronological(calls) && i < |calls|
    ensures Answers(State(limit, window, map[], started), calls)[i] <==>
      CallsOf(calls, calls[i].key, Opening(calls, window, i), i) < limit
  {
    var s := State(limit, window, map[], started);
    SweepingIsInvisible(s, calls);
    UnsweptDecisions(s, calls);
  }

  // --- Refusals -----------------------------------------------------------------------------

  lemma {:induction false} OpeningIsRecent(calls: seq<Call>, window: int, i: nat)
    requires i < |calls| && Chronological(calls) && window >= 0
    ensures calls[i].now <= calls[Opening(calls, window, i)].now + window
  {
  }

  lemma {:induction false} SameOpening(calls: seq<Call>, window: int, i: nat, j: nat)
    requires i < |calls| && Chronological(calls) && Opening(calls, window, i) <= j <= i && calls[j].key == calls[i].key
    ensures Opening(calls, window, j) == Opening(calls, window, i)
  {
    if j < i {
      var p := Latest(calls, calls[i].key, i);
      assert j <= p;
      SameOpening(calls, window, p, j);
    }
  }

  /** The calls of a window up to its limit are the allowed ones. */
  lemma {:induction false} AllowedInWindow(calls: seq<Call>, answers: seq<bool>, limit: int, window: int, i: nat, n: nat)
    requires limit >= 1 && window >= 0 && Chronological(calls) && i < |calls| && |answers| == |calls|
    requires forall j | 0 <= j < |calls| :: answers[j] <==> Admitted(calls, limit, window, j)
    requires Opening(calls, window, i) <= n <= i
    ensures var c := CallsOf(calls, calls[i].key, Opening(calls, window, i), n);
      AllowedWithin(calls[..n], answers[..n], calls[i].key, calls[i].now - window, calls[i].now) >= if c < limit then c else limit
  {
    hide Latest, Opening, AllowedWithin, Chronological;
    var o, key := Opening(calls, window, i), calls[i].key;
    if n > o {
      AllowedInWindow(calls, answers, limit, window, i, n - 1);
      OneMoreAllowed(calls, answers, key, calls[i].now - window, calls[i].now, n);
      if calls[n - 1].key == key {
        SameOpening(calls, window, i, n - 1);
        WithinTheWindow(calls, window, i, n - 1);
      }
    }
  }

  lemma OneMoreAllowed(calls: seq<Call>, answers: seq<bool>, key: string, from: int, to: int, n: nat)
    requires |answers| == |calls| && 0 < n <= |calls|
    ensures AllowedWithin(calls[..n], answers[..n], key, from, to) == AllowedWithin(calls[..n - 1], answers[..n - 1], key, from, to)
      + if answers[n - 1] && calls[n - 1].key == key && from <= calls[n - 1].now <= to then 1 else 0
  {
    assert calls[..n][..n - 1] == calls[..n - 1] && answers[..n][..n - 1] == answers[..n - 1];
  }

  lemma WithinTheWindow(calls: seq<Call>, window: int, i: nat, j: nat)
    requires i < |calls| && Chronological(calls) && window >= 0 && Opening(calls, window, i) <= j <= i
    ensures calls[i].now - window <= calls[j].now <= calls[i].now
  {
    OpeningIsRecent(calls, window, i);
  }

  lemma {:induction false} AllowedIsMonotone(calls: seq<Call>, answers: seq<bool>, key: string, from: int, to: int, n: nat)
    requires |answers| == |calls| && n <= |calls|
    ensures AllowedWithin(calls[..n], answers[..n], key, from, to) <= AllowedWithin(calls, answers, key, from, to)
    decreases |calls|
  {
    if n < |calls| {
      var m := |calls| - 1;
      assert calls[..m][..n] == calls[..n] && answers[..m][..n] == answers[..n];
      AllowedIsMonotone(calls[..m], answers[..m], key, from, to, n);
    } else {
      assert calls[..n] == calls && answers[..n] == answers;
    }
  }

  /** A call is refused only when `limit` calls of its own key were allowed within one window up to it. */
  lemma RefusedOnlyWhenFull(limit: int, window: int, started: int, calls: seq<Call>, i: nat)
    requires limit >= 1 && window >= 0 && Chronological(calls) && i < |calls|
    requires !Answers(State(limit, window, map[], started), calls)[i]
    ensures var answers := Answers(State(limit, window, map[], started), calls);
      AllowedWithin(calls[..i], answers[..i], calls[i].key, calls[i].now - window, calls[i].now) >= limit
  {
    var answers := Answers(State(limit, window, map[], started), calls);
    forall j | 0 <= j < |calls| ensures answers[j] <==> Admitted(calls, limit, window, j) {
      DecidedByTheCalls(limit, window, started, calls, j);
    }
    AllowedInWindow(calls, answers, limit, window, i, i);
  }

  lemma LastCall(s: State, calls: seq<Call>, last: Call)
    ensures AfterUnswept(s, calls + [last]) == Counted(AfterUnswept(s, calls), last.key, last.now).0
    ensures AnswersUnswept(s, calls + [last]) == AnswersUnswept(s, calls) + [Counted(AfterUnswept(s, calls), last.key, last.now).1]
  {
    hide Counted;
    assert (calls + [last])[..|calls|] == calls;
  }

  lemma JoinOneMore(s: State, a: seq<Call>, b: seq<Call>, last: Call)
    requires AfterUnswept(s, a + b) == AfterUnswept(AfterUnswept(s, a), b)
    requires AnswersUnswept(s, a + b) == AnswersUnswept(s, a) + AnswersUnswept(AfterUnswept(s, a), b)
    ensures AfterUnswept(s, a + (b + [last])) == AfterUnswept(AfterUnswept(s, a), b + [last])
    ensures AnswersUnswept(s, a + (b + [last])) == AnswersUnswept(s, a) + AnswersUnswept(AfterUnswept(s, a), b + [last])
  {
    hide Counted, AfterUnswept, AnswersUnswept;
    LastCall(s, a + b, last);
    LastCall(AfterUnswept(s, a), b, last);
    assert a + b + [last] == a + (b + [last]);
  }

  lemma {:induction false} RunsJoin(s: State, a: seq<Call>, b: seq<Call>)
    ensures AfterUnswept(s, a + b) == AfterUnswept(AfterUnswept(s, a), b)
    ensures AnswersUnswept(s, a + b) == AnswersUnswept(s, a) + AnswersUnswept(AfterUnswept(s, a), b)
  {
    if |b| == 0 {
      assert a + b == a;
    } else {
      hide AfterUnswept, AnswersUnswept;
      RunsJoin(s, a, b[..|b| - 1]);
      JoinOneMore(s, a, b[..|b| - 1], b[|b| - 1]);
      assert b[..|b| - 1] + [b[|b| - 1]] == b;
    }
  }

  lemma ChronologicalWithout(before: seq<Call>, call: Call, later: seq<Call>)
    requires Chronological(before + [call] + later)
    ensures Chronological(before) && Chronological(before + later)
  {
    var all, rest, n := before + [call] + later, before + later, |before|;
    forall k | 0 <= k < |rest| ensures rest[k] == all[if k < n then k else k + 1] {
      if k >= n {
        assert all[k + 1] == later[k - n];
      }
    }
    forall k | 0 <= k < n ensures before[k] == all[k] {
    }
    forall i, j | 0 <= i < j < |rest| ensures rest[i].now <= rest[j].now {
      var x, y := if i < n then i else i + 1, if j < n then j else j + 1;
      assert rest[i] == all[x] && rest[j] == all[y] && x < y;
    }
  }

  /** A refused call leaves no trace: without it, every other call gets the same answer. */
  lemma RefusalsLeaveNoTrace(s: State, before: seq<Call>, call: Call, later: seq<Call>)
    requires Chronological(before + [call] + later) && !Answers(s, before + [call] + later)[|before|]
    ensures Answers(s, before + later) == Answers(s, before) + Answers(s, before + [call] + later)[|before| + 1..]
  {
    hide AnswersUnswept, AfterUnswept, Answers, Counted;
    var all := before + [call] + later;
    ChronologicalWithout(before, call, later);
    SweepingIsInvisible(s, all);
    SweepingIsInvisible(s, before + later);
    SweepingIsInvisible(s, before);
    var then_ := AfterUnswept(s, before);
    assert all == before + ([call] + later);
    RunsJoin(s, before, [call] + later);
    RunsJoin(s, before, later);
    RunsJoin(then_, [call], later);
    OneCall(then_, call);
    assert AnswersUnswept(then_, [call] + later)[1..] == AnswersUnswept(then_, later);
  }

  lemma OneCall(s: State, call: Call)
    ensures AnswersUnswept(s, [call]) == [Counted(s, call.key, call.now).1]
    ensures AfterUnswept(s, [call]) == Counted(s, call.key, call.now).0
    ensures !Counted(s, call.key, call.now).1 ==> Counted(s, call.key, call.now).0 == s
  {
    assert [] + [call] == [call];
    LastCall(s, [], call);
  }

  // --- What is kept ------------------------------------------------------------------------------

  /** Nothing that had ended by the last sweep is stored, and the last sweep was at most a window ago. */
  ghost predicate SweptLately(s: State, now: int) {
    && s.lastSweep <= now && now - s.lastSweep <= s.window
    && forall k | k in s.visitors :: s.visitors[k].expiresAt >= s.lastSweep
  }

  lemma CallSweeps(s: State, key: string, now: int)
    requires s.window >= 0 && s.lastSweep <= now
    requires forall k | k in s.visitors :: s.visitors[k].expiresAt >= s.lastSweep
    ensures SweptLately(Allowed(s, key, now).0, now) && Allowed(s, key, now).0.window == s.window
  {
  }

  /** After any chronological run, whatever is stored ended at most one window ago: old keys do not pile up. */
  lemma {:induction false} EntriesAreRecent(limit: int, window: int, started: int, calls: seq<Call>)
    requires window >= 0 && |calls| > 0 && Chronological(calls) && started <= calls[0].now
    ensures var s, now := After(State(limit, window, map[], started), calls), calls[|calls| - 1].now;
      && s.window == window && SweptLately(s, now)
      && forall k | k in s.visitors :: s.visitors[k].expiresAt >= now - window
  {
    hide Allowed;
    var m, last := |calls| - 1, calls[|calls| - 1];
    if m > 0 {
      EntriesAreRecent(limit, window, started, calls[..m]);
      CallSweeps(After(State(limit, window, map[], started), calls[..m]), last.key, last.now);
    } else {
      assert calls[..0] == [];
      CallSweeps(State(limit, window, map[], started), last.key, last.now);
    }
  }
}
