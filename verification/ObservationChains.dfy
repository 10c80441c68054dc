/**
  Replacement links over whole runs: exactly when all chains end, what they end at, and the two
  schedules that decide it - one request at a time, and overlapping ones.
 */
module ObservationChains {
  import opened Options
  import opened Boundaries
  import opened Lifecycles
  import opened Records
  import opened Invariants
  import opened Requests
  import opened Calls
  import opened Transactions
  import opened Interleaving
  import opened Scheduling
  import opened ReplacementLinks
  import opened Provenance
  import opened Outcomes

  // --- Every interleaving ---------------------------------------------------------------------

  /** The move commits a supersession whose replacement leads back to what it supersedes. */
  ghost predicate LoopMove(lib: Library, s: System, move: Move)
    requires WellPlaced(lib, s)
  {
    && move.Step? && move.call < |s.calls| && s.calls[move.call].progress.Ready?
    && var call := s.calls[move.call];
       Commit(s.db, call.actor, call.req, call.progress.plan).Some? && ClosesLoop(s.db, call.progress.plan)
  }

  lemma MoveKeepsChainsExactlyWhen(lib: Library, s: System, move: Move)
    requires WellPlaced(lib, s) && SystemSound(lib, s)
    ensures EveryChainEnds(Do(lib, s, move).db.observations) <==> EveryChainEnds(s.db.observations) && !LoopMove(lib, s, move)
  {
    hide Sound, CallSound, Advance, Commit, EveryChainEnds, ClosesLoop, PlanSound, Confirmation;
    if move.Step? && move.call < |s.calls| {
      var call := s.calls[move.call];
      StepOfCall(lib, s, move.call);
      if call.progress.Ready? {
        var plan := call.progress.plan;
        CommitStep(lib, s.db, call.actor, call.req, plan);
        ReadyOrAnswered(lib, s.db, call.actor, call.req, call.progress);
        assert call == Call(call.actor, call.req, call.progress);
        if Commit(s.db, call.actor, call.req, plan).Some? {
          CommitKeepsChainsExactlyWhen(lib, s.db, call.actor, call.req, plan);
        }
      }
    }
  }

  /** No supersession, when it was committed, closed a loop. */
  ghost predicate NoLoopClosed(lib: Library, moves: seq<Move>) {
    forall n | 0 <= n < |moves| :: !LoopMove(lib, Run(lib, moves[..n]), moves[n])
  }

  lemma NoLoopClosedSoFar(lib: Library, moves: seq<Move>)
    requires |moves| > 0
    ensures var m := |moves| - 1;
      NoLoopClosed(lib, moves) <==> NoLoopClosed(lib, moves[..m]) && !LoopMove(lib, Run(lib, moves[..m]), moves[m])
  {
    hide LoopMove, Run;
    var m := |moves| - 1;
    assert forall n | 0 <= n < m :: moves[..m][..n] == moves[..n] && moves[..m][n] == moves[n];
  }

  /**
    Over every interleaving: all chains end if and only if each supersession, when it was committed,
    named a replacement whose own chain did not lead back to the superseded observation.
   */
  lemma {:induction false} ChainsEndExactlyWhen(lib: Library, moves: seq<Move>)
    ensures EveryChainEnds(Run(lib, moves).db.observations) <==> NoLoopClosed(lib, moves)
  {
    hide EveryChainEnds, LoopMove, SystemSound, Do;
    if |moves| == 0 {
      NoChains();
    } else {
      hide NoLoopClosed;
      var m := |moves| - 1;
      ChainsEndExactlyWhen(lib, moves[..m]);
      NoLoopClosedSoFar(lib, moves);
      EveryRunIsSound(lib, moves[..m]);
      MoveKeepsChainsExactlyWhen(lib, Run(lib, moves[..m]), moves[m]);
    }
  }

  lemma NoChains()
    ensures EveryChainEnds(EMPTY_DB.observations)
  {
  }

  /**
    In every state of every run, where a chain ends it ends at one observation, on the same parcel,
    and one that is not superseded if a link was followed.
   */
  lemma ChainsEndLive(lib: Library, moves: seq<Move>, i: nat, e: nat, n: nat)
    requires Ends(Run(lib, moves).db.observations, i, e, n)
    ensures var rows := Run(lib, moves).db.observations;
      && rows[e].parcelID == rows[i].parcelID && (n > 0 ==> rows[e].state != Superseded)
      && forall f, m | Ends(rows, i, f, m) :: f == e && m == n
  {
    hide Run, Sound, LinksLive;
    EveryRunIsSound(lib, moves);
    EveryRunIsAccounted(lib, moves);
    var db := Run(lib, moves).db;
    EndIsLive(lib, db, i, e, n);
    forall f, m | Ends(db.observations, i, f, m) ensures f == e && m == n {
      EndIsUnique(db.observations, i, e, n, f, m);
    }
  }

  // --- One request at a time ------------------------------------------------------------------------

  /** A fresh plan closes no loop: its replacement is not superseded, so its chain ends where it starts. */
  lemma FreshClosesNoLoop(lib: Library, db: Db, plan: Plan)
    requires Sound(lib, db) && Fresh(db, Ready(plan))
    ensures !ClosesLoop(db, plan)
  {
    hide Sound;
    KnownObservations(lib, db);
  }

  lemma StepKeepsChains(lib: Library, db: Db, actor: Actor, req: Request, p: Progress)
    requires Fits(lib, req, p) && Sound(lib, db) && CallSound(lib, db, Call(actor, req, p)) && Fresh(db, p) && EveryChainEnds(db.observations)
    ensures var (next, q) := Advance(lib, db, actor, req, p); EveryChainEnds(next.observations) && Fresh(next, q)
  {
    hide Sound, EveryChainEnds, CallSound, Advance, Commit, Confirmation, PlanSound, ClosesLoop;
    if p.Ready? {
      CommitStep(lib, db, actor, req, p.plan);
      ReadyOrAnswered(lib, db, actor, req, p);
      if Commit(db, actor, req, p.plan).Some? {
        FreshClosesNoLoop(lib, db, p.plan);
        CommitKeepsChainsExactlyWhen(lib, db, actor, req, p.plan);
      }
    } else {
      ReadsAreFresh(lib, db, actor, req, p);
    }
  }

  /** One request from wherever it is to its answer, with nothing in between. */
  lemma {:induction false} ServingKeepsChains(lib: Library, db: Db, actor: Actor, req: Request, p: Progress)
    requires Fits(lib, req, p) && Sound(lib, db) && CallSound(lib, db, Call(actor, req, p)) && Fresh(db, p) && EveryChainEnds(db.observations)
    ensures var d := Serve(lib, db, actor, req, p).0; Sound(lib, d) && EveryChainEnds(d.observations)
    decreases Remaining(req, p)
  {
    hide Sound, EveryChainEnds, CallSound, Advance, Fits, Fresh, Remaining;
    if !p.Answered? {
      var (next, q) := Advance(lib, db, actor, req, p);
      StepsRunOut(lib, db, actor, req, p);
      StepKeepsSound(lib, db, Call(actor, req, p));
      StepKeepsChains(lib, db, actor, req, p);
      ServingKeepsChains(lib, next, actor, req, q);
    }
  }

  lemma {:induction false} TurnsKeepChains(lib: Library, requests: seq<(Actor, Request)>)
    ensures var d := ServedInTurn(lib, requests); Sound(lib, d) && EveryChainEnds(d.observations)
  {
    if |requests| == 0 {
      EmptyIsSound(lib);
    } else {
      hide Sound, EveryChainEnds, Serve;
      var earlier := ServedInTurn(lib, requests[..|requests| - 1]);
      var (actor, req) := requests[|requests| - 1];
      TurnsKeepChains(lib, requests[..|requests| - 1]);
      NewCallSound(lib, earlier, actor, req);
      ServingKeepsChains(lib, earlier, actor, req, Started);
    }
  }

  /**
    With requests served one at a time, links never form a cycle: from every observation they lead,
    in finitely many steps, to exactly one observation without a replacement, on the same parcel;
    and what a replaced observation leads to is not superseded.
   */
  lemma EveryChainHasOneLiveEnd(lib: Library, requests: seq<(Actor, Request)>, i: nat) returns (e: nat, n: nat)
    requires i in ServedInTurn(lib, requests).observations
    ensures var rows := ServedInTurn(lib, requests).observations;
      && Ends(rows, i, e, n) && (forall f, m | Ends(rows, i, f, m) :: f == e && m == n)
      && rows[e].parcelID == rows[i].parcelID
      && (rows[i].replacedBy.Some? ==> rows[e].state != Superseded)
  {
    hide Sound, ServedInTurn, Run;
    var rows := ServedInTurn(lib, requests).observations;
    TurnsKeepChains(lib, requests);
    assert HasEnd(rows, i);
    e, n :| Ends(rows, i, e, n);
    var moves := TurnsAreRuns(lib, requests);
    ChainsEndLive(lib, moves, i, e, n);
  }

  // --- Overlapping requests ----------------------------------------------------------------------------

  function Superseding(id: nat, version: nat, replacement: nat): Request {
    Request.TransitionObservation(id, Superseded, version, Some(replacement), "")
  }

  /** Two usable observations of one parcel. */
  predicate TwoUsable(db: Db, a: nat, b: nat) {
    && a in db.observations && b in db.observations && a != b
    && db.observations[a].id == a && db.observations[b].id == b
    && db.observations[a].state == Usable && db.observations[b].state == Usable
    && db.observations[a].parcelID == db.observations[b].parcelID
  }

  /** The reads of a supersession, uninterrupted, end in a plan. */
  lemma SupersessionPlanned(lib: Library, db: Db, actor: Actor, a: nat, b: nat)
    requires TwoUsable(db, a, b) && actor.role == Surveyor
    ensures var req := Superseding(a, db.observations[a].version, b);
      && Advance(lib, db, actor, req, Started) == (db, ObservationRead(db.observations[a]))
      && Advance(lib, db, actor, req, ObservationRead(db.observations[a])) ==
         (db, Ready(ChangeObservationPlan(db.observations[a], Superseded, Some(b), "")))
  {
  }

  /** Once both plans are made, both commit, and the two observations replace each other. */
  lemma BothCommit(lib: Library, db: Db, actor: Actor, a: nat, b: nat)
    requires TwoUsable(db, a, b) && actor.role == Surveyor && actor.requestID != ""
    ensures var first := ChangeObservationPlan(db.observations[a], Superseded, Some(b), "");
      var second := ChangeObservationPlan(db.observations[b], Superseded, Some(a), "");
      var req, other := Superseding(a, db.observations[a].version, b), Superseding(b, db.observations[b].version, a);
      var (d, p) := Advance(lib, db, actor, req, Ready(first));
      var (e, q) := Advance(lib, d, actor, other, Ready(second));
      && p.Answered? && p.response.ObservationAnswer? && q.Answered? && q.response.ObservationAnswer?
      && !HasEnd(e.observations, a) && !HasEnd(e.observations, b)
  {
    var first := ChangeObservation(db, actor, db.observations[a], Superseded, Some(b), "").value;
    var d := ChangeObservation(first, actor, db.observations[b], Superseded, Some(a), "").value.observations;
    assert d[a].replacedBy == Some(b) && d[b].replacedBy == Some(a);
    TwoCycle(d, a, b);
  }

  lemma TwoCycle(rows: Rows, a: nat, b: nat)
    requires a in rows && b in rows && rows[a].replacedBy == Some(b) && rows[b].replacedBy == Some(a)
    ensures !HasEnd(rows, a) && !HasEnd(rows, b)
  {
    assert Leads(rows, a, a, 0) && Leads(rows, b, b, 0);
    assert Leads(rows, a, b, 1) && Leads(rows, b, a, 1);
    assert Leads(rows, a, a, 2) && Leads(rows, b, b, 2);
    forall f, m ensures !Ends(rows, a, f, m) && !Ends(rows, b, f, m) {
      CyclesDoNotEnd(rows, a, 2, f, m);
      CyclesDoNotEnd(rows, b, 2, f, m);
    }
  }

  /** The calls of a system and two more. */
  function Pair(db: Db, calls: seq<Call>, c: Call, d: Call): System {
    System(db, calls + [c, d])
  }

  lemma StepOfPair(lib: Library, moves: seq<Move>, db: Db, calls: seq<Call>, c: Call, d: Call)
    requires Run(lib, moves) == Pair(db, calls, c, d)
    ensures Fits(lib, c.req, c.progress) && Fits(lib, d.req, d.progress)
    ensures var (e, p) := Advance(lib, db, c.actor, c.req, c.progress);
      Run(lib, moves + [Step(|calls|)]) == Pair(e, calls, c.(progress := p), d)
    ensures var (e, p) := Advance(lib, db, d.actor, d.req, d.progress);
      Run(lib, moves + [Step(|calls| + 1)]) == Pair(e, calls, c, d.(progress := p))
  {
    hide Run, Advance, Do, Fits;
    var s := Run(lib, moves);
    assert s.calls[|calls|] == c && s.calls[|calls| + 1] == d;
    RunOn(lib, moves, Step(|calls|));
    RunOn(lib, moves, Step(|calls| + 1));
    StepOfCall(lib, s, |calls|);
    StepOfCall(lib, s, |calls| + 1);
    assert forall q :: s.calls[|calls| := q] == calls + [q, d] && s.calls[|calls| + 1 := q] == calls + [c, q];
  }

  /**
    From any state of any run with two usable observations of one parcel, two overlapping requests
    of one surveyor, each superseding one observation by the other, both succeed: all four reads come
    before either commit, and then neither chain ends, now or ever after.
   */
  lemma OverlapClosesACycle(lib: Library, moves: seq<Move>, actor: Actor, a: nat, b: nat) returns (more: seq<Move>)
    requires TwoUsable(Run(lib, moves).db, a, b) && actor.role == Surveyor && actor.requestID != ""
    ensures var s, t := Run(lib, moves), Run(lib, moves + more);
      && |t.calls| == |s.calls| + 2
      && (forall k | |s.calls| <= k < |t.calls| :: t.calls[k].progress.Answered? && t.calls[k].progress.response.ObservationAnswer?)
      && !HasEnd(t.db.observations, a) && !HasEnd(t.db.observations, b)
  {
    hide Run, Advance, Do, Fits, HasEnd;
    var s := Run(lib, moves);
    var db, n := s.db, |s.calls|;
    var req, other := Superseding(a, db.observations[a].version, b), Superseding(b, db.observations[b].version, a);
    SupersessionPlanned(lib, db, actor, a, b);
    SupersessionPlanned(lib, db, actor, b, a);
    BothCommit(lib, db, actor, a, b);
    more := [Send(actor, req), Send(actor, other), Step(n), Step(n + 1), Step(n), Step(n + 1), Step(n), Step(n + 1)];
    var sent := BothSent(lib, moves, actor, req, other);
    var c, d := Call(actor, req, Started), Call(actor, other, Started);
    var read, readOther := ObservationRead(db.observations[a]), ObservationRead(db.observations[b]);
    var first := Ready(ChangeObservationPlan(db.observations[a], Superseded, Some(b), ""));
    var second := Ready(ChangeObservationPlan(db.observations[b], Superseded, Some(a), ""));
    StepOfPair(lib, sent, db, s.calls, c, d);
    var m1 := sent + [Step(n)];
    StepOfPair(lib, m1, db, s.calls, c.(progress := read), d);
    var m2 := m1 + [Step(n + 1)];
    StepOfPair(lib, m2, db, s.calls, c.(progress := read), d.(progress := readOther));
    var m3 := m2 + [Step(n)];
    StepOfPair(lib, m3, db, s.calls, c.(progress := first), d.(progress := readOther));
    var m4 := m3 + [Step(n + 1)];
    StepOfPair(lib, m4, db, s.calls, c.(progress := first), d.(progress := second));
    var m5 := m4 + [Step(n)];
    var (e, p) := Advance(lib, db, actor, req, first);
    StepOfPair(lib, m5, e, s.calls, c.(progress := p), d.(progress := second));
    assert moves + more == m5 + [Step(n + 1)];
  }

  lemma BothSent(lib: Library, moves: seq<Move>, actor: Actor, req: Request, other: Request) returns (sent: seq<Move>)
    ensures sent == moves + [Send(actor, req)] + [Send(actor, other)]
    ensures var s := Run(lib, moves); Run(lib, sent) == Pair(s.db, s.calls, Call(actor, req, Started), Call(actor, other, Started))
  {
    hide Run;
    RunOn(lib, moves, Send(actor, req));
    RunOn(lib, moves + [Send(actor, req)], Send(actor, other));
    sent := moves + [Send(actor, req)] + [Send(actor, other)];
  }

  /** An observation is imported into a run. */
  lemma ImportedInARun(lib: Library, moves: seq<Move>, actor: Actor, req: Request) returns (more: seq<Move>)
    requires req.ImportObservation? && req.observationState.None? && req.parcelID in Run(lib, moves).db.parcels
    requires lib.isPoint(req.point) && !Run(lib, moves).db.ObservationCodeTaken(req.code) && actor.requestID != ""
    ensures var db, d := Run(lib, moves).db, Run(lib, moves + more).db; var a := db.next.observation;
      && d.parcels == db.parcels && a !in db.observations && a in d.observations && d.observations == db.observations[a := d.observations[a]]
      && d.observations[a].id == a && d.observations[a].code == req.code && d.observations[a].state == Usable && d.observations[a].parcelID == req.parcelID
  {
    hide Run, Serve, Sound;
    var db := Run(lib, moves).db;
    more := ServingIsARun(lib, moves, actor, req);
    ImportOutcome(lib, db, actor, req);
    EveryRunIsSound(lib, moves);
    KnownObservations(lib, db);
  }

  /**
    The cycle is reached from the empty database, whatever boundary, coordinate system and point are
    accepted: a parcel and two observations of it are enough.
   */
  lemma CyclesAreReached(lib: Library, actor: Actor, boundary: string, system: string, point: string, evidence: Evidence)
    returns (moves: seq<Move>)
    requires lib.systemAllowed(system) && Parsed(lib, boundary).Some? && lib.isPoint(point)
    requires actor.role == Surveyor && actor.requestID != ""
    ensures !EveryChainEnds(Run(lib, moves).db.observations)
  {
    hide Run, Serve, Parsed, AreaOf;
    var create := Request.CreateParcel("", "", boundary, system, "", "");
    NothingStored(lib);
    var created := ServingIsARun(lib, [], actor, create);
    assert [] + created == created;
    ParcelCreationOutcome(lib, EMPTY_DB, actor, create);
    var db := Run(lib, created).db;
    var first := ImportedInARun(lib, created, actor, Request.ImportObservation(EMPTY_DB.next.parcel, "A", point, evidence, None, ""));
    var second := ImportedInARun(lib, created + first, actor, Request.ImportObservation(EMPTY_DB.next.parcel, "B", point, evidence, None, ""));
    var a, b := db.next.observation, Run(lib, created + first).db.next.observation;
    var before := created + first + second;
    assert TwoUsable(Run(lib, before).db, a, b);
    var overlap := OverlapClosesACycle(lib, before, actor, a, b);
    moves := before + overlap;
    RunsOnlyEvolve(lib, moves, |before|);
    assert moves[..|before|] == before;
    StillThere(Run(lib, before).db, Run(lib, moves).db, a);
  }

  lemma StillThere(a: Db, b: Db, id: nat)
    requires Follows(a, b) && id in a.observations
    ensures id in b.observations
  {
  }
}
