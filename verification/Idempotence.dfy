/** Detection is idempotent per actor and key, under every interleaving. */
module Idempotence {
  import opened Boundaries
  import opened Records
  import opened Invariants
  import opened Requests
  import opened Calls
  import opened Transactions
  import opened Interleaving
  import Hashing

  /** The same conflicts in the same order; only lifecycle states may differ. */
  predicate SameAnswer(a: seq<Conflict>, b: seq<Conflict>) {
    |a| == |b| && forall k | 0 <= k < |a| :: a[k].id == b[k].id && a[k].detection == b[k].detection
  }

  /** The tolerance a detection request ends up with, as text. */
  ghost function ToleranceTextOf(lib: Library, db: Db, req: Request): string
    requires req.DetectConflicts? && req.proposalID in db.proposals
  {
    lib.toleranceText(if req.tolerance == 0.0 then db.proposals[req.proposalID].tolerance else req.tolerance)
  }

  /** A tolerance is written with digits, a sign and a point: no NUL. */
  ghost predicate PlainTolerances(lib: Library) {
    forall t :: Hashing.NulFree(lib.toleranceText(t))
  }

  ghost predicate DetectionAnswered(call: Call) {
    call.req.DetectConflicts? && call.progress.Answered? && call.progress.response.ConflictsAnswer?
  }

  /** In any state of any run, at most one detection is stored per actor and key. */
  lemma OneRunPerKey(lib: Library, moves: seq<Move>, r: nat, q: nat)
    requires r in Run(lib, moves).db.runs && q in Run(lib, moves).db.runs
    requires var runs := Run(lib, moves).db.runs; runs[r].actorID == runs[q].actorID && runs[r].key == runs[q].key
    ensures r == q
  {
    EveryRunIsSound(lib, moves);
    SoundRuns(lib, Run(lib, moves).db);
    hide Sound;
  }

  lemma AnsweringRun(lib: Library, db: Db, call: Call) returns (r: nat)
    requires CallSound(lib, db, call) && DetectionAnswered(call)
    ensures r in db.runs && RunAnswers(lib, db, call.actor, call.req, db.runs[r])
    ensures SameResults(db, db.runs[r], call.progress.response.conflicts)
  {
    hide RunAnswers, SameResults;
    r :| r in db.runs && RunAnswers(lib, db, call.actor, call.req, db.runs[r]) && SameResults(db, db.runs[r], call.progress.response.conflicts);
  }

  /**
    However the calls interleave, and whether a call committed the run, found it at once, or
    lost the race for the key: two successful answers to one actor under one key are the same,
    and were to requests for the same proposal and tolerance.
   */
  lemma AnswersAgree(lib: Library, moves: seq<Move>, i: nat, j: nat)
    requires PlainTolerances(lib)
    requires var calls := Run(lib, moves).calls;
      && i < |calls| && j < |calls| && DetectionAnswered(calls[i]) && DetectionAnswered(calls[j])
      && calls[i].actor.id == calls[j].actor.id && calls[i].req.key == calls[j].req.key
    ensures var s := Run(lib, moves); var a, b := s.calls[i], s.calls[j];
      && SameAnswer(a.progress.response.conflicts, b.progress.response.conflicts)
      && a.req.proposalID == b.req.proposalID && a.req.proposalID in s.db.proposals
      && ToleranceTextOf(lib, s.db, a.req) == ToleranceTextOf(lib, s.db, b.req)
  {
    hide Run, CallSound, Sound;
    EveryRunIsSound(lib, moves);
    var s := Run(lib, moves);
    SoundRuns(lib, s.db);
    AnswersAgreeIn(lib, s.db, s.calls[i], s.calls[j]);
  }

  lemma AnswersAgreeIn(lib: Library, db: Db, a: Call, b: Call)
    requires PlainTolerances(lib) && RunsSound(db, []) && CallSound(lib, db, a) && CallSound(lib, db, b)
    requires DetectionAnswered(a) && DetectionAnswered(b) && a.actor.id == b.actor.id && a.req.key == b.req.key
    ensures SameAnswer(a.progress.response.conflicts, b.progress.response.conflicts)
    ensures a.req.proposalID == b.req.proposalID && a.req.proposalID in db.proposals
    ensures ToleranceTextOf(lib, db, a.req) == ToleranceTextOf(lib, db, b.req)
  {
    var r := AnsweringRun(lib, db, a);
    var q := AnsweringRun(lib, db, b);
    hide CallSound, RunSound, InSomeRun, Hashing.RequestHash;
    assert r == q;
    HashesAgree(lib, db, a.req, b.req, db.runs[r].requestHash);
  }

  lemma HashesAgree(lib: Library, db: Db, a: Request, b: Request, hash: string)
    requires PlainTolerances(lib) && HashAgrees(lib, db, a, hash) && HashAgrees(lib, db, b, hash)
    ensures a.proposalID == b.proposalID && a.proposalID in db.proposals
    ensures ToleranceTextOf(lib, db, a) == ToleranceTextOf(lib, db, b)
  {
    hide Hashing.RequestHash;
    Hashing.RequestHashIdentifies(a.proposalID, ToleranceTextOf(lib, db, a), b.proposalID, ToleranceTextOf(lib, db, b));
  }

  // --- Served alone ---------------------------------------------------------------------

  /** What a stored run answers: its conflicts as they are now, or a conflict error when the request differs. */
  ghost function FromRun(lib: Library, db: Db, run: DetectionRun, hash: string): Response
    requires db.ConflictsByID(run.resultIDs).Some?
  {
    if run.requestHash == hash then ConflictsAnswer(db.ConflictsByID(run.resultIDs).value) else Failed(StateConflict)
  }

  lemma ReplayServed(lib: Library, db: Db, actor: Actor, req: Request, run: DetectionRun)
    requires req.DetectConflicts? && db.ConflictsByID(run.resultIDs).Some?
    ensures Serve(lib, db, actor, req, Replaying(run)) == (db, ConflictsAnswer(db.ConflictsByID(run.resultIDs).value))
  {
    hide Db.ConflictsByID, Fits;
    AnswerServed(lib, db, actor, req, ConflictsAnswer(db.ConflictsByID(run.resultIDs).value));
  }

  lemma ReuseFits(lib: Library, req: Request, run: DetectionRun, hash: string)
    requires req.DetectConflicts?
    ensures Fits(lib, req, Reuse(run, hash))
  {
  }

  /** A call that has found a run answers from it and changes nothing; it never misses a conflict. */
  lemma ReuseServed(lib: Library, db: Db, actor: Actor, req: Request, run: DetectionRun, hash: string)
    requires Sound(lib, db) && req.DetectConflicts? && run.id in db.runs && db.runs[run.id] == run
    requires Fits(lib, req, Reuse(run, hash))
    ensures db.ConflictsByID(run.resultIDs).Some?
    ensures Serve(lib, db, actor, req, Reuse(run, hash)) == (db, FromRun(lib, db, run, hash))
  {
    hide Sound, Db.ConflictsByID, Advance, Serve;
    RunResultsStored(lib, db, run);
    if run.requestHash == hash {
      ReplayServed(lib, db, actor, req, run);
    } else {
      AnswerServed(lib, db, actor, req, Failed(StateConflict));
    }
  }

  /** The run found under a taken key. */
  lemma StoredRun(lib: Library, db: Db, actorID: nat, key: string)
    requires Sound(lib, db) && db.RunKeyTaken(actorID, key)
    ensures db.RunFor(actorID, key).Some?
    ensures var run := db.RunFor(actorID, key).value;
      run.id in db.runs && db.runs[run.id] == run && run.actorID == actorID && run.key == key
  {
    hide Sound, RunsSound, KeysSound, Db.RunFor, Db.RunKeyTaken;
    SoundRuns(lib, db);
    LookUpIsExact(db, actorID, key);
  }

  lemma RunResultsStored(lib: Library, db: Db, run: DetectionRun)
    requires Sound(lib, db) && run.id in db.runs && db.runs[run.id] == run
    ensures db.ConflictsByID(run.resultIDs).Some?
  {
    hide Sound, InSomeRun, Db.ConflictsByID;
    SoundRuns(lib, db);
    assert RunSound(db, run);
    ConflictsByIDListed(db, run.resultIDs);
  }

  /** Once the key is taken, a request under it is answered from the run or refused, and the database is unchanged either way. */
  lemma TakenKeyAnswers(lib: Library, db: Db, actor: Actor, req: Request)
    requires Sound(lib, db) && req.DetectConflicts? && KeyAccepted(req.key) && req.proposalID in db.proposals
    requires db.RunKeyTaken(actor.id, req.key)
    ensures db.RunFor(actor.id, req.key).Some?
    ensures var run := db.RunFor(actor.id, req.key).value;
      && db.ConflictsByID(run.resultIDs).Some?
      && Serve(lib, db, actor, req, Started) == (db, FromRun(lib, db, run, RequestHashOf(lib, req, db.proposals[req.proposalID])))
  {
    hide Sound, Db.RunFor, Db.RunKeyTaken, Db.ConflictsByID, RequestHashOf, Reuse, FromRun, Serve, Advance;
    StoredRun(lib, db, actor.id, req.key);
    var proposal, run := db.proposals[req.proposalID], db.RunFor(actor.id, req.key).value;
    ReuseFits(lib, req, db.RunFor(actor.id, req.key).value, RequestHashOf(lib, req, proposal));
    ReuseServed(lib, db, actor, req, run, RequestHashOf(lib, req, proposal));
    FirstStep(lib, db, actor, req);
    ServedOn(lib, db, actor, req, Started);
    LookUpStep(lib, db, actor, req, proposal);
    ServedOn(lib, db, actor, req, ProposalRead(proposal));
  }

  lemma FirstStep(lib: Library, db: Db, actor: Actor, req: Request)
    requires req.DetectConflicts? && KeyAccepted(req.key) && req.proposalID in db.proposals
    ensures Advance(lib, db, actor, req, Started) == (db, ProposalRead(db.proposals[req.proposalID]))
  {
  }

  lemma LookUpStep(lib: Library, db: Db, actor: Actor, req: Request, proposal: Proposal)
    requires req.DetectConflicts? && db.RunFor(actor.id, req.key).Some?
    ensures Advance(lib, db, actor, req, ProposalRead(proposal)) ==
      (db, Reuse(db.RunFor(actor.id, req.key).value, RequestHashOf(lib, req, proposal)))
  {
    hide Db.RunFor, Reuse, RequestHashOf;
  }

  lemma FailedDetectionStep(lib: Library, db: Db, actor: Actor, req: Request, hash: string)
    requires req.DetectConflicts? && db.RunFor(actor.id, req.key).Some?
    ensures Advance(lib, db, actor, req, TransactionFailed(hash)) == (db, Reuse(db.RunFor(actor.id, req.key).value, hash))
  {
    hide Db.RunFor, Reuse;
  }

  /** An identified call whose detection transaction fails is answered from the run that beat it, never with an internal error. */
  lemma LoserIsAnswered(lib: Library, db: Db, actor: Actor, req: Request, plan: Plan)
    requires Sound(lib, db) && req.DetectConflicts? && plan.DetectPlan? && actor.requestID != ""
    requires Commit(db, actor, req, plan).None?
    ensures db.RunFor(actor.id, req.key).Some?
    ensures var run := db.RunFor(actor.id, req.key).value;
      && db.ConflictsByID(run.resultIDs).Some?
      && Serve(lib, db, actor, req, Ready(plan)) == (db, FromRun(lib, db, run, plan.requestHash))
  {
    hide Sound, Db.RunFor, Db.RunKeyTaken, Db.ConflictsByID, PlanSound, Fits, Commit, Reuse, FromRun, Advance, Serve;
    RefusedForTheKey(lib, db, actor, req, plan);
    StoredRun(lib, db, actor.id, req.key);
    ReuseFits(lib, req, db.RunFor(actor.id, req.key).value, plan.requestHash);
    ReuseServed(lib, db, actor, req, db.RunFor(actor.id, req.key).value, plan.requestHash);
    LoserGoesOn(lib, db, actor, req, plan);
  }

  lemma RefusedForTheKey(lib: Library, db: Db, actor: Actor, req: Request, plan: Plan)
    requires req.DetectConflicts? && plan.DetectPlan? && actor.requestID != "" && Commit(db, actor, req, plan).None?
    ensures db.RunKeyTaken(actor.id, req.key)
  {
    hide Db.RunKeyTaken, Detect;
    DetectFailsOnlyFor(db, actor, req.key, plan);
  }

  lemma LoserGoesOn(lib: Library, db: Db, actor: Actor, req: Request, plan: Plan)
    requires req.DetectConflicts? && plan.DetectPlan? && Commit(db, actor, req, plan).None? && db.RunFor(actor.id, req.key).Some?
    ensures Serve(lib, db, actor, req, Ready(plan)) ==
      Serve(lib, db, actor, req, Reuse(db.RunFor(actor.id, req.key).value, plan.requestHash))
  {
    hide Db.RunFor, Commit, Reuse, Advance, Serve;
    CommitStep(lib, db, actor, req, plan);
    ServedOn(lib, db, actor, req, Ready(plan));
    FailedDetectionStep(lib, db, actor, req, plan.requestHash);
    ServedOn(lib, db, actor, req, TransactionFailed(plan.requestHash));
  }

  /** Asking again, at any later time, gives the same conflicts and changes nothing, whatever happened in between. */
  lemma AskingAgain(lib: Library, moves: seq<Move>, n: nat, i: nat, actor: Actor)
    requires n <= |moves| && i < |Run(lib, moves[..n]).calls|
    requires var call := Run(lib, moves[..n]).calls[i];
      DetectionAnswered(call) && KeyAccepted(call.req.key) && actor.id == call.actor.id
    ensures var call, db := Run(lib, moves[..n]).calls[i], Run(lib, moves).db;
      var (after, again) := Serve(lib, db, actor, call.req, Started);
      after == db && again.ConflictsAnswer? && SameAnswer(call.progress.response.conflicts, again.conflicts)
  {
    hide Run, CallSound, Sound, Follows;
    var s, db := Run(lib, moves[..n]), Run(lib, moves).db;
    EveryRunIsSound(lib, moves[..n]);
    EveryRunIsSound(lib, moves);
    RunsOnlyEvolve(lib, moves, n);
    CallStays(lib, s.db, db, s.calls[i]);
    AnsweredAgain(lib, db, s.calls[i], actor);
  }

  lemma AnsweredAgain(lib: Library, db: Db, call: Call, actor: Actor)
    requires Sound(lib, db) && CallSound(lib, db, call) && DetectionAnswered(call)
    requires KeyAccepted(call.req.key) && actor.id == call.actor.id
    ensures var (after, again) := Serve(lib, db, actor, call.req, Started);
      after == db && again.ConflictsAnswer? && SameAnswer(call.progress.response.conflicts, again.conflicts)
  {
    hide Sound, Serve, InSomeRun, RequestHashOf, RunSound, Db.ConflictsByID, Db.RunFor;
    var r := AnsweringRun(lib, db, call);
    hide CallSound;
    SoundRuns(lib, db);
    assert db.RunKeyTaken(actor.id, call.req.key);
    TakenKeyAnswers(lib, db, actor, call.req);
    StoredRun(lib, db, actor.id, call.req.key);
    var run := db.RunFor(actor.id, call.req.key).value;
    assert run == db.runs[r];
    ConflictsByIDListed(db, run.resultIDs);
  }

  // --- Answered while others go on ------------------------------------------------------------

  /**
    A detection that will be answered from a stored run: its key is taken when it looks it up, or its
    transaction was beaten, or it has found the run, or has its answer.
   */
  ghost predicate OnReplay(db: Db, call: Call) {
    call.req.DetectConflicts? &&
    match call.progress
    case ProposalRead(_) => db.RunKeyTaken(call.actor.id, call.req.key)
    case TransactionFailed(_) => call.actor.requestID != ""
    case Replaying(_) => true
    case Answered(response) => response.ConflictsAnswer? || response == Failed(StateConflict)
    case _ => false
  }

  lemma ReplayGoesOn(lib: Library, db: Db, call: Call)
    requires Sound(lib, db) && Fits(lib, call.req, call.progress) && CallSound(lib, db, call) && OnReplay(db, call)
    ensures var (d, p) := Advance(lib, db, call.actor, call.req, call.progress);
      d == db && OnReplay(db, call.(progress := p))
  {
    hide Sound, Db.RunFor, Db.RunKeyTaken, Db.ConflictsByID, RequestHashOf, Parsed, SeenProposal, HashAgrees;
    match call.progress
    case ProposalRead(_) => StoredRun(lib, db, call.actor.id, call.req.key);
    case TransactionFailed(_) => StoredRun(lib, db, call.actor.id, call.req.key);
    case Replaying(run) => RunResultsStored(lib, db, run);
    case Answered(_) =>
  }

  lemma OnReplayStays(a: Db, b: Db, call: Call)
    requires Follows(a, b) && OnReplay(a, call)
    ensures OnReplay(b, call)
  {
    hide Follows, Db.RunKeyTaken;
    KeyStaysTaken(a, b, call.actor.id, call.req.key);
  }

  /** One move, by this call or any other. */
  lemma MoveKeepsReplay(lib: Library, s: System, move: Move, i: nat)
    requires WellPlaced(lib, s) && SystemSound(lib, s) && i < |s.calls| && OnReplay(s.db, s.calls[i])
    ensures var t := Do(lib, s, move);
      && i < |t.calls| && t.calls[i].actor == s.calls[i].actor && t.calls[i].req == s.calls[i].req && OnReplay(t.db, t.calls[i])
      && (move == Step(i) ==> t.db == s.db)
  {
    hide Sound, CallSound, Advance, Fits, Follows, OnReplay;
    MoveKeepsSound(lib, s, move);
    OnReplayStays(s.db, Do(lib, s, move).db, s.calls[i]);
    if move == Step(i) {
      ReplayGoesOn(lib, s.db, s.calls[i]);
    }
  }

  /**
    Over every run: a detection that finds its key taken, or is identified and loses the race for it, stays
    on the way to the stored run whatever other calls do. It never changes the database again, and if it is
    answered, then with conflicts - by `AnswersAgree` the run's - or with a conflict error.
   */
  lemma {:induction false} ReplayIsNeverLost(lib: Library, moves: seq<Move>, n: nat, i: nat)
    requires n <= |moves| && i < |Run(lib, moves[..n]).calls|
    requires OnReplay(Run(lib, moves[..n]).db, Run(lib, moves[..n]).calls[i])
    ensures i < |Run(lib, moves).calls| && OnReplay(Run(lib, moves).db, Run(lib, moves).calls[i])
    ensures |moves| > n && moves[|moves| - 1] == Step(i) ==> Run(lib, moves).db == Run(lib, moves[..|moves| - 1]).db
    decreases |moves|
  {
    hide OnReplay, SystemSound, Do;
    if n == |moves| {
      assert moves[..n] == moves;
    } else {
      var m := |moves| - 1;
      assert moves[..m][..n] == moves[..n];
      ReplayIsNeverLost(lib, moves[..m], n, i);
      EveryRunIsSound(lib, moves[..m]);
      MoveKeepsReplay(lib, Run(lib, moves[..m]), moves[m], i);
    }
  }

  // --- What is stored ------------------------------------------------------------------------

  /** Every stored conflict is listed by exactly one run, exactly once, with the run's proposal and input hash. */
  lemma EveryConflictHasOneRun(lib: Library, moves: seq<Move>, c: nat) returns (r: nat, k: nat)
    requires c in Run(lib, moves).db.conflicts
    ensures var db := Run(lib, moves).db;
      && r in db.runs && k < |db.runs[r].resultIDs| && db.runs[r].resultIDs[k] == c
      && db.conflicts[c].detection.proposalID == db.runs[r].proposalID
      && db.conflicts[c].detection.inputHash == db.runs[r].inputHash
      && forall q, m | q in db.runs && 0 <= m < |db.runs[q].resultIDs| && db.runs[q].resultIDs[m] == c :: q == r && m == k
  {
    hide Run, Sound, KeysSound;
    EveryRunIsSound(lib, moves);
    var db := Run(lib, moves).db;
    SoundRuns(lib, db);
    r :| r in db.runs && c in db.runs[r].resultIDs;
    assert RunSound(db, db.runs[r]);
    k :| 0 <= k < |db.runs[r].resultIDs| && db.runs[r].resultIDs[k] == c;
  }

  /** A detection's fields, and a run, never change once stored. */
  lemma DetectionsNeverChange(lib: Library, moves: seq<Move>, n: nat)
    requires n <= |moves|
    ensures var a, b := Run(lib, moves[..n]).db, Run(lib, moves).db;
      && (forall c | c in a.conflicts :: c in b.conflicts && b.conflicts[c].detection == a.conflicts[c].detection)
      && (forall r | r in a.runs :: r in b.runs && b.runs[r] == a.runs[r])
  {
    hide Run;
    RunsOnlyEvolve(lib, moves, n);
  }
}
